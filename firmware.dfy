/** `IOT.cpp`: one measurement cycle of the device firmware. Each `loop()`
    call either reads the height until it has been stable for 4 seconds,
    then the weight from the scale's BLE advertisement until that is stable,
    then posts both once and starts over. The sensors, `millis()` and the
    outcomes of the HTTP requests are inputs; the LCD, LED matrix, delays
    and serial log are outside the model. */
module Firmware {
  import opened Wrappers
  import IotSimulator

  const LockDuration: nat := 4000
  const ScaleMac := "28:29:47:39:32:70"
  const DeviceId := "IOT_001"
  const ResetPath := "/reset/" + DeviceId
  const SendPath := "/recive"

  type Byte = x: int | 0 <= x < 256

  // ---------------------------------------------------------------------------
  // Height

  /** `currentTinggi = 150 - distance`, clamped into 0..150. */
  function ClampHeight(distance: int): (h: int)
    ensures 0 <= h <= 150
    ensures 0 <= distance <= 150 ==> h == 150 - distance
    ensures distance < 0 ==> h == 150
    ensures distance > 150 ==> h == 0
  {
    var t := 150 - distance;
    if t > 150 then 150 else if t < 0 then 0 else t
  }

  /** A nearer obstacle never reads as a smaller height. */
  lemma ClampHeightMonotone(d1: int, d2: int)
    requires d1 <= d2
    ensures ClampHeight(d2) <= ClampHeight(d1)
  {
  }

  // ---------------------------------------------------------------------------
  // Weight

  /** One BLE advertisement seen by `BLE.available()`: the sender's address
      and the manufacturer data it carries. */
  datatype Advert = Advert(mac: string, mfg: seq<Byte>)

  function Pow2(k: nat): (p: nat)
    ensures p >= 1
  {
    if k == 0 then 1 else 2 * Pow2(k - 1)
  }

  /** `x | y` on non-negative integers, bit by bit from the lowest. */
  function BitOr(x: nat, y: nat): nat
    decreases x + y
  {
    if x == 0 && y == 0 then 0
    else 2 * BitOr(x / 2, y / 2) + (if x % 2 == 1 || y % 2 == 1 then 1 else 0)
  }

  lemma {:induction false} BitOrZero(x: nat)
    ensures BitOr(x, 0) == x
    decreases x
  {
    if x != 0 {
      BitOrZero(x / 2);
    }
  }

  /** Or-ing a number shifted left by `k` bits with one below `2^k` adds them:
      no bit is set in both. */
  lemma {:induction false} BitOrDisjoint(a: nat, b: nat, k: nat)
    requires b < Pow2(k)
    ensures BitOr(a * Pow2(k), b) == a * Pow2(k) + b
    decreases k
  {
    if k == 0 {
      assert b == 0;
      BitOrZero(a);
    } else {
      var h := a * Pow2(k - 1);
      assert a * Pow2(k) == 2 * h;
      assert b / 2 < Pow2(k - 1);
      BitOrDisjoint(a, b / 2, k - 1);
      if 2 * h != 0 || b != 0 {
        assert (2 * h) / 2 == h && (2 * h) % 2 == 0;
        assert BitOr(2 * h, b) == 2 * BitOr(h, b / 2) + (if b % 2 == 1 then 1 else 0);
      }
    }
  }

  /** `(b1 << 8) | b2` on bytes promoted to `int`. */
  function Raw(b1: Byte, b2: Byte): (raw: nat)
    ensures raw == b1 * 256 + b2 && raw <= 65535
  {
    assert Pow2(8) == 256;
    BitOrDisjoint(b1, b2, 8);
    BitOr(b1 * Pow2(8), b2)
  }

  /** The raw reading of the configured scale: bytes 2 and 3 of its
      manufacturer data, when there are at least 4; nothing for any other
      sender, a short advertisement or no advertisement at all. */
  function DecodeWeight(p: Option<Advert>): (raw: Option<nat>)
    ensures raw.Some? <==> p.Some? && p.value.mac == ScaleMac && |p.value.mfg| >= 4
    ensures raw.Some? ==> raw.value == p.value.mfg[2] as int * 256 + p.value.mfg[3] as int && raw.value <= 65535
  {
    if p.Some? && p.value.mac == ScaleMac && |p.value.mfg| >= 4 then
      Some(Raw(p.value.mfg[2], p.value.mfg[3]))
    else None
  }

  /** `awal = raw / 100` and `akhir = raw % 100`. */
  function WeightParts(raw: nat): (parts: (nat, nat))
    ensures 100 * parts.0 + parts.1 == raw && parts.1 < 100
  {
    (raw / 100, raw % 100)
  }

  /** `berat = awal + akhir / 100.0`, in kilograms. Float rounding is not
      modelled. */
  function Weight(raw: nat): (kg: real)
    ensures kg == raw as real / 100.0
    ensures kg > 0.0 <==> raw > 0
  {
    var parts := WeightParts(raw);
    parts.0 as real + parts.1 as real / 100.0
  }

  /** Different raw readings are different weights, so a changed reading is
      always seen as a change. */
  lemma WeightInjective(a: nat, b: nat)
    ensures Weight(a) == Weight(b) <==> a == b
  {
  }

  // ---------------------------------------------------------------------------
  // The loop() state machine

  /** The globals `loop()` reads and writes. */
  datatype State = State(
    berat: real, previousBerat: real, beratLocked: bool, beratLastUpdate: int,
    currentTinggi: int, previousTinggi: int, tinggiLocked: bool, tinggiLastUpdate: int,
    wifiConnected: bool, dataSent: bool, dataReset: bool)

  /** What one `loop()` call sees: `millis()`, the ultrasonic distance in cm,
      the advertisement `BLE.available()` returns, and whether the data post
      and the reset post answer 200. */
  datatype Inputs = Inputs(now: nat, distance: int, advert: Option<Advert>, sendOk: bool, resetOk: bool)

  /** The body of `sendDataToServer(berat, currentTinggi)` for `DeviceId`. */
  datatype Post = Post(bb: real, tb: int)

  datatype StepResult = StepResult(state: State, post: Option<Post>)

  /** The globals once `setup()` has connected (or failed to connect) the
      WiFi and, when connected, posted the start-up reset. */
  function Initial(wifiOk: bool, resetOk: bool): State {
    State(0.0, -1.0, false, 0, 150, -1, false, 0, wifiOk, false, wifiOk && resetOk)
  }

  /** The reading stayed unchanged for the lock duration. */
  predicate Stable(now: int, lastUpdate: int) {
    now - lastUpdate >= LockDuration
  }

  /** The height branch: take a reading, restart the clock when it changed,
      and lock once it is stable and positive. */
  function HeightStep(s: State, now: nat, distance: int): (t: State)
    ensures t.currentTinggi == ClampHeight(distance) && t.previousTinggi == ClampHeight(distance)
    ensures t.tinggiLastUpdate == if ClampHeight(distance) != s.previousTinggi then now else s.tinggiLastUpdate
    ensures t.tinggiLocked <==> s.tinggiLocked || (Stable(now, t.tinggiLastUpdate) && t.previousTinggi > 0)
    ensures t == s.(currentTinggi := t.currentTinggi, previousTinggi := t.previousTinggi,
                    tinggiLastUpdate := t.tinggiLastUpdate, tinggiLocked := t.tinggiLocked)
  {
    var cur := ClampHeight(distance);
    var s1 := if cur != s.previousTinggi then s.(currentTinggi := cur, previousTinggi := cur, tinggiLastUpdate := now)
              else s.(currentTinggi := cur);
    if Stable(now, s1.tinggiLastUpdate) && s1.previousTinggi > 0 then s1.(tinggiLocked := true) else s1
  }

  /** The weight branch: a reading from the scale, if any, restarts the clock
      when it changed; lock once the weight is stable and positive. */
  function WeightStep(s: State, now: nat, advert: Option<Advert>): (t: State)
    ensures DecodeWeight(advert).None? ==>
      t.berat == s.berat && t.previousBerat == s.previousBerat && t.beratLastUpdate == s.beratLastUpdate
    ensures DecodeWeight(advert).Some? ==>
      var w := Weight(DecodeWeight(advert).value);
      t.berat == w && t.previousBerat == w
      && t.beratLastUpdate == if w != s.previousBerat then now else s.beratLastUpdate
    ensures t.beratLocked <==> s.beratLocked || (Stable(now, t.beratLastUpdate) && t.previousBerat > 0.0)
    ensures t == s.(berat := t.berat, previousBerat := t.previousBerat,
                    beratLastUpdate := t.beratLastUpdate, beratLocked := t.beratLocked)
  {
    var s1 := match DecodeWeight(advert)
      case None => s
      case Some(raw) =>
        var w := Weight(raw);
        if w != s.previousBerat then s.(berat := w, previousBerat := w, beratLastUpdate := now)
        else s.(berat := w);
    if Stable(now, s1.beratLastUpdate) && s1.previousBerat > 0.0 then s1.(beratLocked := true) else s1
  }

  /** The final branch: post the measurement once if the reset succeeded,
      then clear the cycle and post the reset for the next one. */
  function FinalStep(s: State, sendOk: bool, resetOk: bool): (r: StepResult)
    ensures r.post.Some? <==> !s.dataSent && s.dataReset && s.wifiConnected
    ensures r.post.Some? ==> r.post.value == Post(s.berat, s.currentTinggi)
    ensures !r.state.tinggiLocked && !r.state.beratLocked && !r.state.dataSent
    ensures r.state.previousTinggi == -1 && r.state.previousBerat == -1.0
    ensures r.state.dataReset <==> s.wifiConnected && resetOk
    ensures r.state == s.(tinggiLocked := false, beratLocked := false, dataSent := false,
                          dataReset := r.state.dataReset, previousTinggi := -1, previousBerat := -1.0)
  {
    var post := if !s.dataSent && s.dataReset && s.wifiConnected then Some(Post(s.berat, s.currentTinggi)) else None;
    var s1 := s.(tinggiLocked := false, beratLocked := false, dataSent := false, dataReset := false,
                 previousTinggi := -1, previousBerat := -1.0);
    var s2 := if s.wifiConnected then s1.(dataReset := resetOk) else s1;
    StepResult(s2, post)
  }

  /** One `loop()` call: the height is read until it locks, then the weight,
      then the cycle ends with at most one post of the locked values. */
  function Next(s: State, i: Inputs): (r: StepResult)
    ensures r.post.Some? <==> s.tinggiLocked && s.beratLocked && !s.dataSent && s.dataReset && s.wifiConnected
    ensures r.post.Some? ==> r.post.value == Post(s.berat, s.currentTinggi)
    ensures s.tinggiLocked && !s.beratLocked ==> r.state.currentTinggi == s.currentTinggi && r.state.tinggiLocked
    ensures !(s.tinggiLocked && s.beratLocked) ==>
      r.state.dataReset == s.dataReset && r.state.wifiConnected == s.wifiConnected && r.state.dataSent == s.dataSent
    ensures r.state.wifiConnected == s.wifiConnected
  {
    if !s.tinggiLocked then StepResult(HeightStep(s, i.now, i.distance), None)
    else if !s.beratLocked then StepResult(WeightStep(s, i.now, i.advert), None)
    else FinalStep(s, i.sendOk, i.resetOk)
  }

  /** What holds between `loop()` calls. `dataSent` is set and cleared within
      the same call, so it is always false in between. */
  predicate Valid(s: State) {
    0 <= s.currentTinggi <= 150
    && (s.previousTinggi == -1 || 0 <= s.previousTinggi <= 150)
    && (s.tinggiLocked ==> s.previousTinggi > 0)
    && (s.beratLocked ==> s.tinggiLocked && s.previousBerat > 0.0)
    && (s.dataReset ==> s.wifiConnected)
    && !s.dataSent
  }

  lemma InitialValid(wifiOk: bool, resetOk: bool)
    ensures Valid(Initial(wifiOk, resetOk))
    ensures !Initial(wifiOk, resetOk).tinggiLocked && !Initial(wifiOk, resetOk).beratLocked
  {
  }

  /** Every `loop()` call keeps the invariant. */
  lemma NextKeepsValid(s: State, i: Inputs)
    requires Valid(s)
    ensures Valid(Next(s, i).state)
  {
  }

  /** A quantity locks only after its reading has been unchanged for the
      lock duration, and only when it is positive; and then it does lock. */
  lemma HeightLockRule(s: State, i: Inputs)
    requires !s.tinggiLocked
    ensures var t := Next(s, i).state;
      t.tinggiLocked <==>
        ClampHeight(i.distance) == s.previousTinggi && Stable(i.now, s.tinggiLastUpdate) && s.previousTinggi > 0
  {
  }

  lemma WeightLockRule(s: State, i: Inputs)
    requires s.tinggiLocked && !s.beratLocked
    ensures var t := Next(s, i).state;
      var same := DecodeWeight(i.advert).None? || Weight(DecodeWeight(i.advert).value) == s.previousBerat;
      t.beratLocked <==> same && Stable(i.now, s.beratLastUpdate) && s.previousBerat > 0.0
  {
  }

  /** The previous value and its time change only on a reading that differs
      from it, and then to that reading and the current time. */
  lemma PreviousChangesOnlyOnNewReading(s: State, i: Inputs)
    requires !(s.tinggiLocked && s.beratLocked)
    ensures var t := Next(s, i).state;
      (t.previousTinggi != s.previousTinggi ==>
        !s.tinggiLocked && t.previousTinggi == ClampHeight(i.distance) && t.tinggiLastUpdate == i.now)
      && (t.previousTinggi == s.previousTinggi ==> t.tinggiLastUpdate == s.tinggiLastUpdate)
      && (t.previousBerat != s.previousBerat ==>
        s.tinggiLocked && DecodeWeight(i.advert).Some?
        && t.previousBerat == Weight(DecodeWeight(i.advert).value) && t.beratLastUpdate == i.now)
      && (t.previousBerat == s.previousBerat ==> t.beratLastUpdate == s.beratLastUpdate)
  {
  }

  /** Nothing about the weight is read or changed before the height locks. */
  lemma WeightWaitsForHeight(s: State, i: Inputs)
    requires !s.tinggiLocked
    ensures var t := Next(s, i).state;
      t.berat == s.berat && t.previousBerat == s.previousBerat
      && t.beratLastUpdate == s.beratLastUpdate && t.beratLocked == s.beratLocked
  {
  }

  /** Data is posted only at the end of a cycle, with both values locked, and
      only when the reset for this cycle succeeded; it is the locked weight
      and height. */
  lemma PostGate(s: State, i: Inputs)
    requires Valid(s)
    ensures var r := Next(s, i);
      r.post.Some? <==> s.tinggiLocked && s.beratLocked && s.dataReset
    ensures var r := Next(s, i);
      r.post.Some? ==> r.post.value == Post(s.berat, s.currentTinggi)
  {
  }

  /** The end of a cycle clears both locks, `dataSent` and `dataReset`, sets
      both previous values to -1, and then posts the next reset, whose outcome
      becomes `dataReset`. */
  lemma CycleReset(s: State, i: Inputs)
    requires s.tinggiLocked && s.beratLocked
    ensures var t := Next(s, i).state;
      !t.tinggiLocked && !t.beratLocked && !t.dataSent
      && t.previousTinggi == -1 && t.previousBerat == -1.0
      && (t.dataReset <==> s.wifiConnected && i.resetOk)
  {
  }

  /** The reset flag is only changed at the end of a cycle. */
  lemma ResetFlagKeptWhileMeasuring(s: State, i: Inputs)
    requires !(s.tinggiLocked && s.beratLocked)
    ensures Next(s, i).state.dataReset == s.dataReset && Next(s, i).post.None?
  {
  }

  /** At most one post per cycle: after a post, the next two calls post
      nothing, since the height and then the weight have to lock again. */
  lemma PostOncePerCycle(s: State, a: Inputs, b: Inputs, c: Inputs)
    requires Next(s, a).post.Some?
    ensures var s1 := Next(s, a).state;
      var s2 := Next(s1, b).state;
      Next(s1, b).post.None? && Next(s2, c).post.None?
  {
    var s1 := Next(s, a).state;
    assert !s1.tinggiLocked && !s1.beratLocked;
    var s2 := Next(s1, b).state;
    assert !s2.beratLocked;
  }

  /** The device posts to the same paths the simulator builds for it. */
  lemma PathsMatchSimulator()
    ensures ResetPath == IotSimulator.ResetPath(IotSimulator.DefaultDid)
    ensures SendPath == IotSimulator.SendPath
  {
  }

  /** The firmware's globals and its `loop()`. */
  class Device {
    var berat: real
    var previousBerat: real
    var beratLocked: bool
    var beratLastUpdate: int
    var currentTinggi: int
    var previousTinggi: int
    var tinggiLocked: bool
    var tinggiLastUpdate: int
    var wifiConnected: bool
    var dataSent: bool
    var dataReset: bool

    function Snapshot(): State
      reads this
    {
      State(berat, previousBerat, beratLocked, beratLastUpdate, currentTinggi, previousTinggi,
            tinggiLocked, tinggiLastUpdate, wifiConnected, dataSent, dataReset)
    }

    /** The globals' initial values, then `setup()`: `wifiOk` is whether
        the WiFi connected and `resetOk` whether the start-up reset answered
        200. */
    constructor Setup(wifiOk: bool, resetOk: bool)
      ensures Snapshot() == Initial(wifiOk, resetOk)
      ensures Valid(Snapshot())
    {
      berat, previousBerat, beratLocked, beratLastUpdate := 0.0, -1.0, false, 0;
      currentTinggi, previousTinggi, tinggiLocked, tinggiLastUpdate := 150, -1, false, 0;
      var resetDone := false;
      if wifiOk {
        resetDone := resetOk;
      }
      wifiConnected, dataSent, dataReset := wifiOk, false, resetDone;
    }

    /** `resetDeviceData()`: without WiFi nothing is posted and the flag is
        kept; otherwise the flag records whether the post answered 200. */
    method ResetDeviceData(ok: bool) returns (success: bool)
      modifies this
      ensures success <==> old(wifiConnected) && ok
      ensures Snapshot() == old(Snapshot()).(dataReset := if old(wifiConnected) then ok else old(dataReset))
    {
      if !wifiConnected {
        return false;
      }
      dataReset := ok;
      success := ok;
    }

    /** `sendDataToServer(berat, currentTinggi)`: nothing is posted without
        WiFi; otherwise the result is whether the post answered 200. */
    method SendDataToServer(ok: bool) returns (success: bool, post: Option<Post>)
      ensures success <==> wifiConnected && ok
      ensures post.Some? <==> wifiConnected
      ensures post.Some? ==> post.value == Post(berat, currentTinggi)
    {
      if !wifiConnected {
        return false, None;
      }
      post := Some(Post(berat, currentTinggi));
      success := ok;
    }

    /** The height branch of `loop()`. */
    method MeasureHeight(now: nat, distance: int)
      modifies this
      ensures Snapshot() == HeightStep(old(Snapshot()), now, distance)
    {
      currentTinggi := ClampHeight(distance);
      if currentTinggi != previousTinggi {
        previousTinggi := currentTinggi;
        tinggiLastUpdate := now;
      }
      if now - tinggiLastUpdate >= LockDuration && previousTinggi > 0 {
        tinggiLocked := true;
      }
    }

    /** The weight branch of `loop()`. */
    method MeasureWeight(now: nat, advert: Option<Advert>)
      modifies this
      ensures Snapshot() == WeightStep(old(Snapshot()), now, advert)
    {
      var raw := DecodeWeight(advert);
      if raw.Some? {
        berat := Weight(raw.value);
        if berat != previousBerat {
          previousBerat := berat;
          beratLastUpdate := now;
        }
      }
      if now - beratLastUpdate >= LockDuration && previousBerat > 0.0 {
        beratLocked := true;
      }
    }

    /** The final branch of `loop()`, reached with both values locked. */
    method Finish(sendOk: bool, resetOk: bool) returns (post: Option<Post>)
      modifies this
      ensures Snapshot() == FinalStep(old(Snapshot()), sendOk, resetOk).state
      ensures post == FinalStep(old(Snapshot()), sendOk, resetOk).post
    {
      post := None;
      if !dataSent && dataReset {
        dataSent, post := SendDataToServer(sendOk);
      }
      tinggiLocked, beratLocked, dataSent, dataReset := false, false, false, false;
      previousTinggi, previousBerat := -1, -1.0;
      var ok := ResetDeviceData(resetOk);
    }

    /** One `loop()` call. */
    method Step(i: Inputs) returns (post: Option<Post>)
      modifies this
      ensures Snapshot() == Next(old(Snapshot()), i).state
      ensures post == Next(old(Snapshot()), i).post
    {
      post := None;
      if !tinggiLocked {
        MeasureHeight(i.now, i.distance);
      } else if !beratLocked {
        MeasureWeight(i.now, i.advert);
      } else {
        post := Finish(i.sendOk, i.resetOk);
      }
    }
  }
}
