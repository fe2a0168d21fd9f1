/** `ConnectionManager` of `lib/main/ws_manager.py`: the WebSocket clients
    listening to each device, kept as a two-way index from device id to the
    list of its sockets and from socket to device id. Socket I/O is outside
    the model: a socket's `client_state` and whether a send raises are
    inputs. */
module WsManager {

  /** A WebSocket, compared by identity as dict keys are. */
  type Socket = nat

  /** `websocket.client_state`. */
  datatype SocketState = Connecting | Connected | Disconnected

  predicate NoDuplicates(s: seq<Socket>) {
    forall i, j :: 0 <= i < j < |s| ==> s[i] != s[j]
  }

  function Elems(s: seq<Socket>): set<Socket> {
    set x | x in s
  }

  /** The sockets of `s` that are in `alive`, in their order in `s`. */
  function Keep(s: seq<Socket>, alive: set<Socket>): (r: seq<Socket>)
    ensures |r| <= |s|
    ensures forall x :: x in r <==> x in s && x in alive
    ensures NoDuplicates(s) ==> NoDuplicates(r)
  {
    if s == [] then []
    else
      var t := Keep(s[1..], alive);
      assert forall x :: x in s[1..] ==> x in s;
      assert forall i :: 0 <= i < |t| ==> t[i] in s[1..];
      (if s[0] in alive then [s[0]] else []) + t
  }

  lemma {:induction false} KeepAppend(a: seq<Socket>, b: seq<Socket>, alive: set<Socket>)
    ensures Keep(a + b, alive) == Keep(a, alive) + Keep(b, alive)
    decreases |a|
  {
    if a == [] {
      assert a + b == b;
    } else {
      var h := if a[0] in alive then [a[0]] else [];
      var t := a[1..];
      assert (a + b)[0] == a[0];
      assert (a + b)[1..] == t + b;
      calc {
        Keep(a + b, alive);
        h + Keep(t + b, alive);
        { KeepAppend(t, b, alive); }
        h + (Keep(t, alive) + Keep(b, alive));
        (h + Keep(t, alive)) + Keep(b, alive);
        Keep(a, alive) + Keep(b, alive);
      }
    }
  }

  /** Keeping depends only on which members of `s` are alive. */
  lemma {:induction false} KeepSameOn(s: seq<Socket>, a: set<Socket>, b: set<Socket>)
    requires forall x :: x in s ==> (x in a <==> x in b)
    ensures Keep(s, a) == Keep(s, b)
    decreases |s|
  {
    if s != [] {
      assert forall x :: x in s[1..] ==> x in s;
      KeepSameOn(s[1..], a, b);
    }
  }

  /** Keeping every member keeps the whole list. */
  lemma {:induction false} KeepEverything(s: seq<Socket>, alive: set<Socket>)
    requires forall x :: x in s ==> x in alive
    ensures Keep(s, alive) == s
    decreases |s|
  {
    if s != [] {
      assert forall x :: x in s[1..] ==> x in s;
      KeepEverything(s[1..], alive);
      assert s[0] in alive;
      assert Keep(s, alive) == [s[0]] + Keep(s[1..], alive);
      assert s == [s[0]] + s[1..];
    }
  }

  /** `list.remove(x)`: drops the first occurrence (Python raises when there
      is none; the callers below check for that first). */
  function Without(s: seq<Socket>, x: Socket): (r: seq<Socket>)
    ensures x in s ==> |r| == |s| - 1
    ensures x !in s ==> r == s
    ensures forall y :: y in r ==> y in s
    ensures NoDuplicates(s) ==> NoDuplicates(r) && forall y :: y in r <==> y in s && y != x
  {
    if s == [] then []
    else if s[0] == x then s[1..]
    else
      var t := Without(s[1..], x);
      assert forall y :: y in s[1..] ==> y in s;
      assert forall i :: 0 <= i < |t| ==> t[i] in s[1..];
      [s[0]] + t
  }

  /** Removing one more socket from a kept list is keeping one fewer. */
  lemma {:induction false} WithoutKeep(s: seq<Socket>, alive: set<Socket>, x: Socket)
    requires NoDuplicates(s)
    ensures Without(Keep(s, alive), x) == Keep(s, alive - {x})
    decreases |s|
  {
    if s != [] {
      var h, t := s[0], s[1..];
      assert NoDuplicates(t) by {
        forall i, j | 0 <= i < j < |t| ensures t[i] != t[j] {
          assert t[i] == s[i + 1] && t[j] == s[j + 1];
        }
      }
      var k := Keep(t, alive);
      assert Keep(s, alive) == (if h in alive then [h] else []) + k;
      assert Keep(s, alive - {x}) == (if h in alive - {x} then [h] else []) + Keep(t, alive - {x});
      if h in alive && h == x {
        assert x !in t by {
          forall i | 0 <= i < |t| ensures t[i] != x {
            assert t[i] == s[i + 1];
          }
        }
        assert ([h] + k)[1..] == k;
        KeepSameOn(t, alive, alive - {x});
        assert [] + Keep(t, alive - {x}) == Keep(t, alive - {x});
      } else if h in alive {
        assert ([h] + k)[0] == h && ([h] + k)[1..] == k;
        WithoutKeep(t, alive, x);
      } else {
        assert [] + k == k;
        WithoutKeep(t, alive, x);
        assert [] + Keep(t, alive - {x}) == Keep(t, alive - {x});
      }
    }
  }

  /** A one-socket list is kept whole or dropped. */
  lemma KeepSingleton(x: Socket, alive: set<Socket>)
    ensures Keep([x], alive) == if x in alive then [x] else []
  {
    assert [x][1..] == [];
  }

  /** Keeping a list one element longer appends that element when it is alive. */
  lemma KeepStep(s: seq<Socket>, i: nat, alive: set<Socket>)
    requires i < |s|
    ensures Keep(s[..i + 1], alive) == Keep(s[..i], alive) + (if s[i] in alive then [s[i]] else [])
  {
    assert s[..i + 1] == s[..i] + [s[i]];
    KeepAppend(s[..i], [s[i]], alive);
    KeepSingleton(s[i], alive);
  }

  /** One step of the send loop: the next socket joins exactly one of the
      two lists. */
  lemma SendStep(s: seq<Socket>, i: nat, alive: set<Socket>)
    requires i < |s|
    ensures s[i] in alive ==>
      Keep(s[..i + 1], alive) == Keep(s[..i], alive) + [s[i]]
      && Keep(s[..i + 1], Elems(s) - alive) == Keep(s[..i], Elems(s) - alive)
    ensures s[i] !in alive ==>
      Keep(s[..i + 1], alive) == Keep(s[..i], alive)
      && Keep(s[..i + 1], Elems(s) - alive) == Keep(s[..i], Elems(s) - alive) + [s[i]]
  {
    var notAlive := Elems(s) - alive;
    KeepStep(s, i, alive);
    KeepStep(s, i, notAlive);
    assert s[i] in Elems(s);
    if s[i] in alive {
      assert s[i] !in notAlive;
      assert Keep(s[..i], notAlive) + [] == Keep(s[..i], notAlive);
    } else {
      assert s[i] in notAlive;
      assert Keep(s[..i], alive) + [] == Keep(s[..i], alive);
    }
  }

  /** The send loop of `broadcast_to_device`, which changes no state: each
      socket is sent to when it is CONNECTED, and a socket that is not, or whose
      send raises, is set aside for disconnection. Both lists keep the order
      of `sockets`. */
  method SendEach(sockets: seq<Socket>, connected: set<Socket>, failing: set<Socket>)
    returns (delivered: seq<Socket>, disconnected: seq<Socket>)
    ensures delivered == Keep(sockets, connected - failing)
    ensures disconnected == Keep(sockets, Elems(sockets) - (connected - failing))
  {
    var alive := connected - failing;
    var notAlive := Elems(sockets) - alive;
    delivered, disconnected := [], [];
    for i := 0 to |sockets|
      invariant delivered == Keep(sockets[..i], alive)
      invariant disconnected == Keep(sockets[..i], notAlive)
    {
      var ws := sockets[i];
      SendStep(sockets, i, alive);
      if ws in connected && ws !in failing {
        delivered := delivered + [ws];
      } else {
        disconnected := disconnected + [ws];
      }
    }
    assert sockets[..|sockets|] == sockets;
  }

  /** The device's list, empty when the key is absent (`dict.get(d, [])`). */
  function ListOf(active: map<string, seq<Socket>>, d: string): seq<Socket> {
    if d in active then active[d] else []
  }

  /** Stores `l` as the device's list, deleting the key when `l` is empty. */
  function Replace(active: map<string, seq<Socket>>, d: string, l: seq<Socket>): (r: map<string, seq<Socket>>)
    ensures ListOf(r, d) == l
    ensures d in r <==> l != []
    ensures forall k :: k != d ==> (k in r <==> k in active) && ListOf(r, k) == ListOf(active, k)
  {
    if l == [] then active - {d} else active[d := l]
  }

  // ---------------------------------------------------------------------------
  // The index invariant, on values

  /** The two dicts describe the same relation: no device has an empty list
      (nor the empty id, whose sockets `disconnect` would never remove), a
      socket is listed at most once, and each listed socket maps back to its
      device and each mapped socket is listed under its device. */
  predicate Indexed(active: map<string, seq<Socket>>, devs: map<Socket, string>) {
    ListsWellFormed(active) && ListedAreMapped(active, devs) && MappedAreListed(active, devs)
  }

  predicate ListsWellFormed(active: map<string, seq<Socket>>) {
    "" !in active && forall d :: d in active ==> active[d] != [] && NoDuplicates(active[d])
  }

  predicate ListedAreMapped(active: map<string, seq<Socket>>, devs: map<Socket, string>) {
    forall d, ws :: d in active && ws in active[d] ==> ws in devs && devs[ws] == d
  }

  predicate MappedAreListed(active: map<string, seq<Socket>>, devs: map<Socket, string>) {
    forall ws :: ws in devs ==> devs[ws] in active && ws in active[devs[ws]]
  }

  /** `connect`: append to the device's list, creating it if needed. */
  function AttachActive(active: map<string, seq<Socket>>, d: string, ws: Socket): (r: map<string, seq<Socket>>)
    ensures r.Keys == active.Keys + {d}
    ensures r[d] == ListOf(active, d) + [ws]
    ensures forall k :: k in active && k != d ==> r[k] == active[k]
  {
    active[d := ListOf(active, d) + [ws]]
  }

  /** `disconnect` finds the socket's device but the socket is missing from
      its list, so `list.remove` raises `ValueError` before anything changes. */
  predicate RemoveRaises(active: map<string, seq<Socket>>, devs: map<Socket, string>, ws: Socket) {
    ws in devs && devs[ws] != "" && devs[ws] in active && ws !in active[devs[ws]]
  }

  /** `disconnect` on the device lists: remove the socket from its device's
      list, dropping the list once empty; a falsy or unknown device id leaves
      the lists alone. */
  function DetachActive(active: map<string, seq<Socket>>, devs: map<Socket, string>, ws: Socket): (r: map<string, seq<Socket>>)
    ensures forall k :: k in r ==> k in active
    ensures forall k :: (ws !in devs || k != devs[ws]) ==> ListOf(r, k) == ListOf(active, k) && (k in r <==> k in active)
    ensures ws in devs && devs[ws] != "" ==> ListOf(r, devs[ws]) == Without(ListOf(active, devs[ws]), ws)
    ensures ws !in devs || devs[ws] == "" ==> r == active
  {
    if ws in devs && devs[ws] != "" && devs[ws] in active then
      Replace(active, devs[ws], Without(active[devs[ws]], ws))
    else active
  }

  /** Connecting a new socket to a non-empty device id keeps the index. */
  lemma AttachKeepsIndexed(active: map<string, seq<Socket>>, devs: map<Socket, string>, d: string, ws: Socket)
    requires Indexed(active, devs) && ws !in devs && d != ""
    ensures Indexed(AttachActive(active, d, ws), devs[ws := d])
  {
    var a := AttachActive(active, d, ws);
    var l := ListOf(active, d);
    assert ws !in l;
    assert NoDuplicates(l + [ws]) by {
      forall i, j | 0 <= i < j < |l| + 1 ensures (l + [ws])[i] != (l + [ws])[j] {
        if j == |l| {
          assert (l + [ws])[i] == l[i];
        }
      }
    }
  }

  /** Under the index, `disconnect` never raises and keeps the index. */
  lemma DetachKeepsIndexed(active: map<string, seq<Socket>>, devs: map<Socket, string>, ws: Socket)
    requires Indexed(active, devs)
    ensures !RemoveRaises(active, devs, ws)
    ensures Indexed(DetachActive(active, devs, ws), devs - {ws})
  {
    if ws in devs {
      var d := devs[ws];
      var l := Without(active[d], ws);
      var a := Replace(active, d, l);
      assert a == DetachActive(active, devs, ws);
      forall k, x | k in a && x in a[k]
        ensures x in devs - {ws} && (devs - {ws})[x] == k
      {
        if k == d {
          assert x in active[d] && x != ws;
        } else {
          assert a[k] == active[k];
        }
      }
      forall x | x in devs - {ws}
        ensures (devs - {ws})[x] in a && x in a[(devs - {ws})[x]]
      {
        var k := devs[x];
        if k == d {
          assert x in l;
        } else {
          assert ListOf(a, k) == active[k];
        }
      }
    }
  }

  /** Disconnecting a socket the manager does not know changes nothing. */
  lemma DetachUnknown(active: map<string, seq<Socket>>, devs: map<Socket, string>, ws: Socket)
    requires ws !in devs
    ensures DetachActive(active, devs, ws) == active && devs - {ws} == devs
    ensures !RemoveRaises(active, devs, ws)
  {
  }

  /** `broadcast_to_device` on the device lists: the device keeps the
      sockets the message reached; the list goes when none remain. */
  function BroadcastActive(active: map<string, seq<Socket>>, d: string, alive: set<Socket>): map<string, seq<Socket>> {
    if d in active then Replace(active, d, Keep(active[d], alive)) else active
  }

  /** The sockets of the device the broadcast drops. */
  function Dropped(active: map<string, seq<Socket>>, d: string, alive: set<Socket>): set<Socket> {
    set x | x in ListOf(active, d) && x !in alive
  }

  lemma ElemsSnoc(s: seq<Socket>, x: Socket)
    ensures Elems(s + [x]) == Elems(s) + {x}
  {
  }

  lemma MinusTwice(m: map<Socket, string>, all: set<Socket>, gone: set<Socket>, x: Socket)
    ensures (m - gone) - {x} == m - (gone + {x})
    ensures (all - gone) - {x} == all - (gone + {x})
  {
  }

  lemma MinusKeeps(m: map<Socket, string>, gone: set<Socket>, x: Socket)
    requires x in m && x !in gone
    ensures x in m - gone && (m - gone)[x] == m[x]
  {
  }

  lemma ReplaceTwice(m: map<string, seq<Socket>>, d: string, l1: seq<Socket>, l2: seq<Socket>)
    ensures Replace(Replace(m, d, l1), d, l2) == Replace(m, d, l2)
  {
    var r1, r2 := Replace(Replace(m, d, l1), d, l2), Replace(m, d, l2);
    assert forall k :: k in r1 <==> k in r2;
    forall k | k in r1
      ensures r1[k] == r2[k]
    {
      assert ListOf(r1, k) == ListOf(r2, k);
    }
  }

  /** One disconnect of the cleanup loop: the device's list, the sockets
      of `sockets` still in `live`, loses `ws`. */
  lemma DetachFromKept(a0: map<string, seq<Socket>>, devs: map<Socket, string>, d: string,
                       sockets: seq<Socket>, live: set<Socket>, ws: Socket)
    requires Indexed(Replace(a0, d, Keep(sockets, live)), devs)
    requires NoDuplicates(sockets) && ws in sockets && ws in live
    ensures DetachActive(Replace(a0, d, Keep(sockets, live)), devs, ws) == Replace(a0, d, Keep(sockets, live - {ws}))
  {
    var active := Replace(a0, d, Keep(sockets, live));
    assert ws in ListOf(active, d);
    assert d in active && ws in active[d];
    assert devs[ws] == d;
    WithoutKeep(sockets, live, ws);
    ReplaceTwice(a0, d, Keep(sockets, live), Keep(sockets, live - {ws}));
  }

  /** A dropped socket belonged to the broadcast device. */
  lemma DroppedBelongToDevice(active: map<string, seq<Socket>>, devs: map<Socket, string>, d: string, alive: set<Socket>, x: Socket)
    requires ListedAreMapped(active, devs)
    ensures x in Dropped(active, d, alive) ==> d in active && x in devs && devs[x] == d
  {
  }

  lemma BroadcastListed(active: map<string, seq<Socket>>, devs: map<Socket, string>, d: string, alive: set<Socket>, k: string, x: Socket)
    requires ListedAreMapped(active, devs)
    requires k in BroadcastActive(active, d, alive) && x in BroadcastActive(active, d, alive)[k]
    ensures x in devs && x !in Dropped(active, d, alive) && devs[x] == k
  {
    var a := BroadcastActive(active, d, alive);
    DroppedBelongToDevice(active, devs, d, alive, x);
    if k == d {
      assert a[k] == Keep(active[d], alive);
      assert x in active[d] && x in alive;
    } else {
      assert ListOf(a, k) == ListOf(active, k);
      assert x in active[k];
    }
  }

  lemma BroadcastMapped(active: map<string, seq<Socket>>, devs: map<Socket, string>, d: string, alive: set<Socket>, x: Socket)
    requires Indexed(active, devs)
    requires x in devs && x !in Dropped(active, d, alive)
    ensures devs[x] in BroadcastActive(active, d, alive) && x in BroadcastActive(active, d, alive)[devs[x]]
  {
    var a := BroadcastActive(active, d, alive);
    var k := devs[x];
    assert k in active && x in active[k];
    if k == d {
      assert x in alive;
      assert x in Keep(active[d], alive);
      assert ListOf(a, d) == Keep(active[d], alive);
    } else {
      assert ListOf(a, k) == ListOf(active, k);
    }
  }

  /** The sockets a broadcast drops, as the second loop meets them: no
      repeats, all of the device, and keeping the others is keeping the
      reached ones. */
  lemma BroadcastSplit(active: map<string, seq<Socket>>, d: string, alive: set<Socket>)
    requires d in active && NoDuplicates(active[d])
    ensures var s := active[d];
      var dead := Keep(s, Elems(s) - alive);
      NoDuplicates(dead) && (forall x :: x in dead ==> x in s)
      && Elems(dead) == Dropped(active, d, alive)
      && Keep(s, Elems(s) - Elems(dead)) == Keep(s, alive)
  {
    var s := active[d];
    var dead := Keep(s, Elems(s) - alive);
    assert Elems(dead) == Dropped(active, d, alive);
    KeepSameOn(s, Elems(s) - Elems(dead), alive);
  }

  lemma BroadcastWellFormed(active: map<string, seq<Socket>>, d: string, alive: set<Socket>)
    requires ListsWellFormed(active)
    ensures ListsWellFormed(BroadcastActive(active, d, alive))
  {
    var a := BroadcastActive(active, d, alive);
    forall k | k in a
      ensures a[k] != [] && NoDuplicates(a[k])
    {
      assert ListOf(a, k) == a[k];
    }
  }

  lemma BroadcastListedMapped(active: map<string, seq<Socket>>, devs: map<Socket, string>, d: string, alive: set<Socket>)
    requires ListedAreMapped(active, devs)
    ensures ListedAreMapped(BroadcastActive(active, d, alive), devs - Dropped(active, d, alive))
  {
    var a := BroadcastActive(active, d, alive);
    var devs' := devs - Dropped(active, d, alive);
    forall k, x | k in a && x in a[k]
      ensures x in devs' && devs'[x] == k
    {
      BroadcastListed(active, devs, d, alive, k, x);
      MinusKeeps(devs, Dropped(active, d, alive), x);
    }
  }

  lemma BroadcastMappedListed(active: map<string, seq<Socket>>, devs: map<Socket, string>, d: string, alive: set<Socket>)
    requires Indexed(active, devs)
    ensures MappedAreListed(BroadcastActive(active, d, alive), devs - Dropped(active, d, alive))
  {
    var a := BroadcastActive(active, d, alive);
    var devs' := devs - Dropped(active, d, alive);
    forall x | x in devs'
      ensures devs'[x] in a && x in a[devs'[x]]
    {
      BroadcastMapped(active, devs, d, alive, x);
    }
  }

  /** The cleanup after a broadcast keeps the index. */
  lemma BroadcastKeepsIndexed(active: map<string, seq<Socket>>, devs: map<Socket, string>, d: string, alive: set<Socket>)
    requires Indexed(active, devs)
    ensures Indexed(BroadcastActive(active, d, alive), devs - Dropped(active, d, alive))
  {
    BroadcastWellFormed(active, d, alive);
    BroadcastListedMapped(active, devs, d, alive);
    BroadcastMappedListed(active, devs, d, alive);
  }

  // ---------------------------------------------------------------------------
  // /ws/status: total_connections

  ghost function PickKey(m: map<string, seq<Socket>>): string
    requires m != map[]
  {
    var k :| k in m; k
  }

  /** `sum(len(connections) for connections in active.values())`. */
  ghost function TotalConnections(m: map<string, seq<Socket>>): nat
    decreases |m|
  {
    if m == map[] then 0
    else
      var k := PickKey(m);
      |m[k]| + TotalConnections(m - {k})
  }

  /** The sum does not depend on which key is taken first. */
  lemma {:induction false} TotalRemove(m: map<string, seq<Socket>>, k: string)
    requires k in m
    ensures TotalConnections(m) == |m[k]| + TotalConnections(m - {k})
    decreases |m|
  {
    var p := PickKey(m);
    if p != k {
      TotalRemove(m - {p}, k);
      TotalRemove(m - {k}, p);
      assert m - {p} - {k} == m - {k} - {p};
    }
  }

  /** Every socket of every list. */
  ghost function AllSockets(m: map<string, seq<Socket>>): set<Socket> {
    set k, x | k in m && x in m[k] :: x
  }

  lemma {:induction false} NoDuplicatesCard(s: seq<Socket>)
    requires NoDuplicates(s)
    ensures |Elems(s)| == |s|
    decreases |s|
  {
    if s != [] {
      var t := s[1..];
      assert NoDuplicates(t) by {
        forall i, j | 0 <= i < j < |t| ensures t[i] != t[j] {
          assert t[i] == s[i + 1] && t[j] == s[j + 1];
        }
      }
      NoDuplicatesCard(t);
      assert s[0] !in t by {
        forall i | 0 <= i < |t| ensures t[i] != s[0] {
          assert t[i] == s[i + 1];
        }
      }
      assert Elems(s) == Elems(t) + {s[0]};
    }
  }

  /** With duplicate-free, pairwise disjoint lists the sum of the lengths is
      the number of distinct sockets. */
  lemma {:induction false} TotalIsDistinctSockets(m: map<string, seq<Socket>>)
    requires forall k :: k in m ==> NoDuplicates(m[k])
    requires forall k1, k2, x :: k1 in m && k2 in m && x in m[k1] && x in m[k2] ==> k1 == k2
    ensures TotalConnections(m) == |AllSockets(m)|
    decreases |m|
  {
    if m != map[] {
      var k := PickKey(m);
      var rest := m - {k};
      TotalIsDistinctSockets(rest);
      NoDuplicatesCard(m[k]);
      forall x | x in AllSockets(m)
        ensures x in Elems(m[k]) || x in AllSockets(rest)
      {
        var k' :| k' in m && x in m[k'];
        if k' != k {
          assert k' in rest && x in rest[k'];
        }
      }
      forall x | x in Elems(m[k]) || x in AllSockets(rest)
        ensures x in AllSockets(m) && (x in Elems(m[k]) ==> x !in AllSockets(rest))
      {
        if x in AllSockets(rest) {
          var k' :| k' in rest && x in rest[k'];
          assert k' in m && x in m[k'];
        }
      }
      assert AllSockets(m) == Elems(m[k]) + AllSockets(rest);
    }
  }

  /** Under the index no socket is listed under two devices. */
  lemma ListsDisjoint(active: map<string, seq<Socket>>, devs: map<Socket, string>)
    requires ListedAreMapped(active, devs)
    ensures forall k1, k2, x :: k1 in active && k2 in active && x in active[k1] && x in active[k2] ==> k1 == k2
  {
    forall k1, k2, x | k1 in active && k2 in active && x in active[k1] && x in active[k2]
      ensures k1 == k2
    {
      assert devs[x] == k1 && devs[x] == k2;
    }
  }

  /** Under the index the listed sockets are exactly the mapped ones. */
  lemma ListedIsMapped(active: map<string, seq<Socket>>, devs: map<Socket, string>)
    requires ListedAreMapped(active, devs) && MappedAreListed(active, devs)
    ensures AllSockets(active) == devs.Keys
  {
    forall x | x in devs
      ensures x in AllSockets(active)
    {
      assert devs[x] in active && x in active[devs[x]];
    }
  }

  /** Under the index, `total_connections` is the number of connected
      sockets, and the status is "active" exactly when a socket is known. */
  lemma TotalConnectionsCountsSockets(active: map<string, seq<Socket>>, devs: map<Socket, string>)
    requires Indexed(active, devs)
    ensures TotalConnections(active) == |devs|
    ensures TotalConnections(active) > 0 <==> devs != map[]
  {
    ListsDisjoint(active, devs);
    assert forall k :: k in active ==> NoDuplicates(active[k]);
    TotalIsDistinctSockets(active);
    ListedIsMapped(active, devs);
    assert |AllSockets(active)| == |devs.Keys| == |devs|;
  }

  // ---------------------------------------------------------------------------
  // The manager object

  class ConnectionManager {
    /** `active_connections`: device id to its sockets, in connection order. */
    var activeConnections: map<string, seq<Socket>>
    /** `connection_devices`: socket to its device id. */
    var connectionDevices: map<Socket, string>

    /** The two-way index. The server's only `connect` call passes a new
        socket under a non-empty path id, and every operation keeps the
        index, so it holds in every reachable state. */
    ghost predicate Valid()
      reads this
    {
      Indexed(activeConnections, connectionDevices)
    }

    constructor ()
      ensures activeConnections == map[] && connectionDevices == map[]
      ensures Valid()
    {
      activeConnections := map[];
      connectionDevices := map[];
    }

    /** `connect` (after `accept`). Connecting a socket that is already
        registered, or under the empty id, is possible but breaks the index. */
    method Connect(ws: Socket, deviceId: string)
      modifies this
      ensures activeConnections == AttachActive(old(activeConnections), deviceId, ws)
      ensures connectionDevices == old(connectionDevices)[ws := deviceId]
      ensures old(Valid()) && ws !in old(connectionDevices) && deviceId != "" ==> Valid()
    {
      ghost var a0, d0 := activeConnections, connectionDevices;
      if deviceId !in activeConnections {
        activeConnections := activeConnections[deviceId := []];
      }
      activeConnections := activeConnections[deviceId := activeConnections[deviceId] + [ws]];
      connectionDevices := connectionDevices[ws := deviceId];
      assert activeConnections == AttachActive(a0, deviceId, ws);
      if Indexed(a0, d0) && ws !in d0 && deviceId != "" {
        AttachKeepsIndexed(a0, d0, deviceId, ws);
      }
    }

    /** `disconnect`. `ok` is false when `list.remove` raises; nothing has
        changed then. Under the index it never raises. */
    method Disconnect(ws: Socket) returns (ok: bool)
      modifies this
      ensures ok <==> !RemoveRaises(old(activeConnections), old(connectionDevices), ws)
      ensures ok ==> activeConnections == DetachActive(old(activeConnections), old(connectionDevices), ws)
      ensures ok ==> connectionDevices == old(connectionDevices) - {ws}
      ensures !ok ==> activeConnections == old(activeConnections) && connectionDevices == old(connectionDevices)
      ensures old(Valid()) ==> ok && Valid()
    {
      if ws in connectionDevices {
        var d := connectionDevices[ws];
        if d != "" && d in activeConnections {
          if ws !in activeConnections[d] {
            return false;
          }
          var rest := Without(activeConnections[d], ws);
          if rest == [] {
            activeConnections := activeConnections - {d};
          } else {
            activeConnections := activeConnections[d := rest];
          }
        }
        connectionDevices := connectionDevices - {ws};
      }
      ok := true;
      if old(Valid()) {
        DetachKeepsIndexed(old(activeConnections), old(connectionDevices), ws);
      }
    }

    /** `send_personal_message`. Returns whether the message went out; a
        connected socket whose send raises is disconnected, other sockets
        are left alone. `ok` is false when that disconnect raises. */
    method SendPersonalMessage(ws: Socket, state: SocketState, sendFails: bool) returns (sent: bool, ok: bool)
      modifies this
      ensures sent <==> state == Connected && !sendFails
      ensures !(state == Connected && sendFails) ==>
        ok && activeConnections == old(activeConnections) && connectionDevices == old(connectionDevices)
      ensures state == Connected && sendFails ==>
        (ok <==> !RemoveRaises(old(activeConnections), old(connectionDevices), ws))
      ensures state == Connected && sendFails && ok ==>
        activeConnections == DetachActive(old(activeConnections), old(connectionDevices), ws)
        && connectionDevices == old(connectionDevices) - {ws}
      ensures old(Valid()) ==> ok && Valid()
    {
      sent, ok := false, true;
      if state == Connected {
        if sendFails {
          ok := Disconnect(ws);
        } else {
          sent := true;
        }
      }
    }

    /** The cleanup loop of `broadcast_to_device`: disconnect each socket of
        `dead`, all of them listed under `deviceId`. */
    method DisconnectEach(deviceId: string, sockets: seq<Socket>, dead: seq<Socket>)
      requires Valid() && deviceId in activeConnections && activeConnections[deviceId] == sockets
      requires NoDuplicates(dead) && forall x :: x in dead ==> x in sockets
      modifies this
      ensures Valid()
      ensures activeConnections == Replace(old(activeConnections), deviceId, Keep(sockets, Elems(sockets) - Elems(dead)))
      ensures connectionDevices == old(connectionDevices) - Elems(dead)
    {
      var a0, d0 := activeConnections, connectionDevices;
      var all := Elems(sockets);
      ghost var gone: set<Socket> := {};
      assert NoDuplicates(sockets);
      KeepEverything(sockets, all - gone);
      assert a0 == a0[deviceId := sockets];
      for j := 0 to |dead|
        invariant gone == Elems(dead[..j])
        invariant Valid()
        invariant activeConnections == Replace(a0, deviceId, Keep(sockets, all - gone))
        invariant connectionDevices == d0 - gone
      {
        var ws := dead[j];
        assert dead[..j + 1] == dead[..j] + [ws];
        ElemsSnoc(dead[..j], ws);
        assert ws !in gone by {
          forall i | 0 <= i < j ensures dead[i] != ws {
            assert dead[..j][i] == dead[i];
          }
        }
        DetachFromKept(a0, connectionDevices, deviceId, sockets, all - gone, ws);
        var ok := Disconnect(ws);
        MinusTwice(d0, all, gone, ws);
        gone := gone + {ws};
      }
      assert dead[..|dead|] == dead;
    }

    /** `broadcast_to_device`. `connected` are the sockets whose state is
        CONNECTED and `failing` those whose send raises; the message reaches
        the others of the first kind, returned in list order, and every
        socket of the device it did not reach is disconnected afterwards. */
    method BroadcastToDevice(deviceId: string, connected: set<Socket>, failing: set<Socket>) returns (delivered: seq<Socket>)
      requires Valid()
      modifies this
      ensures Valid()
      ensures delivered == Keep(ListOf(old(activeConnections), deviceId), connected - failing)
      ensures activeConnections == BroadcastActive(old(activeConnections), deviceId, connected - failing)
      ensures connectionDevices == old(connectionDevices) - Dropped(old(activeConnections), deviceId, connected - failing)
    {
      delivered := [];
      var alive := connected - failing;
      if deviceId !in activeConnections {
        return;
      }
      var a0, d0 := activeConnections, connectionDevices;
      var sockets := activeConnections[deviceId];
      var disconnected: seq<Socket>;
      delivered, disconnected := SendEach(sockets, connected, failing);
      BroadcastSplit(a0, deviceId, alive);
      DisconnectEach(deviceId, sockets, disconnected);
    }
  }
}
