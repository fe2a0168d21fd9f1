/** The HTTP layer of `main.py`: the `data_devices` registry with the
    handlers that change or read it, the `/ws/status` summary, and the
    `/predict` pipeline with its error mapping. Routing, JSON and the
    asyncio clock are outside the model; the clock reading is an input. */
module Api {
  import opened Wrappers
  import opened AgeParser
  import opened GrowthOracle
  import opened ZScore
  import opened Prediction
  import opened WsManager

  /** One entry of `data_devices`. */
  datatype DeviceRecord = DeviceRecord(tb: real, bb: real, status: string, lastUpdated: real, triggered: bool)

  /** `DataFromIOT`, the body of `/recive`. */
  datatype DataFromIOT = DataFromIOT(did: string, tb: real, bb: real)

  /** `ResponseMessage`. */
  datatype ResponseMessage = ResponseMessage(status: int, message: string)

  /** A raised `HTTPException`. */
  datatype HttpError = HttpError(statusCode: int, detail: string)

  /** The body of a successful `/devices/{device_id}`. */
  datatype DeviceView = DeviceView(deviceId: string, data: DeviceRecord, connections: nat)

  /** One entry of `devices` in `/ws/status`. */
  datatype DeviceStatus = DeviceStatus(data: DeviceRecord, connections: nat)

  /** The body of `/ws/status`. */
  datatype WsStatus = WsStatus(totalConnections: nat, devices: map<string, DeviceStatus>, totalDevices: nat, status: string)

  /** The registry and the module-level objects the handlers share. */
  class Server {
    /** `data_devices`. */
    var dataDevices: map<string, DeviceRecord>
    /** `device_register`. */
    const deviceRegister: seq<string>
    /** `manager`. */
    const manager: ConnectionManager

    constructor (m: ConnectionManager)
      ensures dataDevices == map[] && deviceRegister == ["IOT_001"] && manager == m
    {
      dataDevices := map[];
      deviceRegister := ["IOT_001"];
      manager := m;
    }

    /** `POST /reset/{did}`: forget the device's last reading. */
    method ResetData(did: string) returns (resp: ResponseMessage)
      modifies this
      ensures did in old(dataDevices) ==>
        resp == ResponseMessage(200, "Data reset successfully") && dataDevices == old(dataDevices) - {did}
      ensures did !in old(dataDevices) ==>
        resp == ResponseMessage(404, "Device not found") && dataDevices == old(dataDevices)
    {
      if did in dataDevices {
        dataDevices := dataDevices - {did};
        resp := ResponseMessage(200, "Data reset successfully");
      } else {
        resp := ResponseMessage(404, "Device not found");
      }
    }

    /** `POST /trigger/{did}`: mark a known device as triggered. */
    method TriggerIot(did: string) returns (resp: ResponseMessage)
      modifies this
      ensures did in old(dataDevices) ==>
        resp == ResponseMessage(200, "Device " + did + " triggered to start collecting data")
        && dataDevices == old(dataDevices)[did := old(dataDevices)[did].(triggered := true)]
      ensures did !in old(dataDevices) ==>
        resp == ResponseMessage(404, "Device " + did + " not found") && dataDevices == old(dataDevices)
    {
      if did in dataDevices {
        dataDevices := dataDevices[did := dataDevices[did].(triggered := true)];
        resp := ResponseMessage(200, "Device " + did + " triggered to start collecting data");
      } else {
        resp := ResponseMessage(404, "Device " + did + " not found");
      }
    }

    /** `POST /recive`: store the reading, then broadcast it to the device's
        sockets when any socket is connected at all. `now` is the event loop
        time; `connected` and `failing` describe the sockets as in
        `BroadcastToDevice`. */
    method ReceiveFromDevice(data: DataFromIOT, now: real, connected: set<Socket>, failing: set<Socket>)
      returns (resp: ResponseMessage, delivered: seq<Socket>)
      requires manager.Valid()
      modifies this, manager
      ensures resp == ResponseMessage(200, "Data received successfully for device " + data.did)
      ensures dataDevices == old(dataDevices)[data.did := DeviceRecord(data.tb, data.bb, "updated", now, false)]
      ensures manager.Valid()
      ensures old(manager.activeConnections) == map[] ==>
        delivered == [] && manager.activeConnections == map[]
        && manager.connectionDevices == old(manager.connectionDevices)
      ensures old(manager.activeConnections) != map[] ==>
        delivered == Keep(ListOf(old(manager.activeConnections), data.did), connected - failing)
        && manager.activeConnections == BroadcastActive(old(manager.activeConnections), data.did, connected - failing)
        && manager.connectionDevices
          == old(manager.connectionDevices) - Dropped(old(manager.activeConnections), data.did, connected - failing)
    {
      dataDevices := dataDevices[data.did := DeviceRecord(data.tb, data.bb, "updated", now, false)];
      delivered := [];
      if manager.activeConnections != map[] {
        delivered := manager.BroadcastToDevice(data.did, connected, failing);
      }
      resp := ResponseMessage(200, "Data received successfully for device " + data.did);
    }

    /** `GET /devices/{device_id}`: found only when the device has data and
        is registered. */
    method GetDeviceData(did: string) returns (r: Result<DeviceView, HttpError>)
      ensures r.Success? <==> did in dataDevices && did in deviceRegister
      ensures r.Success? ==> r.value == DeviceView(did, dataDevices[did], |ListOf(manager.activeConnections, did)|)
      ensures r.Failure? ==> r.error == HttpError(404, "Device " + did + " not found")
    {
      if did in dataDevices && did in deviceRegister {
        r := Success(DeviceView(did, dataDevices[did], |ListOf(manager.activeConnections, did)|));
      } else {
        r := Failure(HttpError(404, "Device " + did + " not found"));
      }
    }

    /** `GET /devices`: the whole registry and its size. */
    method GetAllDevices() returns (devices: map<string, DeviceRecord>, totalDevices: nat)
      ensures devices == dataDevices
      ensures totalDevices == |dataDevices.Keys|
    {
      devices := dataDevices;
      totalDevices := |dataDevices|;
    }

    /** `GET /ws/status`. The total is the sum of the per-device list lengths;
        under the manager's index it is the number of connected sockets. */
    method GetWebsocketStatus() returns (s: WsStatus)
      ensures s.totalConnections == TotalConnections(manager.activeConnections)
      ensures manager.Valid() ==> s.totalConnections == |manager.connectionDevices|
      ensures s.status == (if s.totalConnections > 0 then "active" else "no_connections")
      ensures s.devices.Keys == dataDevices.Keys && s.totalDevices == |dataDevices|
      ensures forall d :: d in s.devices ==>
        s.devices[d] == DeviceStatus(dataDevices[d], |ListOf(manager.activeConnections, d)|)
    {
      var active := manager.activeConnections;
      var total := 0;
      var rest := active;
      while rest != map[]
        invariant total + TotalConnections(rest) == TotalConnections(active)
        decreases |rest|
      {
        var k :| k in rest;
        TotalRemove(rest, k);
        total := total + |rest[k]|;
        rest := rest - {k};
      }
      if manager.Valid() {
        TotalConnectionsCountsSockets(manager.activeConnections, manager.connectionDevices);
      }
      var devices := map d | d in dataDevices :: DeviceStatus(dataDevices[d], |ListOf(active, d)|);
      s := WsStatus(total, devices, |dataDevices|, if total > 0 then "active" else "no_connections");
    }
  }

  // ---------------------------------------------------------------------------
  // POST /predict

  /** `DataAnakInput`, the body of `/predict`. */
  datatype DataAnakInput = DataAnakInput(
    nama: string, jenisKelamin: string, bbLahir: real, tbLahir: real, tanggalLahir: string,
    berat: real, tinggi: real)

  /** `PredictionOutputWithMessage`. */
  datatype PredictionWithMessage = PredictionWithMessage(data: PredictionOutput, message: string)

  /** `str(e)` of the `HTTPException(400)` raised for missing z-scores. */
  const ZscoreErrorText := "400: Error calculating Z-scores"

  /** `str(e)` of the `TypeError` raised by the call at main.py:228. */
  const ArityErrorText := "Prediction.penangana_gejalan() takes 3 positional arguments but 4 were given"

  /** The classifier input the handler builds from the request and the
      z-scores. */
  function ToPredictionInput(req: DataAnakInput, age: real, zs: ZscoreResults): (p: PredictionInput)
    ensures p.usia == age && p.jenisKelamin == req.jenisKelamin && p.tanggalLahir == req.tanggalLahir
    ensures p.bbLahir == req.bbLahir && p.tbLahir == req.tbLahir && p.berat == req.berat && p.tinggi == req.tinggi
    ensures p.zsBbu == zs.bbu && p.zsTbu == zs.tbu && p.zsBbtb == zs.bbtb
  {
    PredictionInput(age, req.jenisKelamin, req.bbLahir, req.tbLahir, req.tanggalLahir,
                    req.berat, req.tinggi, zs.bbu, zs.tbu, zs.bbtb)
  }

  /** The z-scores the handler obtains for a child aged `a`. */
  function ZscoresFor(growth: Calculator, req: DataAnakInput, a: AgeBreakdown, sex: string): ZscoreResults {
    CalculateZscore(growth, UsiaBulan(a.tahun, a.bulan), req.berat, req.tinggi, sex)
  }

  /** The steps of `predict_stunting` before the guidance text, with the
      exception text of the first step that raises. `birthDay` is the day
      number `strptime` gives for `tanggal_lahir` (None when it does not
      parse) and `today` the current day number. */
  function PredictionSteps(models: Models, growth: Calculator, req: DataAnakInput, birthDay: Option<int>, today: int)
    : (r: Result<PredictionOutput, string>)
    ensures birthDay.None? ==> r == Failure("Format tanggal lahir tidak valid")
    ensures birthDay.Some? && req.jenisKelamin != "L" && req.jenisKelamin != "P" ==>
      r == Failure("Jenis kelamin tidak valid")
    ensures birthDay.Some? && ParseGender(req.jenisKelamin).Success? ==>
      var a := Decompose(today - birthDay.value);
      var zs := ZscoresFor(growth, req, a, ParseGender(req.jenisKelamin).value);
      (!zs.calculated ==> r == Failure(ZscoreErrorText))
      && (zs.calculated ==> r == Predict(models, ToPredictionInput(req, UsiaTahun(a.tahun, a.bulan, a.hari), zs)))
  {
    match ParseTanggalLahir(birthDay, today)
    case Failure(e) => Failure(e)
    case Success(a) =>
      var ageInMonths := UsiaBulan(a.tahun, a.bulan);
      var age := UsiaTahun(a.tahun, a.bulan, a.hari);
      match ParseGender(req.jenisKelamin)
      case Failure(e) => Failure(e)
      case Success(gender) =>
        var zs := CalculateZscore(growth, ageInMonths, req.berat, req.tinggi, gender);
        if !zs.calculated then Failure(ZscoreErrorText)
        else Predict(models, ToPredictionInput(req, age, zs))
  }

  /** `predict_stunting` as written: every exception, the 400 for missing
      z-scores included, becomes a 500 with the exception's text, and when
      every step succeeds the guidance call passes one argument too many. */
  function PredictStuntingAsWritten(models: Models, growth: Calculator, req: DataAnakInput, birthDay: Option<int>, today: int)
    : (r: Result<PredictionWithMessage, HttpError>)
    ensures r.Failure? && r.error.statusCode == 500
    ensures PredictionSteps(models, growth, req, birthDay, today).Failure? ==>
      r.error.detail == "Prediction error: " + PredictionSteps(models, growth, req, birthDay, today).error
    ensures PredictionSteps(models, growth, req, birthDay, today).Success? ==>
      r.error.detail == "Prediction error: " + ArityErrorText
  {
    match PredictionSteps(models, growth, req, birthDay, today)
    case Failure(e) => Failure(HttpError(500, "Prediction error: " + e))
    case Success(_) => Failure(HttpError(500, "Prediction error: " + ArityErrorText))
  }

  /** `predict_stunting` with `penangana_gejalan` called as the three-label
      function it is declared as. The server composes with the fixed tables
      `Guidance`; they are a parameter here so that the proofs about the
      pipeline need not carry the table texts. */
  function PredictStunting(models: Models, growth: Calculator, guidance: Tables, req: DataAnakInput, birthDay: Option<int>, today: int)
    : (r: Result<PredictionWithMessage, HttpError>)
    ensures r.Success? <==> PredictionSteps(models, growth, req, birthDay, today).Success?
    ensures r.Success? ==>
      var res := PredictionSteps(models, growth, req, birthDay, today).value;
      r.value == PredictionWithMessage(res, Compose(guidance, res.bbu, res.tbu, res.bbtb))
    ensures r.Failure? ==>
      r.error == HttpError(500, "Prediction error: " + PredictionSteps(models, growth, req, birthDay, today).error)
  {
    match PredictionSteps(models, growth, req, birthDay, today)
    case Failure(e) => Failure(HttpError(500, "Prediction error: " + e))
    case Success(res) => Success(PredictionWithMessage(res, Compose(guidance, res.bbu, res.tbu, res.bbtb)))
  }

  /** No request gets a 4xx from `/predict`: missing z-scores, a bad date
      and a bad sex code all surface as 500, in both versions. */
  lemma PredictErrorsAre500(models: Models, growth: Calculator, guidance: Tables, req: DataAnakInput, birthDay: Option<int>, today: int)
    ensures PredictStunting(models, growth, guidance, req, birthDay, today).Failure? ==>
      PredictStunting(models, growth, guidance, req, birthDay, today).error.statusCode == 500
    ensures (birthDay.Some? && ParseGender(req.jenisKelamin).Success?
      && !ZscoresFor(growth, req, Decompose(today - birthDay.value), ParseGender(req.jenisKelamin).value).calculated) ==>
      PredictStunting(models, growth, guidance, req, birthDay, today)
        == Failure(HttpError(500, "Prediction error: " + ZscoreErrorText))
  {
    var steps := PredictionSteps(models, growth, req, birthDay, today);
    if birthDay.Some? && ParseGender(req.jenisKelamin).Success? {
      var zs := ZscoresFor(growth, req, Decompose(today - birthDay.value), ParseGender(req.jenisKelamin).value);
      if !zs.calculated {
        assert steps == Failure(ZscoreErrorText);
      }
    }
  }

  /** The two versions differ exactly on the requests whose every step
      succeeds: there the written handler answers 500 and the corrected one
      returns the prediction with its guidance. */
  lemma AsWrittenFailsWhereCorrectedSucceeds(models: Models, growth: Calculator, guidance: Tables, req: DataAnakInput, birthDay: Option<int>, today: int)
    ensures PredictStunting(models, growth, guidance, req, birthDay, today).Success? <==>
      PredictStuntingAsWritten(models, growth, req, birthDay, today).error.detail == "Prediction error: " + ArityErrorText
      && PredictionSteps(models, growth, req, birthDay, today).Success?
    ensures PredictStunting(models, growth, guidance, req, birthDay, today).Failure? ==>
      PredictStunting(models, growth, guidance, req, birthDay, today) == PredictStuntingAsWritten(models, growth, req, birthDay, today)
  {
  }
}
