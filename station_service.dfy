/** service/fuelStationCreateSchema.ts: the station payload schemas, the
    error handler every call shares, and the five calls. Each call returns
    its outcome together with the requests it made. */
module StationService {
  import opened Wrappers
  import opened Js
  import opened Schemas
  import Api
  import Endpoints

  // ------------------------------------------------------------------ schemas

  /** A valid `Date` object, which JSON serialises as its ISO text. */
  datatype Date = Date(iso: string)

  datatype StationCreate = StationCreate(
    name: string, municipality: string, address: string,
    gpsLatitude: real, gpsLongitude: real, image: Option<string>,
    idFuelStation: Option<real>, createdAt: Option<Date>, updatedAt: Option<Date>)

  datatype StationUpdate = StationUpdate(
    name: Option<string>, municipality: Option<string>, address: Option<string>,
    gpsLatitude: Option<real>, gpsLongitude: Option<real>, image: Option<string>,
    idFuelStation: Option<real>, createdAt: Option<Date>, updatedAt: Option<Date>)

  const NameMessage := "El nombre debe tener al menos 3 caracteres"
  const MunicipalityMessage := "El municipio debe tener al menos 3 caracteres"
  const AddressMessage := "La dirección debe tener al menos 5 caracteres"
  const LatitudeMessage := "Latitud inválida"
  const LongitudeMessage := "Longitud inválida"
  const ImageMessage := "La URL de la imagen no es válida"
  const IntegerMessage := "Expected integer, received float"
  const PositiveMessage := "Number must be greater than 0"
  const UnknownErrorMessage := "Error desconocido"

  /** `z.string().min(lo, message).max(255)`: both checks run. */
  function TextIssues(s: string, lo: nat, message: string): seq<string> {
    (if |s| >= lo then [] else [message]) + (if |s| <= 255 then [] else [MaxLengthMessage(255)])
  }

  /** `z.number().min(lo, message).max(hi, message)`. */
  function RangeIssues(x: real, lo: real, hi: real, message: string): seq<string> {
    (if x >= lo then [] else [message]) + (if x <= hi then [] else [message])
  }

  function ImageIssues(s: string, c: Checks): seq<string> {
    (if c.isUrl(s) then [] else [ImageMessage]) + (if |s| <= 255 then [] else [MaxLengthMessage(255)])
  }

  function IdIssues(x: real): seq<string> {
    (if IsInteger(x) then [] else [IntegerMessage]) + (if x > 0.0 then [] else [PositiveMessage])
  }

  function Opt<T>(o: Option<T>, issues: T -> seq<string>): seq<string> {
    if o.Some? then issues(o.value) else []
  }

  /** The issues `fuelStationUpdateSchema` reports, in field order: an absent
      field is never an issue, a present one is checked as on creation. */
  function UpdateIssues(u: StationUpdate, c: Checks): seq<string> {
    Opt(u.name, s => TextIssues(s, 3, NameMessage))
    + Opt(u.municipality, s => TextIssues(s, 3, MunicipalityMessage))
    + Opt(u.address, s => TextIssues(s, 5, AddressMessage))
    + Opt(u.gpsLatitude, x => RangeIssues(x, -90.0, 90.0, LatitudeMessage))
    + Opt(u.gpsLongitude, x => RangeIssues(x, -180.0, 180.0, LongitudeMessage))
    + Opt(u.image, s => ImageIssues(s, c))
    + Opt(u.idFuelStation, IdIssues)
  }

  function AsUpdate(p: StationCreate): StationUpdate {
    StationUpdate(Some(p.name), Some(p.municipality), Some(p.address),
                  Some(p.gpsLatitude), Some(p.gpsLongitude), p.image,
                  p.idFuelStation, p.createdAt, p.updatedAt)
  }

  /** The issues `fuelStationCreateSchema` reports. */
  function CreateIssues(p: StationCreate, c: Checks): seq<string> {
    UpdateIssues(AsUpdate(p), c)
  }

  /** The create schema stated declaratively. */
  predicate ValidCreate(p: StationCreate, c: Checks) {
    && 3 <= |p.name| <= 255 && 3 <= |p.municipality| <= 255 && 5 <= |p.address| <= 255
    && -90.0 <= p.gpsLatitude <= 90.0 && -180.0 <= p.gpsLongitude <= 180.0
    && (p.image.None? || (c.isUrl(p.image.value) && |p.image.value| <= 255))
    && (p.idFuelStation.None? || IsPositiveInt(p.idFuelStation.value))
  }

  predicate ValidUpdate(u: StationUpdate, c: Checks) {
    && (u.name.None? || 3 <= |u.name.value| <= 255)
    && (u.municipality.None? || 3 <= |u.municipality.value| <= 255)
    && (u.address.None? || 5 <= |u.address.value| <= 255)
    && (u.gpsLatitude.None? || -90.0 <= u.gpsLatitude.value <= 90.0)
    && (u.gpsLongitude.None? || -180.0 <= u.gpsLongitude.value <= 180.0)
    && (u.image.None? || (c.isUrl(u.image.value) && |u.image.value| <= 255))
    && (u.idFuelStation.None? || IsPositiveInt(u.idFuelStation.value))
  }

  /** A payload passes the update schema iff no issue is reported. */
  lemma UpdateIssuesEmptyIff(u: StationUpdate, c: Checks)
    ensures UpdateIssues(u, c) == [] <==> ValidUpdate(u, c)
  {
  }

  /** A payload passes the create schema iff no issue is reported. */
  lemma CreateIssuesEmptyIff(p: StationCreate, c: Checks)
    ensures CreateIssues(p, c) == [] <==> ValidCreate(p, c)
  {
    UpdateIssuesEmptyIff(AsUpdate(p), c);
  }

  /** `u` sends some of `p`'s fields, unchanged, and nothing else. */
  predicate SubsetOf(u: StationUpdate, p: StationCreate) {
    && (u.name.None? || u.name == Some(p.name))
    && (u.municipality.None? || u.municipality == Some(p.municipality))
    && (u.address.None? || u.address == Some(p.address))
    && (u.gpsLatitude.None? || u.gpsLatitude == Some(p.gpsLatitude))
    && (u.gpsLongitude.None? || u.gpsLongitude == Some(p.gpsLongitude))
    && (u.image.None? || u.image == p.image)
    && (u.idFuelStation.None? || u.idFuelStation == p.idFuelStation)
    && (u.createdAt.None? || u.createdAt == p.createdAt)
    && (u.updatedAt.None? || u.updatedAt == p.updatedAt)
  }

  /** The update schema accepts any subset of a valid create payload,
      the empty one included, and each message names a broken rule. */
  lemma UpdateAcceptsSubsets(p: StationCreate, u: StationUpdate, c: Checks)
    requires ValidCreate(p, c) && SubsetOf(u, p)
    ensures UpdateIssues(u, c) == []
  {
    UpdateIssuesEmptyIff(u, c);
  }

  /** The station schema here is stricter than the one of types/index.ts:
      a two-letter name passes that one and fails this one. */
  lemma StricterThanSharedSchema(c: Checks)
    ensures ValidFuelStation(FuelStationCreate("ab", "abc", "abcde", 0.0, 0.0))
    ensures CreateIssues(StationCreate("ab", "abc", "abcde", 0.0, 0.0, None, None, None, None), c)
            == [NameMessage]
  {
  }

  // ---------------------------------------------------------- request bodies

  function OptionalEntry<T>(key: string, o: Option<T>, conv: T -> Value): map<string, Value> {
    if o.Some? then map[key := conv(o.value)] else map[]
  }

  /** The JSON object an update payload is sent as; absent fields have no key. */
  function UpdateValue(u: StationUpdate): Value {
    Obj(OptionalEntry("name", u.name, (s: string) => Str(s))
        + OptionalEntry("municipality", u.municipality, (s: string) => Str(s))
        + OptionalEntry("address", u.address, (s: string) => Str(s))
        + OptionalEntry("gps_latitude", u.gpsLatitude, (x: real) => Num(x))
        + OptionalEntry("gps_longitude", u.gpsLongitude, (x: real) => Num(x))
        + OptionalEntry("image", u.image, (s: string) => Str(s))
        + OptionalEntry("id_fuel_station", u.idFuelStation, (x: real) => Num(x))
        + OptionalEntry("created_at", u.createdAt, (d: Date) => Str(d.iso))
        + OptionalEntry("updated_at", u.updatedAt, (d: Date) => Str(d.iso)))
  }

  function CreateValue(p: StationCreate): Value {
    UpdateValue(AsUpdate(p))
  }

  // ------------------------------------------------------------ handleError

  /** How `handleError` ends: it returns a value, throws one, or fails with
      a TypeError by reading a property of `null` or `undefined`. */
  datatype Handled = Returned(value: Value) | Threw(thrown: Value) | TypeError

  /** `items.map(e => e.message)`; None when an element is null or undefined. */
  function ZodMessages(items: seq<Value>): (r: Option<seq<Value>>)
    ensures r.Some? <==> forall i :: 0 <= i < |items| ==> !items[i].Undefined? && !items[i].Null?
    ensures r.Some? ==> |r.value| == |items|
    ensures r.Some? ==> forall i :: 0 <= i < |items| ==> r.value[i] == GetOpt(items[i], "message")
  {
    if items == [] then Some([])
    else match Get(items[0], "message")
      case None => None
      case Some(m) =>
        match ZodMessages(items[1..])
        case None => None
        case Some(rest) => Some([m] + rest)
  }

  /** `data.map(e => e.message || JSON.stringify(e))`. */
  function ServerMessages(items: seq<Value>, codec: Codec): (r: Option<seq<Value>>)
    ensures r.Some? <==> forall i :: 0 <= i < |items| ==> !items[i].Undefined? && !items[i].Null?
    ensures r.Some? ==> |r.value| == |items|
    ensures r.Some? ==> forall i :: 0 <= i < |items| ==>
              r.value[i] == Or(GetOpt(items[i], "message"), Str(codec.stringify(items[i])))
  {
    if items == [] then Some([])
    else match Get(items[0], "message")
      case None => None
      case Some(m) =>
        match ServerMessages(items[1..], codec)
        case None => None
        case Some(rest) => Some([Or(m, Str(codec.stringify(items[0])))] + rest)
  }

  /** The messages of a truthy server body: one per element of an array
      (its message, else its JSON text), the body's message, or else the
      body's JSON text. */
  function ServerBody(data: Value, codec: Codec): (h: Handled)
    requires Truthy(data)
    ensures !h.Threw?
    ensures data.Arr? ==>
              (h.Returned? <==> ServerMessages(data.items, codec).Some?)
              && (h.Returned? ==> h.value == Arr(ServerMessages(data.items, codec).value))
    ensures !data.Arr? ==>
              h == Returned(Arr(if Truthy(GetOpt(data, "message")) then [GetOpt(data, "message")]
                                else [Str(codec.stringify(data))]))
  {
    if data.Arr? then
      match ServerMessages(data.items, codec)
      case None => TypeError
      case Some(ms) => Returned(Arr(ms))
    else
      var message := GetOpt(data, "message");
      Returned(Arr(if Truthy(message) then [message] else [Str(codec.stringify(data))]))
  }

  /** `error.response?.data`. */
  function ResponseData(error: Value): Value {
    GetOpt(GetOpt(error, "response"), "data")
  }

  predicate IsZodError(error: Value) {
    Get(error, "name") == Some(Str("ZodError"))
  }

  /** `handleError`: a validation error throws its messages; a server body
      is returned as a list of messages; anything else throws a one-message
      list. */
  function HandleError(error: Value, codec: Codec): (h: Handled)
    ensures error.Undefined? || error.Null? ==> h.TypeError?
    ensures IsZodError(error) ==> !h.Returned?
    ensures !IsZodError(error) && Truthy(ResponseData(error)) ==> !h.Threw?
    ensures !IsZodError(error) && Truthy(ResponseData(error)) && !ResponseData(error).Arr? ==>
              var data := ResponseData(error);
              h == Returned(Arr(if Truthy(GetOpt(data, "message")) then [GetOpt(data, "message")]
                                else [Str(codec.stringify(data))]))
    ensures !IsZodError(error) && ResponseData(error).Arr? ==>
              var items := ResponseData(error).items;
              (h.Returned? <==> ServerMessages(items, codec).Some?)
              && (h.Returned? ==> h.value == Arr(ServerMessages(items, codec).value))
    ensures !(error.Undefined? || error.Null?) && !IsZodError(error) && !Truthy(ResponseData(error)) ==>
              h == Threw(Arr([Or(GetOpt(error, "message"), Str(UnknownErrorMessage))]))
  {
    match Get(error, "name")
    case None => TypeError
    case Some(name) =>
      if name == Str("ZodError") then
        var errors := GetOpt(error, "errors");
        if !errors.Arr? then TypeError
        else match ZodMessages(errors.items)
          case None => TypeError
          case Some(ms) => Threw(Arr(ms))
      else
        var data := ResponseData(error);
        if Truthy(data) then ServerBody(data, codec)
        else
          Threw(Arr([Or(GetOpt(error, "message"), Str(UnknownErrorMessage))]))
  }

  function Strs(ms: seq<string>): (r: seq<Value>)
    ensures |r| == |ms| && forall i :: 0 <= i < |ms| ==> r[i] == Str(ms[i])
  {
    seq(|ms|, i requires 0 <= i < |ms| => Str(ms[i]))
  }

  /** The ZodError `parse` throws for a list of issue messages. */
  function ZodErrorValue(messages: seq<string>): Value {
    Obj(map["name" := Str("ZodError"),
            "errors" := Arr(seq(|messages|, i requires 0 <= i < |messages| =>
                                  Obj(map["message" := Str(messages[i])])))])
  }

  /** A validation error is rethrown as the list of its messages, in order. */
  lemma ZodErrorThrowsMessages(messages: seq<string>, codec: Codec)
    ensures HandleError(ZodErrorValue(messages), codec) == Threw(Arr(Strs(messages)))
  {
    var items := GetOpt(ZodErrorValue(messages), "errors").items;
    assert forall i :: 0 <= i < |items| ==> GetOpt(items[i], "message") == Str(messages[i]);
    assert ZodMessages(items).value == Strs(messages);
  }

  // ------------------------------------------------------------------ calls

  /** What a call throws: `throw handleError(...)` throws the handler's
      value whether it returned or threw it. */
  datatype StationError = Thrown(value: Value) | TypeErrorThrown

  function Raise(h: Handled): StationError {
    match h
    case Returned(v) => Thrown(v)
    case Threw(v) => Thrown(v)
    case TypeError => TypeErrorThrown
  }

  datatype Traced<T> = Traced(result: T, calls: seq<Api.Request>)

  /** One request through the client, failures passed to `handleError`. */
  function Call(req: Api.Request, backend: Api.Backend, codec: Codec): (t: Traced<Result<Value, StationError>>)
    ensures t.calls == [req]
    ensures t.result.Success? <==> backend(req).Answered?
    ensures t.result.Success? ==> t.result.value == backend(req).data
    ensures t.result.Failure? ==>
              t.result.error == Raise(HandleError(Api.Rejection(backend(req).error), codec))
  {
    match Api.Send(backend, req)
    case Success(data) => Traced(Success(data), [req])
    case Failure(body) => Traced(Failure(Raise(HandleError(body, codec))), [req])
  }

  function CreateRequest(p: StationCreate): Api.Request {
    Api.Request(Api.Post, Endpoints.Base(Endpoints.FuelStations), CreateValue(p))
  }

  function UpdateRequest(id: int, u: StationUpdate): Api.Request {
    Api.Request(Api.Patch, Endpoints.ById(Endpoints.FuelStations, id), UpdateValue(u))
  }

  /** `create`: validates first; an invalid payload is never sent and throws
      its issue messages; a valid one is posted. */
  function Create(p: StationCreate, backend: Api.Backend, c: Checks, codec: Codec)
    : (t: Traced<Result<Value, StationError>>)
    ensures !ValidCreate(p, c) ==>
              t.calls == [] && t.result == Failure(Thrown(Arr(Strs(CreateIssues(p, c)))))
    ensures ValidCreate(p, c) ==> t == Call(CreateRequest(p), backend, codec)
  {
    CreateIssuesEmptyIff(p, c);
    var issues := CreateIssues(p, c);
    if issues != [] then
      ZodErrorThrowsMessages(issues, codec);
      Traced(Failure(Raise(HandleError(ZodErrorValue(issues), codec))), [])
    else
      Call(CreateRequest(p), backend, codec)
  }

  /** `update`: validates with the partial schema, then sends a PATCH to the
      station's path. */
  function Update(id: int, u: StationUpdate, backend: Api.Backend, c: Checks, codec: Codec)
    : (t: Traced<Result<Value, StationError>>)
    ensures !ValidUpdate(u, c) ==>
              t.calls == [] && t.result == Failure(Thrown(Arr(Strs(UpdateIssues(u, c)))))
    ensures ValidUpdate(u, c) ==> t == Call(UpdateRequest(id, u), backend, codec)
  {
    UpdateIssuesEmptyIff(u, c);
    var issues := UpdateIssues(u, c);
    if issues != [] then
      ZodErrorThrowsMessages(issues, codec);
      Traced(Failure(Raise(HandleError(ZodErrorValue(issues), codec))), [])
    else
      Call(UpdateRequest(id, u), backend, codec)
  }

  /** `findAll`, `findOne` and `remove`: one request each, no validation;
      the outcome is Call's, so a failure throws (FailuresAlwaysThrow). */
  function FindAll(backend: Api.Backend, codec: Codec): (t: Traced<Result<Value, StationError>>)
    ensures t.calls == [Api.Request(Api.Get, Endpoints.Base(Endpoints.FuelStations), Undefined)]
    ensures t == Call(Api.Request(Api.Get, Endpoints.Base(Endpoints.FuelStations), Undefined), backend, codec)
  {
    Call(Api.Request(Api.Get, Endpoints.Base(Endpoints.FuelStations), Undefined), backend, codec)
  }

  function FindOne(id: int, backend: Api.Backend, codec: Codec): (t: Traced<Result<Value, StationError>>)
    ensures t.calls == [Api.Request(Api.Get, Endpoints.ById(Endpoints.FuelStations, id), Undefined)]
    ensures t == Call(Api.Request(Api.Get, Endpoints.ById(Endpoints.FuelStations, id), Undefined), backend, codec)
  {
    Call(Api.Request(Api.Get, Endpoints.ById(Endpoints.FuelStations, id), Undefined), backend, codec)
  }

  function Remove(id: int, backend: Api.Backend, codec: Codec): (t: Traced<Result<Value, StationError>>)
    ensures t.calls == [Api.Request(Api.Delete, Endpoints.ById(Endpoints.FuelStations, id), Undefined)]
    ensures t == Call(Api.Request(Api.Delete, Endpoints.ById(Endpoints.FuelStations, id), Undefined), backend, codec)
  {
    Call(Api.Request(Api.Delete, Endpoints.ById(Endpoints.FuelStations, id), Undefined), backend, codec)
  }

  /** Every failing call throws; nothing reaches the caller as a value. */
  lemma FailuresAlwaysThrow(req: Api.Request, backend: Api.Backend, codec: Codec)
    requires backend(req).Failed?
    ensures Call(req, backend, codec).result.Failure?
  {
  }

  // ------------------------------------------------------------- finding

  /** Through the intercepted client a call fails with the server's body
      itself, which has no `response` field: the server branch of
      `handleError` is never taken and an array of server messages is
      reported as the single fixed message. */
  lemma ArrayBodyLosesMessages(req: Api.Request, backend: Api.Backend, codec: Codec)
    requires backend(req) == Api.Failed(Api.AxiosError(
               Some(Arr([Obj(map["message" := Str("Nombre duplicado")])])), true))
    ensures Call(req, backend, codec).result == Failure(Thrown(Arr([Str(UnknownErrorMessage)])))
  {
    var body := Arr([Obj(map["message" := Str("Nombre duplicado")])]);
    assert Api.Rejection(backend(req).error) == body;
    assert ResponseData(body) == Undefined;
  }

  /** The handler as evidently intended for the intercepted client: a
      validation error as before, and any other rejection read as the
      server body it is. */
  function HandleRejection(error: Value, codec: Codec): (h: Handled)
    ensures IsZodError(error) ==> h == HandleError(error, codec)
    ensures !IsZodError(error) && Truthy(error) ==> h == ServerBody(error, codec)
  {
    if IsZodError(error) || !Truthy(error) then HandleError(error, codec)
    else ServerBody(error, codec)
  }

  /** With the corrected handler, every message of an array body reaches the
      caller, in order. */
  lemma HandleRejectionListsMessages(req: Api.Request, backend: Api.Backend, codec: Codec, items: seq<Value>)
    requires backend(req) == Api.Failed(Api.AxiosError(Some(Arr(items)), true))
    requires forall i :: 0 <= i < |items| ==> items[i].Obj?
    ensures var h := HandleRejection(Api.Rejection(backend(req).error), codec);
            && h.Returned? && h.value.Arr? && |h.value.items| == |items|
            && forall i :: 0 <= i < |items| ==>
                 h.value.items[i] == Or(GetOpt(items[i], "message"), Str(codec.stringify(items[i])))
  {
    assert Api.Rejection(backend(req).error) == Arr(items);
  }
}
