/** The REST client of mobile/services/api.ts: the base URL choice, the
    multipart payload of `submitReport`, the list and single-report requests and
    the health check, with the error message each one raises. The network is a
    parameter: each request's outcome is given as a `FetchOutcome`. */
module Api {
  import opened Wrappers
  import opened Text

  // ---------------------------------------------------------------------------
  // Base URL
  // ---------------------------------------------------------------------------

  datatype Platform = Android | Ios | Web

  /** `BASE_URL`: a defined `EXPO_PUBLIC_API_URL` wins, even when it is empty;
      otherwise the Android emulator's host alias or localhost. */
  function BaseUrl(envApiUrl: Option<string>, platform: Platform): (url: string)
    ensures envApiUrl.Some? ==> url == envApiUrl.value
    ensures envApiUrl.None? ==>
      url == (if platform == Android then "http://10.0.2.2:8000" else "http://localhost:8000")
  {
    match envApiUrl
    case Some(u) => u
    case None => if platform == Android then "http://10.0.2.2:8000" else "http://localhost:8000"
  }

  // ---------------------------------------------------------------------------
  // Requests and responses
  // ---------------------------------------------------------------------------

  /** One part of a multipart body: a text value, or a file descriptor. */
  datatype FormValue = TextPart(text: string) | FilePart(uri: string, name: string, mimeType: string)

  type FormField = (FieldName, FormValue)

  datatype HttpRequest = HttpRequest(
    httpMethod: string,
    url: string,
    contentType: Option<string>,
    form: seq<FormField>)

  /** What `fetch` produced: a thrown network error, or a response whose body
      either parsed as JSON (`Success`) or made `JSON.parse` throw the message
      in `Failure`; that message is the platform's, so it is part of the
      outcome. */
  datatype FetchOutcome<B> = NetworkError(message: string) | Responded(status: int, body: Result<B, string>)

  /** `response.ok`. */
  predicate IsOk(status: int) {
    200 <= status <= 299
  }

  /** `HTTP error! status: <code>`. */
  function HttpErrorMessage(status: int): string {
    "HTTP error! status: " + IntToString(status)
  }

  // ---------------------------------------------------------------------------
  // submitReport
  // ---------------------------------------------------------------------------

  datatype Media = Media(uri: string, name: string, mimeType: string)

  /** The `ReportData` argument of `submitReport`. Coordinates are numbers; their
      decimal rendering is the `showNumber` parameter of the operations below. */
  datatype ReportData = ReportData(
    incidentType: string,
    date: Option<string>,
    time: Option<string>,
    location: Option<string>,
    description: Option<string>,
    anonymous: Option<bool>,
    name: Option<string>,
    phone: Option<string>,
    email: Option<string>,
    lat: Option<real>,
    lng: Option<real>,
    media: Option<Media>)

  /** JavaScript truthiness of an optional number: defined and not zero. */
  predicate NumberTruthy(x: Option<real>) {
    x.Some? && x.value != 0.0
  }

  /** The fields of the multipart payload, in the order `submitReport` appends them. */
  datatype FieldName =
    IncidentTypeField | DateField | TimeField | LocationField | DescriptionField | AnonymousField
    | NameField | PhoneField | EmailField | LatField | LngField | MediaField

  /** The name each field carries on the wire. */
  function WireName(f: FieldName): string {
    match f
    case IncidentTypeField => "incident_type"
    case DateField => "date"
    case TimeField => "time"
    case LocationField => "location"
    case DescriptionField => "description"
    case AnonymousField => "anonymous"
    case NameField => "name"
    case PhoneField => "phone"
    case EmailField => "email"
    case LatField => "lat"
    case LngField => "lng"
    case MediaField => "media"
  }

  /** The position at which `submitReport` appends a field. */
  function Rank(f: FieldName): nat {
    match f
    case IncidentTypeField => 0
    case DateField => 1
    case TimeField => 2
    case LocationField => 3
    case DescriptionField => 4
    case AnonymousField => 5
    case NameField => 6
    case PhoneField => 7
    case EmailField => 8
    case LatField => 9
    case LngField => 10
    case MediaField => 11
  }

  /** The field a wire name denotes, if any. */
  function FieldNamed(name: string): (f: Option<FieldName>)
    ensures f.Some? ==> WireName(f.value) == name
  {
    if name == "incident_type" then Some(IncidentTypeField)
    else if name == "date" then Some(DateField)
    else if name == "time" then Some(TimeField)
    else if name == "location" then Some(LocationField)
    else if name == "description" then Some(DescriptionField)
    else if name == "anonymous" then Some(AnonymousField)
    else if name == "name" then Some(NameField)
    else if name == "phone" then Some(PhoneField)
    else if name == "email" then Some(EmailField)
    else if name == "lat" then Some(LatField)
    else if name == "lng" then Some(LngField)
    else if name == "media" then Some(MediaField)
    else None
  }

  /** Every field is recovered from its wire name, so distinct fields go out
      under distinct names. */
  lemma WireNameRoundTrip(f: FieldName)
    ensures FieldNamed(WireName(f)) == Some(f)
  {
  }

  /** The names appear in append order, each at most once. */
  predicate InFieldOrder(form: seq<FormField>) {
    forall i, j :: 0 <= i < j < |form| ==> Rank(form[i].0) < Rank(form[j].0)
  }

  /** `formData.get(name)`: the first value appended under `name`. */
  function Lookup(form: seq<FormField>, name: FieldName): Option<FormValue> {
    if form == [] then None
    else if form[0].0 == name then Some(form[0].1)
    else Lookup(form[1..], name)
  }

  /** Appending a field makes it visible under its own name if it was absent and
      changes no other name's lookup. */
  lemma {:induction false} LookupAppend(form: seq<FormField>, name: FieldName, value: FormValue, other: FieldName)
    ensures Lookup(form + [(name, value)], other) ==
      if other == name && Lookup(form, other).None? then Some(value) else Lookup(form, other)
  {
    if form != [] {
      assert (form + [(name, value)])[1..] == form[1..] + [(name, value)];
      LookupAppend(form[1..], name, value, other);
    }
  }

  /** Whether `submitReport` sends field `f`: the incident type always, the
      anonymous flag whenever it is defined (also when false), the coordinates
      when they are non-zero numbers, the media when given, every other field
      when it is a non-empty string. */
  predicate Present(data: ReportData, f: FieldName) {
    match f
    case IncidentTypeField => true
    case DateField => Truthy(data.date)
    case TimeField => Truthy(data.time)
    case LocationField => Truthy(data.location)
    case DescriptionField => Truthy(data.description)
    case AnonymousField => data.anonymous.Some?
    case NameField => Truthy(data.name)
    case PhoneField => Truthy(data.phone)
    case EmailField => Truthy(data.email)
    case LatField => NumberTruthy(data.lat)
    case LngField => NumberTruthy(data.lng)
    case MediaField => data.media.Some?
  }

  /** The value `submitReport` sends for field `f` when it sends it: strings as
      they are, the flag as `"true"`/`"false"`, numbers rendered by
      `showNumber`, the media as a file part. */
  function ValueOf(data: ReportData, f: FieldName, showNumber: real -> string): FormValue {
    match f
    case IncidentTypeField => TextPart(data.incidentType)
    case DateField => TextPart(data.date.GetOr(""))
    case TimeField => TextPart(data.time.GetOr(""))
    case LocationField => TextPart(data.location.GetOr(""))
    case DescriptionField => TextPart(data.description.GetOr(""))
    case AnonymousField => TextPart(if data.anonymous == Some(true) then "true" else "false")
    case NameField => TextPart(data.name.GetOr(""))
    case PhoneField => TextPart(data.phone.GetOr(""))
    case EmailField => TextPart(data.email.GetOr(""))
    case LatField => TextPart(showNumber(data.lat.GetOr(0.0)))
    case LngField => TextPart(showNumber(data.lng.GetOr(0.0)))
    case MediaField =>
      var m := data.media.GetOr(Media("", "", ""));
      FilePart(m.uri, m.name, m.mimeType)
  }

  /** The field appended at position `k`. */
  function FieldAt(k: nat): (f: FieldName)
    requires k < 12
    ensures Rank(f) == k
  {
    [IncidentTypeField, DateField, TimeField, LocationField, DescriptionField, AnonymousField,
     NameField, PhoneField, EmailField, LatField, LngField, MediaField][k]
  }

  /** Positions and fields correspond one to one. */
  lemma FieldAtRank(f: FieldName)
    ensures Rank(f) < 12 && FieldAt(Rank(f)) == f
  {
  }

  /** The payload once the first `k` append steps have run: the present fields
      among the first `k`, in order. */
  function SentFields(data: ReportData, showNumber: real -> string, k: nat): seq<FormField>
    requires k <= 12
  {
    if k == 0 then []
    else
      var f := FieldAt(k - 1);
      SentFields(data, showNumber, k - 1) + (if Present(data, f) then [(f, ValueOf(data, f, showNumber))] else [])
  }

  /** The payload after `k` steps is in append order, holds only fields ranked
      below `k`, and carries each such field exactly when it is present, with
      its value. */
  lemma {:induction false} SentFieldsMeaning(data: ReportData, showNumber: real -> string, k: nat)
    requires k <= 12
    ensures InFieldOrder(SentFields(data, showNumber, k))
    ensures forall i :: 0 <= i < |SentFields(data, showNumber, k)| ==> Rank(SentFields(data, showNumber, k)[i].0) < k
    ensures forall f :: Lookup(SentFields(data, showNumber, k), f) ==
              (if Rank(f) < k && Present(data, f) then Some(ValueOf(data, f, showNumber)) else None)
  {
    if k > 0 {
      SentFieldsMeaning(data, showNumber, k - 1);
      var prev := SentFields(data, showNumber, k - 1);
      var f := FieldAt(k - 1);
      if Present(data, f) {
        forall g ensures Lookup(prev + [(f, ValueOf(data, f, showNumber))], g) ==
          if g == f && Lookup(prev, g).None? then Some(ValueOf(data, f, showNumber)) else Lookup(prev, g)
        {
          LookupAppend(prev, f, ValueOf(data, f, showNumber), g);
        }
      } else {
        assert SentFields(data, showNumber, k) == prev;
      }
      forall g | Rank(g) == k - 1 ensures g == f {
        FieldAtRank(g);
      }
    }
  }

  /** `if (<field is set>) formData.append(<name>, <value>)` for field `f`. */
  method AppendIfSet(form: seq<FormField>, data: ReportData, showNumber: real -> string, f: FieldName, ghost k: nat)
    returns (r: seq<FormField>)
    requires k == Rank(f) && k < 12 && form == SentFields(data, showNumber, k)
    ensures r == SentFields(data, showNumber, k + 1)
  {
    FieldAtRank(f);
    r := form;
    if Present(data, f) {
      r := form + [(f, ValueOf(data, f, showNumber))];
    }
  }

  /** The multipart payload of `submitReport`, appended field by field: it holds
      exactly the present fields, in append order, the incident type first. */
  method BuildReportForm(data: ReportData, showNumber: real -> string) returns (form: seq<FormField>)
    ensures form == SentFields(data, showNumber, 12)
    ensures |form| >= 1 && form[0] == (IncidentTypeField, TextPart(data.incidentType))
    ensures InFieldOrder(form)
    ensures forall f :: Lookup(form, f) == if Present(data, f) then Some(ValueOf(data, f, showNumber)) else None
  {
    form := [(IncidentTypeField, TextPart(data.incidentType))];
    assert form == SentFields(data, showNumber, 1);
    ghost var k := 1;
    form := AppendIfSet(form, data, showNumber, DateField, k);
    k := k + 1;
    form := AppendIfSet(form, data, showNumber, TimeField, k);
    k := k + 1;
    form := AppendIfSet(form, data, showNumber, LocationField, k);
    k := k + 1;
    form := AppendIfSet(form, data, showNumber, DescriptionField, k);
    k := k + 1;
    form := AppendIfSet(form, data, showNumber, AnonymousField, k);
    k := k + 1;
    form := AppendIfSet(form, data, showNumber, NameField, k);
    k := k + 1;
    form := AppendIfSet(form, data, showNumber, PhoneField, k);
    k := k + 1;
    form := AppendIfSet(form, data, showNumber, EmailField, k);
    k := k + 1;
    form := AppendIfSet(form, data, showNumber, LatField, k);
    k := k + 1;
    form := AppendIfSet(form, data, showNumber, LngField, k);
    k := k + 1;
    form := AppendIfSet(form, data, showNumber, MediaField, k);
    k := k + 1;
    FullPayload(data, showNumber);
  }

  /** The full payload opens with the incident type, is in append order and
      carries every field exactly when it is present. */
  lemma FullPayload(data: ReportData, showNumber: real -> string)
    ensures var form := SentFields(data, showNumber, 12);
      && |form| >= 1 && form[0] == (IncidentTypeField, TextPart(data.incidentType))
      && InFieldOrder(form)
      && forall f :: Lookup(form, f) == if Present(data, f) then Some(ValueOf(data, f, showNumber)) else None
  {
    SentFieldsMeaning(data, showNumber, 12);
    FirstSentField(data, showNumber, 12);
    forall f ensures Rank(f) < 12 { FieldAtRank(f); }
  }

  /** The incident type opens the payload. */
  lemma {:induction false} FirstSentField(data: ReportData, showNumber: real -> string, k: nat)
    requires 1 <= k <= 12
    ensures |SentFields(data, showNumber, k)| >= 1
    ensures SentFields(data, showNumber, k)[0] == (IncidentTypeField, TextPart(data.incidentType))
  {
    if k > 1 {
      FirstSentField(data, showNumber, k - 1);
    }
  }

  /** What the payload carries for a few cases the client treats specially: an
      anonymous flag of `false` is still sent, a coordinate of `0` is dropped,
      an empty contact string is dropped. */
  lemma SpecialFieldValues(data: ReportData, showNumber: real -> string)
    ensures data.anonymous == Some(false) ==>
      Present(data, AnonymousField) && ValueOf(data, AnonymousField, showNumber) == TextPart("false")
    ensures data.lat == Some(0.0) ==> !Present(data, LatField)
    ensures data.name == Some("") ==> !Present(data, NameField)
  {
  }

  /** A JSON value as `response.json()` yields it. */
  datatype Json =
    | JNull
    | JBool(b: bool)
    | JNum(x: real)
    | JStr(s: string)
    | JArr(items: seq<Json>)
    | JObj(fields: map<string, Json>)

  /** JavaScript truthiness of a JSON value: arrays and objects are true even
      when empty. */
  predicate JsonTruthy(v: Json) {
    match v
    case JNull => false
    case JBool(b) => b
    case JNum(x) => x != 0.0
    case JStr(s) => s != ""
    case JArr(_) => true
    case JObj(_) => true
  }

  /** `String(v)`, which `new Error(v)` applies to its message: a string is
      itself, every object is `[object Object]`, an array is its elements'
      texts joined by commas. Number rendering is `showNumber`. */
  function JsString(v: Json, showNumber: real -> string): (r: string)
    ensures v.JStr? ==> r == v.s
    ensures v.JObj? ==> r == "[object Object]"
    ensures v == JArr([]) ==> r == ""
    decreases v, 1
  {
    match v
    case JNull => "null"
    case JBool(b) => if b then "true" else "false"
    case JNum(x) => showNumber(x)
    case JStr(s) => s
    case JArr(items) => JoinedElements(items, showNumber)
    case JObj(_) => "[object Object]"
  }

  /** `Array.prototype.join(",")`: a `null` element contributes the empty
      text, every other element its `String`. */
  function JoinedElements(items: seq<Json>, showNumber: real -> string): (r: string)
    ensures |items| == 1 && !items[0].JNull? ==> r == JsString(items[0], showNumber)
    decreases items, 0
  {
    if items == [] then ""
    else
      var first := if items[0].JNull? then "" else JsString(items[0], showNumber);
      if |items| == 1 then first else first + "," + JoinedElements(items[1..], showNumber)
  }

  /** The JSON body of a `POST /reports` response: `{ id }` on success,
      `{ detail }` on an error. The backend's own errors carry a string
      `detail`; its request-validation errors (status 422) carry a list of
      objects. */
  datatype SubmitBody = SubmitBody(id: Option<string>, detail: Option<Json>)

  /** The message a non-ok submit throws: the `String` of the body's `detail`
      when that is truthy, otherwise the status line. A body that is not JSON
      counts as `{}`. */
  function SubmitErrorMessage(status: int, body: Result<SubmitBody, string>, showNumber: real -> string): (msg: string)
    ensures body.Success? && body.value.detail.Some? && JsonTruthy(body.value.detail.value) ==>
      msg == JsString(body.value.detail.value, showNumber)
    ensures body.Success? && body.value.detail.Some? && body.value.detail.value.JStr? && body.value.detail.value.s != "" ==>
      msg == body.value.detail.value.s
    ensures !(body.Success? && body.value.detail.Some? && JsonTruthy(body.value.detail.value)) ==>
      msg == HttpErrorMessage(status)
  {
    var errorData := if body.Success? then body.value else SubmitBody(None, None);
    if errorData.detail.Some? && JsonTruthy(errorData.detail.value) then JsString(errorData.detail.value, showNumber)
    else HttpErrorMessage(status)
  }

  /** A request-validation error (one object in the `detail` list, as the
      framework sends for a missing or ill-typed form field) reaches the user
      as `[object Object]`, and an empty `detail` list, which is truthy, as the
      empty message instead of the status line. */
  lemma ValidationErrorMessages(status: int, error: map<string, Json>, showNumber: real -> string)
    ensures SubmitErrorMessage(status, Success(SubmitBody(None, Some(JArr([JObj(error)])))), showNumber) == "[object Object]"
    ensures SubmitErrorMessage(status, Success(SubmitBody(None, Some(JArr([])))), showNumber) == ""
  {
  }

  /** `submitReport`: the request it sends and what it returns or throws. */
  method SubmitReport(baseUrl: string, data: ReportData, showNumber: real -> string,
                      outcome: FetchOutcome<SubmitBody>)
    returns (request: HttpRequest, r: Result<SubmitBody, string>)
    ensures request.httpMethod == "POST" && request.url == baseUrl + "/reports"
    ensures request.contentType == Some("multipart/form-data")
    ensures request.form == SentFields(data, showNumber, 12)
    ensures |request.form| >= 1 && request.form[0] == (IncidentTypeField, TextPart(data.incidentType)) && InFieldOrder(request.form)
    ensures outcome.NetworkError? ==> r == Failure(outcome.message)
    ensures outcome.Responded? && !IsOk(outcome.status) ==>
      r == Failure(SubmitErrorMessage(outcome.status, outcome.body, showNumber))
    ensures outcome.Responded? && IsOk(outcome.status) ==> r == outcome.body
  {
    var form := BuildReportForm(data, showNumber);
    request := HttpRequest("POST", baseUrl + "/reports", Some("multipart/form-data"), form);
    match outcome
    case NetworkError(msg) =>
      r := Failure(msg);
    case Responded(status, body) =>
      if !IsOk(status) {
        r := Failure(SubmitErrorMessage(status, body, showNumber));
      } else {
        r := body;
      }
  }

  // ---------------------------------------------------------------------------
  // getReports, getReportById, checkConnection
  // ---------------------------------------------------------------------------

  /** A report's `location` as JSON: a string, an object (possibly with a
      `coordinates` array), or anything else (null, a number, absent). */
  datatype JsonLocation = LocationText(text: string) | LocationObject(coordinates: Option<seq<real>>) | LocationOther

  /** A report record as the backend returns it; `mongoId` is its `_id`. */
  datatype ApiRecord = ApiRecord(
    id: Option<string>,
    mongoId: Option<string>,
    incidentType: Option<string>,
    description: Option<string>,
    location: JsonLocation,
    createdAt: Option<string>)

  /** The JSON body of `GET /reports`: `null` or an array of records. */
  datatype RecordList = NullList | Records(records: seq<ApiRecord>)

  /** `getReports`: builds the URL step by step, then fetches it. */
  method GetReports(baseUrl: string, skip: int, limit: int, userId: Option<string>,
                    outcome: FetchOutcome<RecordList>)
    returns (url: string, r: Result<RecordList, string>)
    ensures url == baseUrl + "/reports?skip=" + IntToString(skip) + "&limit=" + IntToString(limit)
                   + (if Truthy(userId) then "&user_id=" + EncodeUriComponent(userId.value) else "")
    ensures outcome.NetworkError? ==> r == Failure(outcome.message)
    ensures outcome.Responded? && !IsOk(outcome.status) ==> r == Failure(HttpErrorMessage(outcome.status))
    ensures outcome.Responded? && IsOk(outcome.status) ==> r == outcome.body
  {
    url := baseUrl + "/reports?skip=" + IntToString(skip) + "&limit=" + IntToString(limit);
    if Truthy(userId) {
      url := url + "&user_id=" + EncodeUriComponent(userId.value);
    }
    match outcome
    case NetworkError(msg) =>
      r := Failure(msg);
    case Responded(status, body) =>
      if !IsOk(status) {
        r := Failure(HttpErrorMessage(status));
      } else {
        r := body;
      }
  }

  /** The user id cannot add or end a query parameter: after `&user_id=` the
      URL holds no `&`, `=`, `#` or `?`. */
  lemma UserIdCannotInjectParameters(baseUrl: string, skip: int, limit: int, userId: Option<string>, u: string)
    requires Truthy(userId)
    requires u == baseUrl + "/reports?skip=" + IntToString(skip) + "&limit=" + IntToString(limit) + "&user_id="
    ensures forall i :: |u| <= i < |u + EncodeUriComponent(userId.value)| ==>
      (u + EncodeUriComponent(userId.value))[i] !in {'&', '=', '#', '?'}
  {
    var e := EncodeUriComponent(userId.value);
    forall i | |u| <= i < |u + e| ensures (u + e)[i] !in {'&', '=', '#', '?'} {
      assert (u + e)[i] == e[i - |u|];
    }
  }

  /** `getReportById`: 404 is "Report not found"; any other non-ok status is the
      status line. The id goes into the path as it is. */
  method GetReportById(baseUrl: string, reportId: string, outcome: FetchOutcome<ApiRecord>)
    returns (url: string, r: Result<ApiRecord, string>)
    ensures url == baseUrl + "/reports/" + reportId
    ensures outcome.NetworkError? ==> r == Failure(outcome.message)
    ensures outcome.Responded? && outcome.status == 404 ==> r == Failure("Report not found")
    ensures outcome.Responded? && !IsOk(outcome.status) && outcome.status != 404 ==>
      r == Failure(HttpErrorMessage(outcome.status))
    ensures outcome.Responded? && IsOk(outcome.status) ==> r == outcome.body
  {
    url := baseUrl + "/reports/" + reportId;
    match outcome
    case NetworkError(msg) =>
      r := Failure(msg);
    case Responded(status, body) =>
      if !IsOk(status) {
        if status == 404 {
          r := Failure("Report not found");
        } else {
          r := Failure(HttpErrorMessage(status));
        }
      } else {
        r := body;
      }
  }

  /** The JSON body of `GET /health`. */
  datatype HealthBody = HealthBody(status: Option<string>)

  /** `checkConnection`. */
  method CheckConnection(baseUrl: string, outcome: FetchOutcome<HealthBody>)
    returns (url: string, r: Result<HealthBody, string>)
    ensures url == baseUrl + "/health"
    ensures outcome.NetworkError? ==> r == Failure(outcome.message)
    ensures outcome.Responded? && !IsOk(outcome.status) ==>
      r == Failure("Health check failed with status: " + IntToString(outcome.status))
    ensures outcome.Responded? && IsOk(outcome.status) ==> r == outcome.body
  {
    url := baseUrl + "/health";
    match outcome
    case NetworkError(msg) =>
      r := Failure(msg);
    case Responded(status, body) =>
      if !IsOk(status) {
        r := Failure("Health check failed with status: " + IntToString(status));
      } else {
        r := body;
      }
  }
}
