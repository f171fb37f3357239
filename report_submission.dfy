/** Where the mobile client and the backend meet: the multipart payload
    `submitReport` (mobile/services/api.ts) sends, read back by the form
    parameters of `create_report` (backend/routes/reports.py), and a stored
    report as the client's `fetchMyReports` renders it
    (mobile/components/profile/UserProfileContext.tsx). */
module ReportSubmission {
  import opened Wrappers
  import opened Bson
  import opened Db
  import Text
  import Api
  import ReportsRoutes
  import UserProfileContext
  import Seqs

  // ---------------------------------------------------------------------------
  // Reading the multipart form
  // ---------------------------------------------------------------------------

  /** The value sent under the wire name `key`, the first one if repeated
      (Starlette answers the last one; the client never repeats a name). */
  function FormGet(form: seq<Api.FormField>, key: string): Option<Api.FormValue> {
    if form == [] then None
    else if Api.WireName(form[0].0) == key then Some(form[0].1)
    else FormGet(form[1..], key)
  }

  /** Looking a field up by its wire name is looking it up by the field. */
  lemma {:induction false} FormGetIsLookup(form: seq<Api.FormField>, f: Api.FieldName)
    ensures FormGet(form, Api.WireName(f)) == Api.Lookup(form, f)
  {
    if form != [] {
      FormGetIsLookup(form[1..], f);
      Api.WireNameRoundTrip(f);
      Api.WireNameRoundTrip(form[0].0);
    }
  }

  /** A name no client field carries is never found. */
  lemma {:induction false} FormGetUnknownName(form: seq<Api.FormField>, key: string)
    requires Api.FieldNamed(key).None?
    ensures FormGet(form, key).None?
  {
    if form != [] {
      Api.WireNameRoundTrip(form[0].0);
      FormGetUnknownName(form[1..], key);
    }
  }

  /** Why a form is refused with 422: a required field is missing, or a value
      cannot be read as its parameter's type. The first such field, in
      parameter order, is named. */
  datatype FormError = Missing(field: string) | Invalid(field: string)

  /** An optional `str` parameter: absent or empty is `None`; a file is not a
      str. */
  function OptionalText(form: seq<Api.FormField>, key: string): (r: Result<Option<string>, FormError>)
    ensures r.Failure? <==> FormGet(form, key).Some? && FormGet(form, key).value.FilePart?
    ensures r.Failure? ==> r.error == Invalid(key)
    ensures r == Success(None) <==> FormGet(form, key).None? || FormGet(form, key) == Some(Api.TextPart(""))
    ensures r.Success? && r.value.Some? ==> FormGet(form, key) == Some(Api.TextPart(r.value.value)) && r.value.value != ""
  {
    var v := FormGet(form, key);
    if v.None? then Success(None)
    else if v.value.FilePart? then Failure(Invalid(key))
    else if v.value.text == "" then Success(None)
    else Success(Some(v.value.text))
  }

  /** A required `str` parameter: absent or empty is missing. */
  function RequiredText(form: seq<Api.FormField>, key: string): (r: Result<string, FormError>)
    ensures r.Success? ==> FormGet(form, key) == Some(Api.TextPart(r.value)) && r.value != ""
    ensures r.Failure? <==> FormGet(form, key).None? || FormGet(form, key).value.FilePart? || FormGet(form, key).value.text == ""
    ensures r.Failure? ==>
      r.error == if FormGet(form, key).Some? && FormGet(form, key).value.FilePart? then Invalid(key) else Missing(key)
  {
    var v := FormGet(form, key);
    if v.None? then Failure(Missing(key))
    else if v.value.FilePart? then Failure(Invalid(key))
    else if v.value.text == "" then Failure(Missing(key))
    else Success(v.value.text)
  }

  /** The texts a `bool` parameter accepts, in any case. */
  function ParseBool(s: string): (b: Option<bool>)
    ensures s == "true" ==> b == Some(true)
    ensures s == "false" ==> b == Some(false)
  {
    var t := Text.ToLower(s);
    assert s == "true" ==> t == "true";
    assert s == "false" ==> t == "false";
    if t in {"1", "on", "t", "true", "y", "yes"} then Some(true)
    else if t in {"0", "off", "f", "false", "n", "no"} then Some(false)
    else None
  }

  /** The two texts the client sends for a flag read back as that flag. */
  lemma ParseBoolReadsFlag(b: bool)
    ensures ParseBool(if b then "true" else "false") == Some(b)
  {
  }

  /** A `bool` parameter with a default. */
  function BoolParam(form: seq<Api.FormField>, key: string, default: bool): (r: Result<bool, FormError>)
    ensures FormGet(form, key).None? || FormGet(form, key) == Some(Api.TextPart("")) ==> r == Success(default)
    ensures forall t :: FormGet(form, key) == Some(Api.TextPart(t)) && t != "" ==>
      r == if ParseBool(t).Some? then Success(ParseBool(t).value) else Failure(Invalid(key))
    ensures FormGet(form, key).Some? && FormGet(form, key).value.FilePart? ==> r == Failure(Invalid(key))
  {
    var v := FormGet(form, key);
    if v.None? then Success(default)
    else if v.value.FilePart? then Failure(Invalid(key))
    else if v.value.text == "" then Success(default)
    else if ParseBool(v.value.text).Some? then Success(ParseBool(v.value.text).value)
    else Failure(Invalid(key))
  }

  /** An optional `float` parameter; the text-to-number reading is `parseFloat`. */
  function FloatParam(form: seq<Api.FormField>, key: string, parseFloat: string -> Option<real>): (r: Result<Option<real>, FormError>)
    ensures FormGet(form, key).None? || FormGet(form, key) == Some(Api.TextPart("")) ==> r == Success(None)
    ensures forall t :: FormGet(form, key) == Some(Api.TextPart(t)) && t != "" ==>
      r == if parseFloat(t).Some? then Success(parseFloat(t)) else Failure(Invalid(key))
    ensures FormGet(form, key).Some? && FormGet(form, key).value.FilePart? ==> r == Failure(Invalid(key))
  {
    var v := FormGet(form, key);
    if v.None? then Success(None)
    else if v.value.FilePart? then Failure(Invalid(key))
    else if v.value.text == "" then Success(None)
    else if parseFloat(v.value.text).Some? then Success(parseFloat(v.value.text))
    else Failure(Invalid(key))
  }

  /** An optional `UploadFile` parameter; the bytes at the part's uri are
      `readFile(uri)`. */
  function FileParam(form: seq<Api.FormField>, key: string, readFile: string -> seq<bv8>): (r: Result<Option<Upload>, FormError>)
    ensures r.Failure? <==> FormGet(form, key).Some? && FormGet(form, key).value.TextPart? && FormGet(form, key).value.text != ""
    ensures r.Failure? ==> r.error == Invalid(key)
    ensures forall uri, name, mimeType :: FormGet(form, key) == Some(Api.FilePart(uri, name, mimeType)) ==>
      r == Success(Some(Upload(name, Some(mimeType), readFile(uri))))
  {
    var v := FormGet(form, key);
    if v.None? then Success(None)
    else if v.value.TextPart? then (if v.value.text == "" then Success(None) else Failure(Invalid(key)))
    else Success(Some(Upload(v.value.name, Some(v.value.mimeType), readFile(v.value.uri))))
  }

  /** The parameters of `create_report`, read from a multipart form in
      declaration order, with the incident type read under `typeKey`. */
  function ReadReportForm(form: seq<Api.FormField>, typeKey: string, parseFloat: string -> Option<real>,
                          readFile: string -> seq<bv8>): (r: Result<ReportsRoutes.ReportForm, FormError>)
    ensures r.Success? ==>
      && RequiredText(form, typeKey) == Success(r.value.incidentType)
      && OptionalText(form, "date") == Success(r.value.date)
      && OptionalText(form, "time") == Success(r.value.time)
      && OptionalText(form, "location") == Success(r.value.location)
      && OptionalText(form, "description") == Success(r.value.description)
      && BoolParam(form, "anonymous", true) == Success(r.value.anonymous)
      && OptionalText(form, "name") == Success(r.value.name)
      && OptionalText(form, "phone") == Success(r.value.phone)
      && OptionalText(form, "email") == Success(r.value.email)
      && FloatParam(form, "lat", parseFloat) == Success(r.value.lat)
      && FloatParam(form, "lng", parseFloat) == Success(r.value.lng)
      && FileParam(form, "media", readFile) == Success(r.value.media)
    ensures RequiredText(form, typeKey).Failure? ==> r == Failure(RequiredText(form, typeKey).error)
  {
    var incidentType := RequiredText(form, typeKey);
    if incidentType.Failure? then Failure(incidentType.error) else
    var date := OptionalText(form, "date");
    if date.Failure? then Failure(date.error) else
    var time := OptionalText(form, "time");
    if time.Failure? then Failure(time.error) else
    var location := OptionalText(form, "location");
    if location.Failure? then Failure(location.error) else
    var description := OptionalText(form, "description");
    if description.Failure? then Failure(description.error) else
    var anonymous := BoolParam(form, "anonymous", true);
    if anonymous.Failure? then Failure(anonymous.error) else
    var name := OptionalText(form, "name");
    if name.Failure? then Failure(name.error) else
    var phone := OptionalText(form, "phone");
    if phone.Failure? then Failure(phone.error) else
    var email := OptionalText(form, "email");
    if email.Failure? then Failure(email.error) else
    var lat := FloatParam(form, "lat", parseFloat);
    if lat.Failure? then Failure(lat.error) else
    var lng := FloatParam(form, "lng", parseFloat);
    if lng.Failure? then Failure(lng.error) else
    var media := FileParam(form, "media", readFile);
    if media.Failure? then Failure(media.error) else
    Success(ReportsRoutes.ReportForm(incidentType.value, date.value, time.value, location.value,
      description.value, anonymous.value, name.value, phone.value, email.value, lat.value, lng.value, media.value))
  }

  /** When every parameter reads successfully, the form is those values. */
  lemma ReadsEveryParameter(form: seq<Api.FormField>, typeKey: string, parseFloat: string -> Option<real>,
                            readFile: string -> seq<bv8>, expected: ReportsRoutes.ReportForm)
    requires RequiredText(form, typeKey) == Success(expected.incidentType)
    requires OptionalText(form, "date") == Success(expected.date)
    requires OptionalText(form, "time") == Success(expected.time)
    requires OptionalText(form, "location") == Success(expected.location)
    requires OptionalText(form, "description") == Success(expected.description)
    requires BoolParam(form, "anonymous", true) == Success(expected.anonymous)
    requires OptionalText(form, "name") == Success(expected.name)
    requires OptionalText(form, "phone") == Success(expected.phone)
    requires OptionalText(form, "email") == Success(expected.email)
    requires FloatParam(form, "lat", parseFloat) == Success(expected.lat)
    requires FloatParam(form, "lng", parseFloat) == Success(expected.lng)
    requires FileParam(form, "media", readFile) == Success(expected.media)
    ensures ReadReportForm(form, typeKey, parseFloat, readFile) == Success(expected)
  {
  }

  /** `create_report`'s form as declared: the incident type is read under
      `incidentType`. */
  function ParseCreateReportForm(form: seq<Api.FormField>, parseFloat: string -> Option<real>,
                                 readFile: string -> seq<bv8>): (r: Result<ReportsRoutes.ReportForm, FormError>)
    ensures FormGet(form, "incidentType").None? ==> r == Failure(Missing("incidentType"))
  {
    ReadReportForm(form, "incidentType", parseFloat, readFile)
  }

  /** Every payload the mobile client builds is refused: it sends the type as
      `incident_type`, a name the backend never reads, so the required
      `incidentType` is always missing. */
  lemma ClientSubmissionAlwaysRejected(data: Api.ReportData, showNumber: real -> string,
                                       parseFloat: string -> Option<real>, readFile: string -> seq<bv8>)
    ensures ParseCreateReportForm(Api.SentFields(data, showNumber, 12), parseFloat, readFile)
            == Failure(Missing("incidentType"))
  {
    FormGetUnknownName(Api.SentFields(data, showNumber, 12), "incidentType");
  }

  /** `create_report`'s form reading the incident type under the name the
      client sends it. */
  function ParseClientReportForm(form: seq<Api.FormField>, parseFloat: string -> Option<real>,
                                 readFile: string -> seq<bv8>): (r: Result<ReportsRoutes.ReportForm, FormError>)
    ensures FormGet(form, "incident_type").None? ==> r == Failure(Missing("incident_type"))
  {
    ReadReportForm(form, "incident_type", parseFloat, readFile)
  }

  /** The client's optional text as the backend receives it: only non-empty
      text is sent. */
  function Sent(o: Option<string>): Option<string> {
    if Text.Truthy(o) then o else None
  }

  /** The client's optional coordinate as the backend receives it: zero is not
      sent. */
  function SentNumber(x: Option<real>): Option<real> {
    if Api.NumberTruthy(x) then x else None
  }

  /** The parameters the backend should see for a client report. */
  function ExpectedForm(data: Api.ReportData, readFile: string -> seq<bv8>): ReportsRoutes.ReportForm {
    ReportsRoutes.ReportForm(
      data.incidentType, Sent(data.date), Sent(data.time), Sent(data.location), Sent(data.description),
      data.anonymous.GetOr(true), Sent(data.name), Sent(data.phone), Sent(data.email),
      SentNumber(data.lat), SentNumber(data.lng),
      if data.media.Some? then Some(Upload(data.media.value.name, Some(data.media.value.mimeType), readFile(data.media.value.uri)))
      else None)
  }

  /** A form carries a client report when, under every field's wire name, it
      holds that field's value exactly when the client sends the field. */
  predicate CarriesReport(form: seq<Api.FormField>, data: Api.ReportData, showNumber: real -> string) {
    forall f: Api.FieldName :: FormGet(form, Api.WireName(f)) ==
      if Api.Present(data, f) then Some(Api.ValueOf(data, f, showNumber)) else None
  }

  /** The payload the client builds carries its report. */
  lemma SentFieldsCarryReport(data: Api.ReportData, showNumber: real -> string)
    ensures CarriesReport(Api.SentFields(data, showNumber, 12), data, showNumber)
  {
    var form := Api.SentFields(data, showNumber, 12);
    Api.SentFieldsMeaning(data, showNumber, 12);
    forall f: Api.FieldName ensures FormGet(form, Api.WireName(f)) ==
      if Api.Present(data, f) then Some(Api.ValueOf(data, f, showNumber)) else None
    {
      FormGetIsLookup(form, f);
      Api.FieldAtRank(f);
    }
  }

  /** An optional text the client sends only when non-empty is read back as
      that text, or `None`. */
  lemma TextParamReadBack(form: seq<Api.FormField>, data: Api.ReportData, showNumber: real -> string,
                          f: Api.FieldName, o: Option<string>)
    requires CarriesReport(form, data, showNumber)
    requires Api.Present(data, f) == Text.Truthy(o)
    requires Api.ValueOf(data, f, showNumber) == Api.TextPart(o.GetOr(""))
    ensures OptionalText(form, Api.WireName(f)) == Success(Sent(o))
  {
    assert FormGet(form, Api.WireName(f)) == if Api.Present(data, f) then Some(Api.ValueOf(data, f, showNumber)) else None;
  }

  /** A coordinate the client sends only when non-zero is read back as that
      number, given that its rendering is not empty and reads back as the
      number. */
  lemma NumberParamReadBack(form: seq<Api.FormField>, data: Api.ReportData, showNumber: real -> string,
                            parseFloat: string -> Option<real>, f: Api.FieldName, x: Option<real>)
    requires CarriesReport(form, data, showNumber)
    requires Api.Present(data, f) == Api.NumberTruthy(x)
    requires Api.ValueOf(data, f, showNumber) == Api.TextPart(showNumber(x.GetOr(0.0)))
    requires Api.NumberTruthy(x) ==> showNumber(x.value) != "" && parseFloat(showNumber(x.value)) == Some(x.value)
    ensures FloatParam(form, Api.WireName(f), parseFloat) == Success(SentNumber(x))
  {
    assert FormGet(form, Api.WireName(f)) == if Api.Present(data, f) then Some(Api.ValueOf(data, f, showNumber)) else None;
  }

  /** The incident type, always sent, is read back when non-empty. */
  lemma IncidentTypeReadBack(form: seq<Api.FormField>, data: Api.ReportData, showNumber: real -> string)
    requires CarriesReport(form, data, showNumber) && data.incidentType != ""
    ensures RequiredText(form, "incident_type") == Success(data.incidentType)
  {
    assert FormGet(form, Api.WireName(Api.IncidentTypeField)) == Some(Api.TextPart(data.incidentType));
  }

  /** The anonymity flag, sent as "true" or "false" whenever defined, is read
      back; when it is not sent the backend's default is true. */
  lemma AnonymousReadBack(form: seq<Api.FormField>, data: Api.ReportData, showNumber: real -> string)
    requires CarriesReport(form, data, showNumber)
    ensures BoolParam(form, "anonymous", true) == Success(data.anonymous.GetOr(true))
  {
    assert FormGet(form, Api.WireName(Api.AnonymousField)) ==
      if Api.Present(data, Api.AnonymousField) then Some(Api.ValueOf(data, Api.AnonymousField, showNumber)) else None;
    if data.anonymous.Some? {
      var sent := if data.anonymous.value then "true" else "false";
      assert FormGet(form, "anonymous") == Some(Api.TextPart(sent));
      assert sent != "";
      ParseBoolReadsFlag(data.anonymous.value);
    } else {
      assert FormGet(form, "anonymous").None?;
    }
  }

  /** The media file part is read back as an upload of the file's bytes. */
  lemma MediaReadBack(form: seq<Api.FormField>, data: Api.ReportData, showNumber: real -> string, readFile: string -> seq<bv8>)
    requires CarriesReport(form, data, showNumber)
    ensures FileParam(form, "media", readFile) == Success(ExpectedForm(data, readFile).media)
  {
    assert FormGet(form, Api.WireName(Api.MediaField)) ==
      if Api.Present(data, Api.MediaField) then Some(Api.ValueOf(data, Api.MediaField, showNumber)) else None;
  }

  /** The texts of a carried report read back. */
  lemma TextsReadBack(form: seq<Api.FormField>, data: Api.ReportData, showNumber: real -> string)
    requires CarriesReport(form, data, showNumber)
    ensures OptionalText(form, "date") == Success(Sent(data.date))
    ensures OptionalText(form, "time") == Success(Sent(data.time))
    ensures OptionalText(form, "location") == Success(Sent(data.location))
    ensures OptionalText(form, "description") == Success(Sent(data.description))
    ensures OptionalText(form, "name") == Success(Sent(data.name))
    ensures OptionalText(form, "phone") == Success(Sent(data.phone))
    ensures OptionalText(form, "email") == Success(Sent(data.email))
  {
    TextParamReadBack(form, data, showNumber, Api.DateField, data.date);
    TextParamReadBack(form, data, showNumber, Api.TimeField, data.time);
    TextParamReadBack(form, data, showNumber, Api.LocationField, data.location);
    TextParamReadBack(form, data, showNumber, Api.DescriptionField, data.description);
    TextParamReadBack(form, data, showNumber, Api.NameField, data.name);
    TextParamReadBack(form, data, showNumber, Api.PhoneField, data.phone);
    TextParamReadBack(form, data, showNumber, Api.EmailField, data.email);
  }

  /** A form carrying a client report, read under the client's names, gives
      back what the client meant. */
  lemma CarriedReportReadBack(form: seq<Api.FormField>, data: Api.ReportData, showNumber: real -> string,
                              parseFloat: string -> Option<real>, readFile: string -> seq<bv8>)
    requires CarriesReport(form, data, showNumber) && data.incidentType != ""
    requires Api.NumberTruthy(data.lat) ==> showNumber(data.lat.value) != "" && parseFloat(showNumber(data.lat.value)) == Some(data.lat.value)
    requires Api.NumberTruthy(data.lng) ==> showNumber(data.lng.value) != "" && parseFloat(showNumber(data.lng.value)) == Some(data.lng.value)
    ensures ParseClientReportForm(form, parseFloat, readFile) == Success(ExpectedForm(data, readFile))
  {
    IncidentTypeReadBack(form, data, showNumber);
    TextsReadBack(form, data, showNumber);
    AnonymousReadBack(form, data, showNumber);
    NumberParamReadBack(form, data, showNumber, parseFloat, Api.LatField, data.lat);
    NumberParamReadBack(form, data, showNumber, parseFloat, Api.LngField, data.lng);
    MediaReadBack(form, data, showNumber, readFile);
    ReadsEveryParameter(form, "incident_type", parseFloat, readFile, ExpectedForm(data, readFile));
  }

  /** With the names agreeing, the backend reads back what the client meant:
      every non-empty text, the anonymity flag (true when not given), the
      non-zero coordinates and the media file. */
  lemma ClientSubmissionRoundTrip(data: Api.ReportData, showNumber: real -> string,
                                  parseFloat: string -> Option<real>, readFile: string -> seq<bv8>)
    requires data.incidentType != ""
    requires Api.NumberTruthy(data.lat) ==> showNumber(data.lat.value) != "" && parseFloat(showNumber(data.lat.value)) == Some(data.lat.value)
    requires Api.NumberTruthy(data.lng) ==> showNumber(data.lng.value) != "" && parseFloat(showNumber(data.lng.value)) == Some(data.lng.value)
    ensures ParseClientReportForm(Api.SentFields(data, showNumber, 12), parseFloat, readFile)
            == Success(ExpectedForm(data, readFile))
  {
    SentFieldsCarryReport(data, showNumber);
    CarriedReportReadBack(Api.SentFields(data, showNumber, 12), data, showNumber, parseFloat, readFile);
  }

  // ---------------------------------------------------------------------------
  // A stored report as the client shows it
  // ---------------------------------------------------------------------------

  /** A JSON value read as a number, if it is one. */
  function AsNumber(v: Value): Option<real> {
    if v.Num? then Some(v.x) else None
  }

  /** A stored `location` as the client's JSON sees it: a str, an object with
      an all-numeric `coordinates` array (or without one), or anything else. */
  function JsonLocationOf(v: Value): Api.JsonLocation {
    match v
    case Str(s) => Api.LocationText(s)
    case Obj(fields) =>
      if "coordinates" in fields && fields["coordinates"].Arr? && Seqs.TryMap(fields["coordinates"].items, AsNumber).Some?
      then Api.LocationObject(Seqs.TryMap(fields["coordinates"].items, AsNumber))
      else Api.LocationObject(None)
    case _ => Api.LocationOther
  }

  /** A str-valued key as the client's JSON sees it. */
  function JsonText(d: Doc, key: string): Option<string> {
    if key in d && d[key].Str? then Some(d[key].s) else None
  }

  /** A JSON-ready report (the output of `oid_str`) as the client receives it;
      dates travel as ISO text. */
  function JsonRecordOf(d: Doc, isoformat: int -> string): Api.ApiRecord {
    Api.ApiRecord(
      JsonText(d, "id"),
      JsonText(d, "_id"),
      JsonText(d, "incidentType"),
      JsonText(d, "description"),
      if "location" in d then JsonLocationOf(d["location"]) else Api.LocationOther,
      if "createdAt" in d && d["createdAt"].Date? then Some(isoformat(d["createdAt"].t)) else None)
  }

  /** The JSON view of a listed report that was created with both
      coordinates: its Point, its id as text, its type. */
  lemma StoredPointJson(form: ReportsRoutes.ReportForm, now: int, fileId: string, newId: string,
                        repr: Value -> string)
    requires form.lat.Some? && form.lng.Some?
    ensures var json := OidStrOf(ReportsRoutes.StoredReport(form, now, fileId)["_id" := Oid(newId)], repr);
      && "location" in json && json["location"] == ReportsRoutes.Point(form.lng.value, form.lat.value)
      && "_id" in json && json["_id"] == Str(newId)
      && "incidentType" in json && json["incidentType"] == Str(form.incidentType)
      && "id" !in json
  {
    var d := ReportsRoutes.StoredReport(form, now, fileId);
    ReportsRoutes.StoredReportFields(form, now, fileId);
    var stored := d["_id" := Oid(newId)];
    assert stored["location"] == d["location"] && stored["incidentType"] == d["incidentType"];
    assert "id" !in stored;
    OidStrKeeps(stored, "location", repr);
    OidStrKeeps(stored, "incidentType", repr);
    OidStrKeeps(stored, "id", repr);
  }

  /** A document holding a Point as its location is seen by the client as
      that Point's coordinate list, in stored order. */
  lemma PointJsonRecord(d: Doc, isoformat: int -> string, lng: real, lat: real, id: string, incidentType: string)
    requires "location" in d && d["location"] == ReportsRoutes.Point(lng, lat)
    requires "_id" in d && d["_id"] == Str(id) && "id" !in d
    requires "incidentType" in d && d["incidentType"] == Str(incidentType)
    ensures JsonRecordOf(d, isoformat).location == Api.LocationObject(Some([lng, lat]))
    ensures JsonRecordOf(d, isoformat).id.None? && JsonRecordOf(d, isoformat).mongoId == Some(id)
    ensures JsonRecordOf(d, isoformat).incidentType == Some(incidentType)
  {
    var items := [Num(lng), Num(lat)];
    assert items[1..] == [Num(lat)] && items[1..][1..] == [];
    assert Seqs.TryMap([Num(lat)], AsNumber) == Some([lat]) by {
      assert Seqs.TryMap(items[1..][1..], AsNumber) == Some([]);
      assert [lat] + [] == [lat];
    }
    assert Seqs.TryMap(items, AsNumber) == Some([lng] + [lat]);
    assert [lng] + [lat] == [lng, lat];
  }

  /** The client shows a record holding a Point `[lng, lat]` as "lat, lng",
      under its `_id`, titled by its type. */
  lemma PointRecordShown(rec: Api.ApiRecord, formatDate: string -> string, showNumber: real -> string,
                         lng: real, lat: real, id: string, incidentType: string)
    requires rec.location == Api.LocationObject(Some([lng, lat]))
    requires rec.id.None? && rec.mongoId == Some(id) && rec.incidentType == Some(incidentType)
    ensures var shown := UserProfileContext.MapRecord(rec, formatDate, showNumber);
      && shown.location == showNumber(lat) + ", " + showNumber(lng)
      && shown.id == Some(id)
      && (incidentType != "" ==> shown.title == incidentType)
  {
  }

  /** A report created with both coordinates is stored as the Point
      `[lng, lat]` and shown by the client as "lat, lng": the two swaps cancel
      and the user sees the coordinates in the order entered. The card also
      carries the report's id and, for a non-empty type, the type as title. */
  lemma StoredPointShowsLatitudeFirst(form: ReportsRoutes.ReportForm, now: int, fileId: string, newId: string,
                                      repr: Value -> string, isoformat: int -> string,
                                      formatDate: string -> string, showNumber: real -> string)
    requires form.lat.Some? && form.lng.Some?
    ensures var stored := ReportsRoutes.StoredReport(form, now, fileId)["_id" := Oid(newId)];
      var shown := UserProfileContext.MapRecord(JsonRecordOf(OidStrOf(stored, repr), isoformat), formatDate, showNumber);
      && shown.location == showNumber(form.lat.value) + ", " + showNumber(form.lng.value)
      && shown.id == Some(newId)
      && (form.incidentType != "" ==> shown.title == form.incidentType)
  {
    var stored := ReportsRoutes.StoredReport(form, now, fileId)["_id" := Oid(newId)];
    var json := OidStrOf(stored, repr);
    StoredPointJson(form, now, fileId, newId, repr);
    PointJsonRecord(json, isoformat, form.lng.value, form.lat.value, newId, form.incidentType);
    PointRecordShown(JsonRecordOf(json, isoformat), formatDate, showNumber,
                     form.lng.value, form.lat.value, newId, form.incidentType);
  }
}
