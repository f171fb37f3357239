/** backend/routes/reports.py: the report document `create_report` stores,
    `list_reports` (newest first, at most one hundred), `get_report` with its
    two errors, `reports_geojson` and the order in which the router matches
    the four routes. The clock, the generated ids and the date formatting are
    parameters. */
module ReportsRoutes {
  import opened Wrappers
  import opened Text
  import opened Bson
  import opened Db
  import Seqs

  // ---------------------------------------------------------------------------
  // create_report
  // ---------------------------------------------------------------------------

  /** The parameters of `create_report` once the form is parsed: the required
      incident type, the optional strings, `anonymous` (default `True`), the
      optional coordinates and the optional upload. */
  datatype ReportForm = ReportForm(
    incidentType: string,
    date: Option<string>,
    time: Option<string>,
    location: Option<string>,
    description: Option<string>,
    anonymous: bool,
    name: Option<string>,
    phone: Option<string>,
    email: Option<string>,
    lat: Option<real>,
    lng: Option<real>,
    media: Option<Upload>)

  /** A GeoJSON Point, with its coordinates in the order section 3.1.1 of
      RFC 7946 prescribes: longitude, then latitude. */
  function Point(lng: real, lat: real): (p: Value)
    ensures p.Obj? && p.fields.Keys == {"type", "coordinates"}
    ensures p.fields["type"] == Str("Point")
    ensures p.fields["coordinates"] == Arr([Num(lng), Num(lat)])
  {
    Obj(map["type" := Str("Point"), "coordinates" := Arr([Num(lng), Num(lat)])])
  }

  /** The document `create_report` starts from: every form field under its own
      key (absent ones as `None`) and the creation time. */
  function BaseReport(form: ReportForm, now: int): (d: Doc)
    ensures d.Keys == {"incidentType", "date", "time", "location", "description", "anonymous",
                       "name", "phone", "email", "createdAt"}
    ensures d["incidentType"] == Str(form.incidentType) && d["anonymous"] == Bool(form.anonymous)
    ensures d["date"] == OptStr(form.date) && d["time"] == OptStr(form.time)
    ensures d["location"] == OptStr(form.location) && d["description"] == OptStr(form.description)
    ensures d["name"] == OptStr(form.name) && d["phone"] == OptStr(form.phone) && d["email"] == OptStr(form.email)
    ensures d["createdAt"] == Date(now)
  {
    map[]["incidentType" := Str(form.incidentType)]["date" := OptStr(form.date)]["time" := OptStr(form.time)]
         ["location" := OptStr(form.location)]["description" := OptStr(form.description)]
         ["anonymous" := Bool(form.anonymous)]["name" := OptStr(form.name)]["phone" := OptStr(form.phone)]
         ["email" := OptStr(form.email)]["createdAt" := Date(now)]
  }

  /** The document `create_report` inserts, before `insert_one` adds `_id`:
      the base document with its location replaced by a Point when both
      coordinates are given (the text location is kept otherwise), and the
      file id added when a file was uploaded. */
  function StoredReport(form: ReportForm, now: int, fileId: string): (d: Doc)
    ensures d.Keys == BaseReport(form, now).Keys + (if form.media.Some? then {"media_id"} else {})
    ensures forall k :: k in BaseReport(form, now) && k != "location" ==> d[k] == BaseReport(form, now)[k]
    ensures form.lat.Some? && form.lng.Some? ==> d["location"] == Point(form.lng.value, form.lat.value)
    ensures form.lat.None? || form.lng.None? ==> d["location"] == OptStr(form.location)
    ensures form.media.Some? ==> d["media_id"] == Oid(fileId)
  {
    var doc := BaseReport(form, now);
    assert "location" in doc && "media_id" !in doc;
    var located := if form.lat.Some? && form.lng.Some? then doc["location" := Point(form.lng.value, form.lat.value)] else doc;
    assert located.Keys == doc.Keys;
    if form.media.Some? then located["media_id" := Oid(fileId)] else located
  }

  /** The keys of a stored report the JSON view depends on: its type and
      location are there; it has no `id`, `_id` or `media_url` of its own. */
  lemma StoredReportFields(form: ReportForm, now: int, fileId: string)
    ensures var d := StoredReport(form, now, fileId);
      && "incidentType" in d && d["incidentType"] == Str(form.incidentType)
      && "location" in d && "createdAt" in d && d["createdAt"] == Date(now)
      && "id" !in d && "_id" !in d && "media_url" !in d
  {
    var keys := BaseReport(form, now).Keys;
    assert "id" !in keys && "_id" !in keys && "media_url" !in keys;
  }

  /** Whether the index accepts the report a form creates: with both
      coordinates, exactly when they lie on the globe; without them, exactly
      when no location text was sent (a text location, even an empty one,
      cannot be keyed). */
  lemma StoredLocationIndexable(form: ReportForm, now: int, fileId: string)
    ensures GeoIndexable(StoredReport(form, now, fileId)["location"]) <==>
      if form.lat.Some? && form.lng.Some?
      then -180.0 <= form.lng.value <= 180.0 && -90.0 <= form.lat.value <= 90.0
      else form.location.None?
  {
  }

  /** `create_report`: stores the upload (if any) in GridFS under `fileId`,
      then inserts the report under `newId` and answers with that id as text.
      While the geospatial index exists, MongoDB refuses a report whose
      location it cannot key: `insert_one` raises, the request ends with a
      server error, and the file already stored stays behind. */
  method CreateReport(db: Database, form: ReportForm, now: int, newId: string, fileId: string)
    returns (r: Result<Doc, HttpException>)
    requires db.Valid() && IdUnused(db.reports, Oid(newId))
    modifies db
    ensures db.Valid()
    ensures db.users == old(db.users) && db.geoIndexed == old(db.geoIndexed)
    ensures form.media.Some? ==> db.files == old(db.files) + [(Oid(fileId), form.media.value)]
    ensures form.media.None? ==> db.files == old(db.files)
    ensures r.Success? <==> !db.geoIndexed || GeoIndexable(StoredReport(form, now, fileId)["location"])
    ensures r.Success? ==>
      && db.reports == old(db.reports) + [StoredReport(form, now, fileId)["_id" := Oid(newId)]]
      && r.value == map["id" := Str(newId)]
    ensures r.Failure? ==> db.reports == old(db.reports) && r.error == InternalServerError
  {
    var doc := BaseReport(form, now);
    if form.lat.Some? && form.lng.Some? {
      doc := doc["location" := Point(form.lng.value, form.lat.value)];
    }
    if form.media.Some? {
      db.files := db.files + [(Oid(fileId), form.media.value)];
      doc := doc["media_id" := Oid(fileId)];
    }
    assert doc == StoredReport(form, now, fileId);
    if db.geoIndexed && !GeoIndexable(doc["location"]) {
      return Failure(InternalServerError);
    }
    // insert_one adds the generated `_id` to the inserted dict.
    doc := doc["_id" := Oid(newId)];
    AppendKeepsIdsValid(db.reports, doc);
    db.reports := db.reports + [doc];
    r := Success(map["id" := Str(newId)]);
  }

  // ---------------------------------------------------------------------------
  // list_reports
  // ---------------------------------------------------------------------------

  /** The creation time a document sorts by; a missing or non-date `createdAt`
      sorts below every date, as MongoDB orders `null` and the other kinds
      below dates. */
  function CreatedKey(d: Doc): Option<int> {
    if "createdAt" in d && d["createdAt"].Date? then Some(d["createdAt"].t) else None
  }

  /** `a` may come before `b` in descending `createdAt` order. */
  predicate NoOlder(a: Doc, b: Doc) {
    CreatedKey(b).None? || (CreatedKey(a).Some? && CreatedKey(a).value >= CreatedKey(b).value)
  }

  predicate NewestFirst(s: seq<Doc>) {
    forall i, j :: 0 <= i < j < |s| ==> NoOlder(s[i], s[j])
  }

  /** `d` inserted before the first element of `s` it is no older than. */
  function Insert(d: Doc, s: seq<Doc>): (r: seq<Doc>)
    ensures multiset(r) == multiset(s) + multiset{d}
  {
    if s == [] || NoOlder(d, s[0]) then [d] + s
    else
      assert s == [s[0]] + s[1..];
      [s[0]] + Insert(d, s[1..])
  }

  /** Inserting into a newest-first sequence keeps it newest first. */
  lemma {:induction false} InsertNewestFirst(d: Doc, s: seq<Doc>)
    requires NewestFirst(s)
    ensures NewestFirst(Insert(d, s))
  {
    if s != [] && !NoOlder(d, s[0]) {
      var rest := Insert(d, s[1..]);
      InsertNewestFirst(d, s[1..]);
      forall j | 0 <= j < |rest| ensures NoOlder(s[0], rest[j]) {
        assert rest[j] in multiset(rest);
        if rest[j] != d {
          assert rest[j] in multiset(s[1..]);
          var k :| 0 <= k < |s[1..]| && s[1..][k] == rest[j];
          assert s[k + 1] == rest[j];
        }
      }
      assert Insert(d, s) == [s[0]] + rest;
    }
  }

  /** `sort("createdAt", -1)`: the documents newest first. MongoDB leaves the
      order of equal keys unspecified; this definition keeps them in stored
      order, one of the orders the server may return. */
  function SortNewestFirst(s: seq<Doc>): (r: seq<Doc>)
    ensures multiset(r) == multiset(s)
    ensures |r| == |s|
  {
    if s == [] then []
    else
      assert s == [s[0]] + s[1..];
      Insert(s[0], SortNewestFirst(s[1..]))
  }

  /** The sort's result is newest first. */
  lemma {:induction false} SortIsNewestFirst(s: seq<Doc>)
    ensures NewestFirst(SortNewestFirst(s))
  {
    if s != [] {
      SortIsNewestFirst(s[1..]);
      InsertNewestFirst(s[0], SortNewestFirst(s[1..]));
    }
  }

  /** Every document carries an `_id`. */
  predicate AllHaveIds(docs: seq<Doc>) {
    forall d :: d in docs ==> "_id" in d
  }

  /** Sorting keeps the documents, so it keeps their ids. */
  lemma SortKeepsIds(s: seq<Doc>)
    requires AllHaveIds(s)
    ensures AllHaveIds(SortNewestFirst(s))
  {
    forall d | d in SortNewestFirst(s) ensures "_id" in d {
      assert d in multiset(SortNewestFirst(s));
    }
  }

  function Min(a: int, b: int): int {
    if a <= b then a else b
  }

  /** `[oid_str(d) for d in docs]`. */
  function MapOidStr(docs: seq<Doc>, repr: Value -> string): (r: seq<Doc>)
    requires AllHaveIds(docs)
    ensures |r| == |docs|
    ensures forall i :: 0 <= i < |docs| ==> r[i] == OidStrOf(docs[i], repr)
  {
    if docs == [] then [] else [OidStrOf(docs[0], repr)] + MapOidStr(docs[1..], repr)
  }

  /** `list_reports`: `oid_str` of the first hundred documents in descending
      `createdAt` order. */
  function ListReports(reports: seq<Doc>, repr: Value -> string): (r: seq<Doc>)
    requires AllHaveIds(reports)
    ensures |r| == Min(100, |reports|)
    ensures forall i :: 0 <= i < |r| ==>
      "_id" in SortNewestFirst(reports)[i] && r[i] == OidStrOf(SortNewestFirst(reports)[i], repr)
  {
    var sorted := SortNewestFirst(reports);
    SortKeepsIds(reports);
    MapOidStr(sorted[..Min(100, |sorted|)], repr)
  }

  /** `oid_str` leaves `createdAt` alone, so the order key is kept. */
  lemma OidStrKeepsCreatedKey(d: Doc, repr: Value -> string)
    requires "_id" in d
    ensures CreatedKey(OidStrOf(d, repr)) == CreatedKey(d)
  {
  }

  /** The listing is newest first, and none of the stored reports it leaves out
      is newer than any it returns: it is the hundred newest, drawn from the
      stored reports without loss or duplication. */
  lemma ListReportsAreTheNewest(reports: seq<Doc>, repr: Value -> string)
    requires AllHaveIds(reports)
    ensures NewestFirst(ListReports(reports, repr))
    ensures var sorted := SortNewestFirst(reports);
      && multiset(sorted) == multiset(reports)
      && forall i, j :: 0 <= i < |ListReports(reports, repr)| <= j < |sorted| ==> NoOlder(sorted[i], sorted[j])
  {
    var sorted := SortNewestFirst(reports);
    var r := ListReports(reports, repr);
    SortIsNewestFirst(reports);
    SortKeepsIds(reports);
    forall i | 0 <= i < |r| ensures CreatedKey(r[i]) == CreatedKey(sorted[i]) {
      assert sorted[i] in sorted;
      OidStrKeepsCreatedKey(sorted[i], repr);
    }
  }

  // ---------------------------------------------------------------------------
  // get_report
  // ---------------------------------------------------------------------------

  predicate IsHexChar(c: char) {
    ('0' <= c <= '9') || ('a' <= c <= 'f') || ('A' <= c <= 'F')
  }

  /** The text `ObjectId(...)` accepts: twenty-four hexadecimal digits, in
      either case. */
  predicate IsObjectIdText(s: string) {
    |s| == 24 && forall i :: 0 <= i < |s| ==> IsHexChar(s[i])
  }

  /** `get_report`: 400 "invalid id" for a text that is not an object id, 404
      "not found" when no report has that id, otherwise `oid_str` of the
      report, whose `_id` is the requested id in lower case. */
  function GetReport(reports: seq<Doc>, reportId: string, repr: Value -> string): (r: Result<Doc, HttpException>)
    requires AllHaveIds(reports)
    ensures !IsObjectIdText(reportId) ==> r == Failure(HttpException(400, "invalid id"))
    ensures IsObjectIdText(reportId) ==>
      (r.Failure? <==> forall i :: 0 <= i < |reports| ==> !FieldIs(reports[i], "_id", Oid(ToLower(reportId))))
    ensures r.Failure? && IsObjectIdText(reportId) ==> r.error == HttpException(404, "not found")
    ensures r.Success? ==> "_id" in r.value && r.value["_id"] == Str(ToLower(reportId))
  {
    if !IsObjectIdText(reportId) then Failure(HttpException(400, "invalid id"))
    else
      var found := FindFirst(reports, "_id", Oid(ToLower(reportId)));
      if found.None? then Failure(HttpException(404, "not found"))
      else
        assert reports[found.value] in reports;
        Success(OidStrOf(reports[found.value], repr))
  }

  /** A report appended under an id is found again under that id: its stored
      document, made JSON-ready. */
  lemma AppendedReportIsFound(reports: seq<Doc>, d: Doc, newId: string, repr: Value -> string)
    requires IdsValid(reports) && IdUnused(reports, Oid(newId))
    requires "_id" in d && d["_id"] == Oid(newId)
    requires IsObjectIdText(newId) && ToLower(newId) == newId
    ensures AllHaveIds(reports + [d])
    ensures GetReport(reports + [d], newId, repr) == Success(OidStrOf(d, repr))
  {
    var all := reports + [d];
    AppendKeepsIdsValid(reports, d);
    assert all[|reports|] == d;
    FindById(all, |reports|);
    assert AllHaveIds(all) by {
      forall x | x in all ensures "_id" in x {
        var i :| 0 <= i < |all| && all[i] == x;
      }
    }
  }

  /** A report created under an id is found again under that id: its stored
      document, made JSON-ready. A report the index refused is not found. */
  method CreateThenGet(db: Database, form: ReportForm, now: int, newId: string, fileId: string, repr: Value -> string)
    returns (created: Result<Doc, HttpException>, fetched: Result<Doc, HttpException>)
    requires db.Valid() && IdUnused(db.reports, Oid(newId))
    requires IsObjectIdText(newId) && ToLower(newId) == newId
    modifies db
    ensures created.Success? ==> fetched == Success(OidStrOf(StoredReport(form, now, fileId)["_id" := Oid(newId)], repr))
    ensures created.Failure? ==> fetched == Failure(HttpException(404, "not found"))
  {
    ghost var before := db.reports;
    created := CreateReport(db, form, now, newId, fileId);
    if created.Success? {
      AppendedReportIsFound(before, StoredReport(form, now, fileId)["_id" := Oid(newId)], newId, repr);
    } else {
      assert AllHaveIds(db.reports) by {
        forall x | x in db.reports ensures "_id" in x {
          var i :| 0 <= i < |db.reports| && db.reports[i] == x;
        }
      }
    }
    fetched := GetReport(db.reports, newId, repr);
  }

  // ---------------------------------------------------------------------------
  // reports_geojson
  // ---------------------------------------------------------------------------

  /** `{"location": {"$exists": True}}`: the key is present, whatever its value
      (`None` included). */
  predicate HasLocationKey(d: Doc) {
    "location" in d
  }

  /** `d["location"]["coordinates"]`: defined only when the location is a dict
      with a `coordinates` key; for a str, `None` or any other value the
      subscript raises. */
  function LocationCoordinates(d: Doc): Option<Value> {
    if "location" in d && d["location"].Obj? && "coordinates" in d["location"].fields
    then Some(d["location"].fields["coordinates"])
    else None
  }

  /** The `createdAt` property: the ISO text of a date, `None` for a falsy
      value; any other truthy value has no `isoformat` and raises. */
  function CreatedAtProperty(v: Value, isoformat: int -> string): Option<Value> {
    if !Bson.Truthy(v) then Some(Null)
    else if v.Date? then Some(Str(isoformat(v.t)))
    else None
  }

  /** One GeoJSON Feature. */
  function Feature(coordinates: Value, id: string, incidentType: Value, createdAt: Value): (f: Value)
    ensures f.Obj? && "type" in f.fields && f.fields["type"] == Str("Feature")
  {
    Obj(map[
      "type" := Str("Feature"),
      "geometry" := Obj(map["type" := Str("Point"), "coordinates" := coordinates]),
      "properties" := Obj(map["id" := Str(id), "incidentType" := incidentType, "createdAt" := createdAt])])
  }

  /** The Feature built for one document, or `None` where building it raises
      (a location without coordinates, a missing `_id`, a `createdAt` that is
      neither falsy nor a date). */
  function FeatureOf(d: Doc, repr: Value -> string, isoformat: int -> string): (f: Option<Value>)
    ensures f.Some? <==> "_id" in d && LocationCoordinates(d).Some? && CreatedAtProperty(Get(d, "createdAt"), isoformat).Some?
  {
    var coords := LocationCoordinates(d);
    var createdAt := CreatedAtProperty(Get(d, "createdAt"), isoformat);
    if coords.None? || "_id" !in d || createdAt.None? then None
    else Some(Feature(coords.value, ToStr(d["_id"], repr), Get(d, "incidentType"), createdAt.value))
  }

  /** `FeatureOf` with the formatting fixed, as one function of the document. */
  function FeatureBuilder(repr: Value -> string, isoformat: int -> string): Doc -> Option<Value> {
    d => FeatureOf(d, repr, isoformat)
  }

  /** The features of `docs`, in order, or `None` when any of them raises. */
  function FeaturesOf(docs: seq<Doc>, repr: Value -> string, isoformat: int -> string): Option<seq<Value>> {
    Seqs.TryMap(docs, FeatureBuilder(repr, isoformat))
  }

  /** A FeatureCollection. */
  function FeatureCollection(features: seq<Value>): Value {
    Obj(map["type" := Str("FeatureCollection"), "features" := Arr(features)])
  }

  /** The features of one more document: the earlier ones extended by its
      Feature, or a failure if either raises. */
  lemma FeaturesStep(docs: seq<Doc>, i: nat, repr: Value -> string, isoformat: int -> string)
    requires i < |docs|
    ensures FeaturesOf(docs[..i + 1], repr, isoformat) ==
      if FeaturesOf(docs[..i], repr, isoformat).Some? && FeatureOf(docs[i], repr, isoformat).Some?
      then Some(FeaturesOf(docs[..i], repr, isoformat).value + [FeatureOf(docs[i], repr, isoformat).value])
      else None
  {
    Seqs.TryMapSnoc(docs[..i], docs[i], FeatureBuilder(repr, isoformat));
    assert docs[..i + 1] == docs[..i] + [docs[i]];
  }

  /** A document whose Feature raises fails every longer run of the loop. */
  lemma FeaturesFailFrom(docs: seq<Doc>, i: nat, repr: Value -> string, isoformat: int -> string)
    requires i < |docs| && FeaturesOf(docs[..i + 1], repr, isoformat).None?
    ensures FeaturesOf(docs, repr, isoformat).None?
  {
    Seqs.TryMapFailsFromPrefix(docs, i + 1, FeatureBuilder(repr, isoformat));
  }

  /** `reports_geojson`: one Feature per report with a `location` key, built in
      cursor order; a report whose location is not a dict with coordinates
      ends the request with a server error. */
  method ReportsGeojson(reports: seq<Doc>, repr: Value -> string, isoformat: int -> string)
    returns (r: Result<Value, HttpException>)
    ensures var docs := Seqs.Filter(reports, HasLocationKey);
      && (FeaturesOf(docs, repr, isoformat).Some? ==> r == Success(FeatureCollection(FeaturesOf(docs, repr, isoformat).value)))
      && (FeaturesOf(docs, repr, isoformat).None? ==> r == Failure(InternalServerError))
  {
    var docs := Seqs.Filter(reports, HasLocationKey);
    var features: seq<Value> := [];
    var i := 0;
    while i < |docs|
      invariant 0 <= i <= |docs|
      invariant FeaturesOf(docs[..i], repr, isoformat) == Some(features)
    {
      var feature := FeatureOf(docs[i], repr, isoformat);
      FeaturesStep(docs, i, repr, isoformat);
      if feature.None? {
        FeaturesFailFrom(docs, i, repr, isoformat);
        return Failure(InternalServerError);
      }
      features := features + [feature.value];
      i := i + 1;
    }
    assert docs[..i] == docs;
    r := Success(FeatureCollection(features));
  }

  /** A report whose location is not a dict with coordinates makes the whole
      collection fail: `create_report` always writes the `location` key, so the
      query matches it, and subscripting a str or `None` with "coordinates"
      raises. */
  lemma LocationWithoutPointBreaksGeojson(reports: seq<Doc>, k: nat, repr: Value -> string, isoformat: int -> string)
    requires k < |reports| && "location" in reports[k] && LocationCoordinates(reports[k]).None?
    ensures FeaturesOf(Seqs.Filter(reports, HasLocationKey), repr, isoformat).None?
  {
    var docs := Seqs.Filter(reports, HasLocationKey);
    assert reports[k] in docs;
    var j :| 0 <= j < |docs| && docs[j] == reports[k];
    assert FeatureOf(docs[j], repr, isoformat).None?;
    Seqs.TryMapMeaning(docs, FeatureBuilder(repr, isoformat));
  }

  /** Even with the geospatial index in place, a report sent with neither
      coordinates nor location text is stored (its `None` location is simply
      not indexed) and from then on every `GET /reports/geojson` fails. */
  lemma UnlocatedReportBreaksGeojson(reports: seq<Doc>, form: ReportForm, now: int, newId: string, fileId: string,
                                     repr: Value -> string, isoformat: int -> string)
    requires form.lat.None? && form.location.None?
    ensures GeoIndexable(StoredReport(form, now, fileId)["location"])
    ensures FeaturesOf(Seqs.Filter(reports + [StoredReport(form, now, fileId)["_id" := Oid(newId)]], HasLocationKey),
                       repr, isoformat).None?
  {
    var d := StoredReport(form, now, fileId)["_id" := Oid(newId)];
    assert (reports + [d])[|reports|] == d;
    LocationWithoutPointBreaksGeojson(reports + [d], |reports|, repr, isoformat);
  }

  /** Every report created without both coordinates stores its location as a
      str or `None`, which the collection cannot subscript. */
  lemma ReportWithoutCoordinatesHasNoGeometry(form: ReportForm, now: int, fileId: string)
    requires form.lat.None? || form.lng.None?
    ensures LocationCoordinates(StoredReport(form, now, fileId)).None?
  {
  }

  /** Whether a document carries a Point-shaped location the collection can use. */
  predicate HasCoordinates(d: Doc) {
    LocationCoordinates(d).Some?
  }

  /** A document with an id, coordinates and a usable `createdAt` yields a
      Feature. */
  lemma BuildsFeature(d: Doc, repr: Value -> string, isoformat: int -> string)
    requires "_id" in d && HasCoordinates(d) && CreatedAtProperty(Get(d, "createdAt"), isoformat).Some?
    ensures FeatureOf(d, repr, isoformat).Some?
  {
  }

  /** `reports_geojson` as evidently intended: the reports without coordinates
      are skipped instead of failing the request. */
  method ReportsGeojsonSkippingUnlocated(reports: seq<Doc>, repr: Value -> string, isoformat: int -> string)
    returns (r: Result<Value, HttpException>)
    requires forall d :: d in reports ==> "_id" in d && CreatedAtProperty(Get(d, "createdAt"), isoformat).Some?
    ensures var docs := Seqs.Filter(reports, HasCoordinates);
      && FeaturesOf(docs, repr, isoformat).Some?
      && r == Success(FeatureCollection(FeaturesOf(docs, repr, isoformat).value))
  {
    var docs := Seqs.Filter(reports, HasCoordinates);
    var features: seq<Value> := [];
    var i := 0;
    while i < |docs|
      invariant 0 <= i <= |docs|
      invariant FeaturesOf(docs[..i], repr, isoformat) == Some(features)
    {
      assert docs[i] in reports && HasCoordinates(docs[i]);
      BuildsFeature(docs[i], repr, isoformat);
      var feature := FeatureOf(docs[i], repr, isoformat);
      FeaturesStep(docs, i, repr, isoformat);
      features := features + [feature.value];
      i := i + 1;
    }
    assert docs[..i] == docs;
    r := Success(FeatureCollection(features));
  }

  /** Created reports always have a date, so the corrected collection never
      fails on a database of created reports, and it holds one Feature for each
      report created with both coordinates. */
  lemma CreatedReportsHaveDates(form: ReportForm, now: int, fileId: string, isoformat: int -> string)
    ensures CreatedAtProperty(Get(StoredReport(form, now, fileId), "createdAt"), isoformat) == Some(Str(isoformat(now)))
    ensures form.lat.Some? && form.lng.Some? ==> HasCoordinates(StoredReport(form, now, fileId))
  {
  }

  // ---------------------------------------------------------------------------
  // Route matching
  // ---------------------------------------------------------------------------

  /** A path segment of a route: fixed text or a parameter. */
  datatype Segment = Literal(text: string) | Parameter

  datatype Endpoint = CreateReportEndpoint | ListReportsEndpoint | GetReportEndpoint | GeojsonEndpoint

  /** A route below the `/reports` prefix. */
  datatype Route = Route(httpMethod: string, path: seq<Segment>, endpoint: Endpoint)

  /** The routes in the order the module declares them. */
  const DeclaredRoutes: seq<Route> := [
    Route("POST", [], CreateReportEndpoint),
    Route("GET", [], ListReportsEndpoint),
    Route("GET", [Parameter], GetReportEndpoint),
    Route("GET", [Literal("geojson")], GeojsonEndpoint)
  ]

  predicate SegmentsMatch(pattern: seq<Segment>, segments: seq<string>) {
    |pattern| == |segments| && forall i :: 0 <= i < |pattern| ==> pattern[i].Parameter? || pattern[i].text == segments[i]
  }

  predicate RouteMatches(route: Route, httpMethod: string, segments: seq<string>) {
    route.httpMethod == httpMethod && SegmentsMatch(route.path, segments)
  }

  /** The position of the first declared route that matches the request. */
  function FirstRoute(routes: seq<Route>, httpMethod: string, segments: seq<string>): (r: Option<nat>)
    ensures r.None? <==> forall i :: 0 <= i < |routes| ==> !RouteMatches(routes[i], httpMethod, segments)
    ensures r.Some? ==>
      && r.value < |routes| && RouteMatches(routes[r.value], httpMethod, segments)
      && forall i :: 0 <= i < r.value ==> !RouteMatches(routes[i], httpMethod, segments)
  {
    if routes == [] then None
    else if RouteMatches(routes[0], httpMethod, segments) then Some(0)
    else
      var rest := FirstRoute(routes[1..], httpMethod, segments);
      if rest.None? then None else Some(rest.value + 1)
  }

  /** The router's choice: the endpoint of the first matching route. */
  function Resolve(routes: seq<Route>, httpMethod: string, segments: seq<string>): Option<Endpoint> {
    var i := FirstRoute(routes, httpMethod, segments);
    if i.Some? then Some(routes[i.value].endpoint) else None
  }

  /** `GET /reports/geojson` reaches `get_report` with "geojson" as the id,
      which is not an object id: the collection route can never be reached and
      the request is answered 400 "invalid id". */
  lemma GeojsonRouteShadowed(reports: seq<Doc>, repr: Value -> string)
    requires AllHaveIds(reports)
    ensures Resolve(DeclaredRoutes, "GET", ["geojson"]) == Some(GetReportEndpoint)
    ensures GetReport(reports, "geojson", repr) == Failure(HttpException(400, "invalid id"))
    ensures forall segments :: Resolve(DeclaredRoutes, "GET", segments) != Some(GeojsonEndpoint)
  {
    assert RouteMatches(DeclaredRoutes[2], "GET", ["geojson"]);
    forall segments ensures Resolve(DeclaredRoutes, "GET", segments) != Some(GeojsonEndpoint) {
      assert RouteMatches(DeclaredRoutes[3], "GET", segments) ==> RouteMatches(DeclaredRoutes[2], "GET", segments);
    }
  }

  /** The routes with the fixed path declared before the parameter. */
  const CorrectedRoutes: seq<Route> := [
    Route("POST", [], CreateReportEndpoint),
    Route("GET", [], ListReportsEndpoint),
    Route("GET", [Literal("geojson")], GeojsonEndpoint),
    Route("GET", [Parameter], GetReportEndpoint)
  ]

  /** With the fixed path first, `GET /reports/geojson` reaches the
      collection, and every other request resolves as before. */
  lemma CorrectedRoutesReachGeojson(httpMethod: string, segments: seq<string>)
    ensures Resolve(CorrectedRoutes, "GET", ["geojson"]) == Some(GeojsonEndpoint)
    ensures segments != ["geojson"] ==>
      Resolve(CorrectedRoutes, httpMethod, segments) == Resolve(DeclaredRoutes, httpMethod, segments)
  {
    assert RouteMatches(CorrectedRoutes[2], "GET", ["geojson"]);
    if segments != ["geojson"] {
      assert !RouteMatches(CorrectedRoutes[2], httpMethod, segments);
      assert CorrectedRoutes[3] == DeclaredRoutes[2] && CorrectedRoutes[2] == DeclaredRoutes[3];
    }
  }
}
