/** backend/db.py: the `citysafe` database (its `users` and `reports`
    collections and the GridFS file store, with the geospatial index on
    `reports.location`) and `oid_str`, which makes a stored document
    JSON-ready. Connecting is not modelled. */
module Db {
  import opened Wrappers
  import opened Bson

  // ---------------------------------------------------------------------------
  // oid_str
  // ---------------------------------------------------------------------------

  /** What `oid_str` returns for a document: `_id` as text and, when the
      document has a `media_id`, that id as text and the `media_url` it is
      served at. */
  function OidStrOf(d: Doc, repr: Value -> string): (r: Doc)
    requires "_id" in d
    ensures r.Keys == d.Keys + (if "media_id" in d then {"media_url"} else {})
    ensures r["_id"] == Str(ToStr(d["_id"], repr))
    ensures "media_id" in d ==>
      && r["media_id"] == Str(ToStr(d["media_id"], repr))
      && r["media_url"] == Str("/media/" + ToStr(d["media_id"], repr))
    ensures forall k :: k in d && k != "_id" && k != "media_id" && k != "media_url" ==> r[k] == d[k]
    ensures "media_id" !in d && "media_url" in d ==> r["media_url"] == d["media_url"]
  {
    var withId := d["_id" := Str(ToStr(d["_id"], repr))];
    if "media_id" in d then
      var mediaId := ToStr(d["media_id"], repr);
      withId["media_id" := Str(mediaId)]["media_url" := Str("/media/" + mediaId)]
    else withId
  }

  /** `oid_str` keeps every other key's value and adds no key but `media_url`. */
  lemma OidStrKeeps(d: Doc, k: string, repr: Value -> string)
    requires "_id" in d && k != "_id" && k != "media_id" && k != "media_url"
    ensures k in OidStrOf(d, repr) <==> k in d
    ensures k in d ==> OidStrOf(d, repr)[k] == d[k]
  {
  }

  /** Applying `oid_str` to its own result changes nothing: the ids are
      already text and the url is rebuilt from the same text. */
  lemma OidStrIdempotent(d: Doc, repr: Value -> string)
    requires "_id" in d
    ensures OidStrOf(OidStrOf(d, repr), repr) == OidStrOf(d, repr)
  {
    var once := OidStrOf(d, repr);
    var twice := OidStrOf(once, repr);
    assert twice.Keys == once.Keys;
    forall k | k in once
      ensures twice[k] == once[k]
    {
      if k == "media_url" && "media_id" !in d {
        assert "media_id" !in once;
      }
    }
  }

  /** A Python dict, updated in place by assignments to its keys. */
  class PyDict {
    var entries: Doc

    constructor (entries: Doc)
      ensures this.entries == entries
    {
      this.entries := entries;
    }
  }

  /** `oid_str(d)`: copies the dict, then rewrites `_id` (and `media_id` with
      its `media_url`) on the copy. The caller's dict is left as it was. */
  method OidStr(d: PyDict, repr: Value -> string) returns (r: PyDict)
    requires "_id" in d.entries
    ensures fresh(r) && r != d
    ensures r.entries == OidStrOf(d.entries, repr)
    ensures d.entries == old(d.entries)
  {
    r := new PyDict(d.entries);
    r.entries := r.entries["_id" := Str(ToStr(r.entries["_id"], repr))];
    if "media_id" in r.entries {
      r.entries := r.entries["media_id" := Str(ToStr(r.entries["media_id"], repr))];
      r.entries := r.entries["media_url" := Str("/media/" + ToStr(r.entries["media_id"], repr))];
    }
  }

  // ---------------------------------------------------------------------------
  // The database
  // ---------------------------------------------------------------------------

  /** An uploaded file as GridFS stores it. */
  datatype Upload = Upload(filename: string, contentType: Option<string>, contents: seq<bv8>)

  /** `{key: v}` as a MongoDB equality filter on one document. */
  predicate FieldIs(d: Doc, key: string, v: Value) {
    key in d && d[key] == v
  }

  /** `find_one({key: v})` in natural order: the position of the first
      document whose `key` equals `v`. */
  function FindFirst(docs: seq<Doc>, key: string, v: Value): (r: Option<nat>)
    ensures r.None? <==> forall i :: 0 <= i < |docs| ==> !FieldIs(docs[i], key, v)
    ensures r.Some? ==>
      && r.value < |docs| && FieldIs(docs[r.value], key, v)
      && forall i :: 0 <= i < r.value ==> !FieldIs(docs[i], key, v)
  {
    if docs == [] then None
    else if FieldIs(docs[0], key, v) then Some(0)
    else
      var rest := FindFirst(docs[1..], key, v);
      if rest.None? then None else Some(rest.value + 1)
  }

  /** Every document carries an object id, and no two share one. */
  predicate IdsValid(docs: seq<Doc>) {
    && (forall i :: 0 <= i < |docs| ==> "_id" in docs[i] && docs[i]["_id"].Oid?)
    && (forall i, j :: 0 <= i < j < |docs| ==> docs[i]["_id"] != docs[j]["_id"])
  }

  /** No document of `docs` has `id` as its `_id`. */
  predicate IdUnused(docs: seq<Doc>, id: Value) {
    forall i :: 0 <= i < |docs| ==> !FieldIs(docs[i], "_id", id)
  }

  /** With distinct ids, looking a document up by its own id finds it. */
  lemma FindById(docs: seq<Doc>, i: nat)
    requires IdsValid(docs) && i < |docs|
    ensures FindFirst(docs, "_id", docs[i]["_id"]) == Some(i)
  {
  }

  /** Appending a document with an unused id keeps the ids valid. */
  lemma AppendKeepsIdsValid(docs: seq<Doc>, d: Doc)
    requires IdsValid(docs) && "_id" in d && d["_id"].Oid? && IdUnused(docs, d["_id"])
    ensures IdsValid(docs + [d])
  {
  }

  /** Setting a field other than `_id` on one document keeps the ids valid. */
  lemma StampKeepsIdsValid(docs: seq<Doc>, k: nat, key: string, v: Value)
    requires IdsValid(docs) && k < |docs| && key != "_id"
    ensures IdsValid(docs[k := docs[k][key := v]])
  {
    var stamped := docs[k := docs[k][key := v]];
    assert forall i :: 0 <= i < |docs| ==> "_id" in stamped[i] && stamped[i]["_id"] == docs[i]["_id"];
  }

  /** Whether a 2dsphere index can key a document's `location`: `None` (or
      no key, which `Get` reads as `None`) is left out of the index; a GeoJSON
      Point needs two numbers, a longitude within [-180, 180] and a latitude
      within [-90, 90]. A str cannot be keyed, and neither can any other value
      (the routes store no other geometry), so MongoDB refuses the insert. */
  predicate GeoIndexable(location: Value) {
    match location
    case Null => true
    case Obj(f) =>
      && "type" in f && f["type"] == Str("Point") && "coordinates" in f
      && f["coordinates"].Arr? && |f["coordinates"].items| == 2
      && f["coordinates"].items[0].Num? && f["coordinates"].items[1].Num?
      && -180.0 <= f["coordinates"].items[0].x <= 180.0
      && -90.0 <= f["coordinates"].items[1].x <= 90.0
    case _ => false
  }

  /** `db.db`: the `users` and `reports` collections in natural order, and
      `db.fs`, the GridFS files with their ids. `geoIndexed` says whether the
      2dsphere index on `reports.location` exists: it is created once, when
      the module is imported, inside a `try` that ignores a failure. */
  class Database {
    var users: seq<Doc>
    var reports: seq<Doc>
    var files: seq<(Value, Upload)>
    var geoIndexed: bool

    /** The database as the import leaves it: empty collections, and the index
        when `indexCreated`. */
    constructor (indexCreated: bool)
      ensures users == [] && reports == [] && files == []
      ensures geoIndexed == indexCreated
      ensures Valid()
    {
      users, reports, files := [], [], [];
      geoIndexed := indexCreated;
    }

    /** MongoDB's guarantees: `_id` is present, an object id and unique per
        collection, and while the index exists every report's location is one
        it can key. */
    predicate Valid()
      reads this
    {
      && IdsValid(users) && IdsValid(reports)
      && (geoIndexed ==> forall i :: 0 <= i < |reports| ==> GeoIndexable(Get(reports[i], "location")))
    }
  }
}
