/** The signed-in user and their reports, as kept by
    mobile/components/profile/UserProfileContext.tsx: a reducer over
    `{ user, reports, loading }` and a provider whose `fetchMyReports` maps the
    backend's records onto the local report shape. */
module UserProfileContext {
  import opened Wrappers
  import opened Text
  import opened Api

  datatype User = User(id: Option<string>, fullName: string, email: string, phone: Option<string>)

  /** A `Partial<User>`: `None` marks a key the caller left out. */
  datatype UserPatch = UserPatch(
    id: Option<string>,
    fullName: Option<string>,
    email: Option<string>,
    phone: Option<string>)

  /** The local report shape. Fields a mapped backend record does not set are
      `None`; `id` is `None` when neither `id` nor `_id` came back. */
  datatype Report = Report(
    id: Option<string>,
    title: string,
    description: string,
    location: string,
    date: string,
    time: Option<string>,
    incidentType: Option<string>,
    witnesses: Option<string>,
    anonymous: Option<bool>,
    name: Option<string>,
    phone: Option<string>,
    email: Option<string>,
    mediaUri: Option<string>,
    status: string,
    mediaUrl: Option<string>)

  datatype ProfileState = ProfileState(user: Option<User>, reports: seq<Report>, loading: bool)

  datatype ProfileAction =
    | SetUser(newUser: User)
    | UpdateUser(patch: UserPatch)
    | AddReport(report: Report)
    | SetReports(list: seq<Report>)
    | UpdateReport(replacement: Report)
    | SetLoading(isLoading: bool)
    | ClearUser

  /** `initialState`: nobody signed in, no reports, not loading. */
  const InitialState := ProfileState(None, [], false)

  /** `{ ...user, ...patch }`: every key the patch carries wins. */
  function PatchUser(u: User, patch: UserPatch): (r: User)
    ensures r.fullName == patch.fullName.GetOr(u.fullName) && r.email == patch.email.GetOr(u.email)
    ensures r.id == (if patch.id.Some? then patch.id else u.id)
    ensures r.phone == (if patch.phone.Some? then patch.phone else u.phone)
  {
    User(if patch.id.Some? then patch.id else u.id,
         patch.fullName.GetOr(u.fullName),
         patch.email.GetOr(u.email),
         if patch.phone.Some? then patch.phone else u.phone)
  }

  /** Applying the same patch twice is applying it once. */
  lemma PatchUserIdempotent(u: User, patch: UserPatch)
    ensures PatchUser(PatchUser(u, patch), patch) == PatchUser(u, patch)
  {
  }

  /** `reports.map(r => r.id === replacement.id ? replacement : r)`. */
  function ReplaceById(reports: seq<Report>, replacement: Report): (r: seq<Report>)
    ensures |r| == |reports|
    ensures forall i :: 0 <= i < |reports| ==>
      r[i] == (if reports[i].id == replacement.id then replacement else reports[i])
  {
    if reports == [] then []
    else [if reports[0].id == replacement.id then replacement else reports[0]] + ReplaceById(reports[1..], replacement)
  }

  /** Replacing a report whose id is not in the list changes nothing. */
  lemma ReplaceUnknownIdIsNoop(reports: seq<Report>, replacement: Report)
    requires forall i :: 0 <= i < |reports| ==> reports[i].id != replacement.id
    ensures ReplaceById(reports, replacement) == reports
  {
  }

  /** Replacing the same report twice is replacing it once. */
  lemma ReplaceByIdIdempotent(reports: seq<Report>, replacement: Report)
    ensures ReplaceById(ReplaceById(reports, replacement), replacement) == ReplaceById(reports, replacement)
  {
  }

  /** `UserProfileReducer`. */
  function Reduce(s: ProfileState, a: ProfileAction): (r: ProfileState)
    ensures a.SetUser? ==> r == s.(user := Some(a.newUser))
    ensures a.UpdateUser? ==>
      r == s.(user := if s.user.Some? then Some(PatchUser(s.user.value, a.patch)) else None)
    ensures a.AddReport? ==> r.reports == s.reports + [a.report] && r.user == s.user && r.loading == s.loading
    ensures a.SetReports? ==> r == s.(reports := a.list)
    ensures a.UpdateReport? ==> r == s.(reports := ReplaceById(s.reports, a.replacement))
    ensures a.SetLoading? ==> r == s.(loading := a.isLoading)
    ensures a.ClearUser? ==> r == InitialState
  {
    match a
    case SetUser(u) => s.(user := Some(u))
    case UpdateUser(patch) =>
      s.(user := match s.user { case Some(u) => Some(PatchUser(u, patch)) case None => None })
    case AddReport(report) => s.(reports := s.reports + [report])
    case SetReports(list) => s.(reports := list)
    case UpdateReport(replacement) => s.(reports := ReplaceById(s.reports, replacement))
    case SetLoading(b) => s.(loading := b)
    case ClearUser => InitialState
  }

  /** Only `SET_USER`, `UPDATE_USER` and `CLEAR_USER` touch the user; an update
      never signs anybody in. */
  lemma UserChangesOnlyThroughUserActions(s: ProfileState, a: ProfileAction)
    ensures !a.SetUser? && !a.UpdateUser? && !a.ClearUser? ==> Reduce(s, a).user == s.user
    ensures a.UpdateUser? ==> (Reduce(s, a).user.Some? <==> s.user.Some?)
  {
  }

  // ---------------------------------------------------------------------------
  // Mapping backend records onto the local report shape
  // ---------------------------------------------------------------------------

  /** `${coordinates[i]}`: the number, or `undefined` past the end of the array. */
  function ShowCoordinate(coordinates: seq<real>, i: nat, showNumber: real -> string): (r: string)
    ensures i < |coordinates| ==> r == showNumber(coordinates[i])
    ensures i >= |coordinates| ==> r == "undefined"
  {
    if i < |coordinates| then showNumber(coordinates[i]) else "undefined"
  }

  /** The `location` line of a mapped report: a string location as it is, a
      GeoJSON point as `latitude, longitude` (the second coordinate first),
      anything else as the empty string. */
  function MappedLocation(location: JsonLocation, showNumber: real -> string): (r: string)
    ensures location.LocationText? ==> r == location.text
    ensures location.LocationObject? && location.coordinates.Some? ==>
      var c := location.coordinates.value;
      r == ShowCoordinate(c, 1, showNumber) + ", " + ShowCoordinate(c, 0, showNumber)
    ensures location.LocationOther? || (location.LocationObject? && location.coordinates.None?) ==> r == ""
  {
    match location
    case LocationText(t) => t
    case LocationObject(coordinates) =>
      if coordinates.Some? then
        ShowCoordinate(coordinates.value, 1, showNumber) + ", " + ShowCoordinate(coordinates.value, 0, showNumber)
      else ""
    case LocationOther => ""
  }

  /** One record of `fetchMyReports`' map: the id (`id`, else `_id`), a title
      that falls back to "Report", a description that falls back to the empty
      string, the location line, the formatted creation date, and status
      "pending" whatever the backend says. */
  function MapRecord(r: ApiRecord, formatDate: string -> string, showNumber: real -> string): (m: Report)
    ensures m.id == (if Truthy(r.id) then r.id else r.mongoId)
    ensures m.title != "" && (Truthy(r.incidentType) ==> m.title == r.incidentType.value)
    ensures !Truthy(r.incidentType) ==> m.title == "Report"
    ensures m.description == OrElse(r.description, "")
    ensures m.location == MappedLocation(r.location, showNumber)
    ensures m.date == (if Truthy(r.createdAt) then formatDate(r.createdAt.value) else "")
    ensures m.status == "pending"
    ensures m.time.None? && m.incidentType.None? && m.witnesses.None? && m.anonymous.None?
    ensures m.name.None? && m.phone.None? && m.email.None? && m.mediaUri.None? && m.mediaUrl.None?
  {
    Report(
      if Truthy(r.id) then r.id else r.mongoId,
      OrElse(r.incidentType, "Report"),
      OrElse(r.description, ""),
      MappedLocation(r.location, showNumber),
      if Truthy(r.createdAt) then formatDate(r.createdAt.value) else "",
      None, None, None, None, None, None, None, None,
      "pending",
      None)
  }

  /** `(reports || []).map(...)`. */
  function MapRecords(list: RecordList, formatDate: string -> string, showNumber: real -> string): (r: seq<Report>)
    ensures list.NullList? ==> r == []
    ensures list.Records? ==>
      |r| == |list.records| && forall i :: 0 <= i < |r| ==> r[i] == MapRecord(list.records[i], formatDate, showNumber)
  {
    match list
    case NullList => []
    case Records(records) => seq(|records|, i requires 0 <= i < |records| => MapRecord(records[i], formatDate, showNumber))
  }

  /** Every fetched report shows as pending. */
  lemma FetchedReportsArePending(list: RecordList, formatDate: string -> string, showNumber: real -> string)
    ensures forall i :: 0 <= i < |MapRecords(list, formatDate, showNumber)| ==>
      MapRecords(list, formatDate, showNumber)[i].status == "pending"
  {
  }

  /** The provider: the reducer state and the API base URL its fetch uses. */
  class UserProfileProvider {
    var state: ProfileState
    const baseUrl: string

    /** Mounting the provider: `useReducer(UserProfileReducer, initialState)`. */
    constructor (baseUrl: string)
      ensures state == InitialState && this.baseUrl == baseUrl
    {
      state := InitialState;
      this.baseUrl := baseUrl;
    }

    /** `dispatch`: the reducer applied to the current state. */
    method Dispatch(a: ProfileAction)
      modifies this
      ensures state == Reduce(old(state), a)
    {
      state := Reduce(state, a);
    }

    /** `updateUser`: dispatches `UPDATE_USER`, then, if a user was signed in when
        the call was made, `SET_USER` with that user patched. The second dispatch
        repeats the first: the net effect is one `UPDATE_USER`. */
    method UpdateUser(patch: UserPatch)
      modifies this
      ensures state == Reduce(old(state), ProfileAction.UpdateUser(patch))
    {
      var before := state.user;
      Dispatch(ProfileAction.UpdateUser(patch));
      if before.Some? {
        Dispatch(SetUser(PatchUser(before.value, patch)));
      }
    }

    /** `fetchMyReports`: loading on, `getReports(0, 100, userId)`, the mapped
        list on success, and loading off on every path. A failed request leaves
        the previous reports in place. Returns the URL requested. */
    method FetchMyReports(userId: Option<string>, outcome: FetchOutcome<RecordList>,
                          formatDate: string -> string, showNumber: real -> string)
      returns (url: string)
      modifies this
      ensures url == baseUrl + "/reports?skip=0&limit=100"
                     + (if Truthy(userId) then "&user_id=" + EncodeUriComponent(userId.value) else "")
      ensures state.user == old(state.user) && !state.loading
      ensures outcome.Responded? && IsOk(outcome.status) && outcome.body.Success? ==>
        state.reports == MapRecords(outcome.body.value, formatDate, showNumber)
      ensures !(outcome.Responded? && IsOk(outcome.status) && outcome.body.Success?) ==>
        state.reports == old(state.reports)
    {
      Dispatch(SetLoading(true));
      ghost var loaded := state;
      var r;
      url, r := GetReports(baseUrl, 0, 100, userId, outcome);
      assert IntToString(0) == "0" && IntToString(100) == "100";
      ghost var query := "/reports?skip=" + IntToString(0) + "&limit=" + IntToString(100);
      assert query == "/reports?skip=0&limit=100";
      assert baseUrl + "/reports?skip=" + IntToString(0) + "&limit=" + IntToString(100) == baseUrl + query;
      if r.Success? {
        Dispatch(SetReports(MapRecords(r.value, formatDate, showNumber)));
      }
      assert r.Failure? ==> state == loaded;
      Dispatch(SetLoading(false));
    }
  }
}
