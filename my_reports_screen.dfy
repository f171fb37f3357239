/** The report list of mobile/components/profile/MyReportsScreen.tsx: what each
    card shows for a report of the profile store, the status label, the 'N/A'
    fallbacks, the contact rows and the choice between a video and an image
    preview by file extension. */
module MyReportsScreen {
  import opened Wrappers
  import opened Text
  import opened UserProfileContext
  import Api

  /** The extensions a video preview is chosen for. */
  const VideoExtensions: seq<string> :=
    [".mov", ".mp4", ".avi", ".webm", ".wmv", ".flv", ".f4v", ".f4p", ".f4a", ".f4b"]

  /** `extensions.some(ext => s.endsWith(ext))`. */
  predicate EndsWithAny(s: string, extensions: seq<string>)
    ensures EndsWithAny(s, extensions) <==> exists i :: 0 <= i < |extensions| && EndsWith(s, extensions[i])
  {
    if extensions == [] then false
    else EndsWith(s, extensions[0]) || EndsWithAny(s, extensions[1..])
  }

  /** `isVideoFile`: the lower-cased uri ends with one of the ten extensions. */
  predicate IsVideoFile(uri: string)
    ensures IsVideoFile(uri) <==> exists i :: 0 <= i < |VideoExtensions| && EndsWith(ToLower(uri), VideoExtensions[i])
  {
    EndsWithAny(ToLower(uri), VideoExtensions)
  }

  /** The classification ignores case. */
  lemma IsVideoFileIgnoresCase(uri: string)
    ensures IsVideoFile(uri) == IsVideoFile(ToLower(uri))
  {
    ToLowerIdempotent(uri);
  }

  /** An upper-case `.MP4` is a video. */
  lemma UpperCaseVideoExample()
    ensures IsVideoFile("clip.MP4")
  {
    var lower := ToLower("clip.MP4");
    assert lower == "clip.mp4";
    assert EndsWith(lower, VideoExtensions[1]);
  }

  /** A string whose last character differs from a suffix's last character
      does not end with it. */
  lemma LastCharRulesOutSuffix(s: string, suffix: string)
    requires |s| > 0 && |suffix| > 0 && s[|s| - 1] != suffix[|suffix| - 1]
    ensures !EndsWith(s, suffix)
  {
    if |suffix| <= |s| {
      assert s[|s| - |suffix|..][|suffix| - 1] == s[|s| - 1];
    }
  }

  /** A `.jpg` is not a video. */
  lemma ImageExample()
    ensures !IsVideoFile("photo.jpg")
  {
    var lower := ToLower("photo.jpg");
    assert lower[|lower| - 1] == 'g';
    forall i | 0 <= i < |VideoExtensions| ensures !EndsWith(lower, VideoExtensions[i]) {
      LastCharRulesOutSuffix(lower, VideoExtensions[i]);
    }
  }

  /** The status badge: Resolved, In Progress, or Pending for anything else. */
  function StatusLabel(status: string): (shown: string)
    ensures status == "resolved" ==> shown == "Resolved"
    ensures status == "in-progress" ==> shown == "In Progress"
    ensures status != "resolved" && status != "in-progress" ==> shown == "Pending"
  {
    if status == "resolved" then "Resolved"
    else if status == "in-progress" then "In Progress"
    else "Pending"
  }

  datatype MediaPreview = NoPreview | VideoPreview(uri: string) | ImagePreview(uri: string)

  /** The name, phone and email rows. */
  datatype ContactRows = ContactRows(name: string, phone: string, email: string)

  /** What one report card shows. An `undefined` incident type renders as
      nothing, here the empty string. */
  datatype Card = Card(
    title: string,
    statusLabel: string,
    dateLine: string,
    time: string,
    location: string,
    incidentType: string,
    witnesses: string,
    anonymous: string,
    contact: Option<ContactRows>,
    media: MediaPreview,
    description: string)

  /** The card of one report. */
  function CardOf(r: Report): (c: Card)
    ensures c.title == r.title && c.location == r.location && c.description == r.description
    ensures c.statusLabel == StatusLabel(r.status)
    ensures c.time == OrElse(r.time, "N/A") && c.dateLine == r.date + " at " + c.time
    ensures c.witnesses == OrElse(r.witnesses, "N/A")
    ensures c.anonymous == (if r.anonymous == Some(true) then "Yes" else "No")
    ensures c.contact.Some? <==> r.anonymous != Some(true)
    ensures c.contact.Some? ==>
      c.contact.value == ContactRows(OrElse(r.name, "N/A"), OrElse(r.phone, "N/A"), OrElse(r.email, "N/A"))
    ensures c.media.NoPreview? <==> !Truthy(r.mediaUri)
    ensures Truthy(r.mediaUri) ==>
      c.media == (if IsVideoFile(r.mediaUri.value) then VideoPreview(r.mediaUri.value) else ImagePreview(r.mediaUri.value))
  {
    var time := OrElse(r.time, "N/A");
    Card(
      r.title,
      StatusLabel(r.status),
      r.date + " at " + time,
      time,
      r.location,
      r.incidentType.GetOr(""),
      OrElse(r.witnesses, "N/A"),
      if r.anonymous == Some(true) then "Yes" else "No",
      if r.anonymous != Some(true) then Some(ContactRows(OrElse(r.name, "N/A"), OrElse(r.phone, "N/A"), OrElse(r.email, "N/A")))
      else None,
      if !Truthy(r.mediaUri) then NoPreview
      else if IsVideoFile(r.mediaUri.value) then VideoPreview(r.mediaUri.value)
      else ImagePreview(r.mediaUri.value),
      r.description)
  }

  datatype ReportsView = NoReportsYet | Cards(cards: seq<Card>)

  /** The screen body: the empty-state message for no reports, otherwise one
      card per report, in order. */
  function RenderReports(reports: seq<Report>): (v: ReportsView)
    ensures reports == [] <==> v.NoReportsYet?
    ensures v.Cards? ==> |v.cards| == |reports| && forall i :: 0 <= i < |reports| ==> v.cards[i] == CardOf(reports[i])
  {
    if reports == [] then NoReportsYet
    else Cards(seq(|reports|, i requires 0 <= i < |reports| => CardOf(reports[i])))
  }

  /** A report fetched from the backend has no anonymity flag, so its card
      shows "Pending", "No" for anonymous, and the contact rows, all 'N/A'. */
  lemma FetchedReportCard(rec: Api.ApiRecord, formatDate: string -> string, showNumber: real -> string)
    ensures var c := CardOf(MapRecord(rec, formatDate, showNumber));
      && c.statusLabel == "Pending" && c.anonymous == "No"
      && c.contact == Some(ContactRows("N/A", "N/A", "N/A"))
      && c.time == "N/A" && c.witnesses == "N/A" && c.media == NoPreview
  {
  }
}
