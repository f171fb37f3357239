/** The offline safety data of mobile/services/geminiSafetyService.ts: the table
    of five Jamaican locations, the lookup that matches a place name against it,
    and the fixed route advice. */
module SafetyService {
  import opened Wrappers
  import opened Text

  datatype SafetyLevel = Safe | Moderate | Unsafe

  datatype SafetyLocation = SafetyLocation(name: string, safetyLevel: SafetyLevel, description: string, tips: seq<string>)

  /** `jamaicaSafetyData`, as its entries are enumerated: in declaration order. */
  const SafetyData: seq<(string, SafetyLocation)> := [
    ("kingston", SafetyLocation("Kingston", Moderate,
      "Capital city with areas of varying safety. Tourist areas like New Kingston are generally safer than downtown Kingston.",
      ["Avoid downtown Kingston and Trench Town after dark", "Use registered taxis or car service",
       "Stay in well-lit, populated areas", "Be cautious when walking alone at night"])),
    ("montego bay", SafetyLocation("Montego Bay", Safe,
      "Popular tourist destination with generally good safety in resort areas.",
      ["Stick to tourist areas and resorts", "Avoid walking alone after dark in non-tourist areas",
       "Use hotel-arranged transportation", "Keep valuables secure"])),
    ("negril", SafetyLocation("Negril", Safe,
      "Tourist-friendly area with beautiful beaches and generally safe conditions.",
      ["Most areas are safe for tourists", "Avoid isolated beaches after dark",
       "Use reputable water sports operators", "Keep valuables secure at beach areas"])),
    ("ocho rios", SafetyLocation("Ocho Rios", Safe,
      "Popular resort town with good safety in tourist areas.",
      ["Safe in tourist zones around main attractions", "Avoid walking in residential areas after dark",
       "Use hotel-arranged transportation", "Be cautious with personal belongings"])),
    ("spanish town", SafetyLocation("Spanish Town", Moderate,
      "Historical city with varying safety conditions.",
      ["Avoid certain areas after dark", "Be especially vigilant during evening hours",
       "Use official transportation", "Stay in well-populated areas"]))
  ]

  /** Every entry carries four tips. */
  lemma EveryEntryHasFourTips()
    ensures forall i :: 0 <= i < |SafetyData| ==> |SafetyData[i].1.tips| == 4
  {
  }

  /** The lookup's normal form of a place name: lower-cased, then trimmed. */
  function Normalize(location: string): string {
    Trim(ToLower(location))
  }

  /** An entry matches when its key occurs in the normalised input or the input
      occurs in its lower-cased name. */
  predicate Matches(entry: (string, SafetyLocation), normalized: string) {
    Contains(normalized, entry.0) || Contains(ToLower(entry.1.name), normalized)
  }

  /** The first matching entry of `entries`, if any. */
  function FirstMatch(entries: seq<(string, SafetyLocation)>, normalized: string): (r: Option<SafetyLocation>)
    ensures r.None? <==> forall i :: 0 <= i < |entries| ==> !Matches(entries[i], normalized)
    ensures r.Some? ==> exists i :: (0 <= i < |entries| && Matches(entries[i], normalized) && r.value == entries[i].1
                                     && forall j :: 0 <= j < i ==> !Matches(entries[j], normalized))
  {
    if entries == [] then None
    else if Matches(entries[0], normalized) then Some(entries[0].1)
    else
      var r := FirstMatch(entries[1..], normalized);
      assert r.Some? ==> exists i :: (1 <= i < |entries| && Matches(entries[i], normalized) && r.value == entries[i].1
                                      && forall j :: 0 <= j < i ==> !Matches(entries[j], normalized)) by {
        if r.Some? {
          var k :| 0 <= k < |entries| - 1 && Matches(entries[1..][k], normalized) && r.value == entries[1..][k].1
            && forall j :: 0 <= j < k ==> !Matches(entries[1..][j], normalized);
          assert forall j :: 1 <= j < k + 1 ==> !Matches(entries[j], normalized) by {
            forall j | 1 <= j < k + 1 ensures !Matches(entries[j], normalized) {
              assert entries[j] == entries[1..][j - 1];
            }
          }
        }
      }
      r
  }

  /** The scan of `getSafetyInfoForLocation` over a table: the first entry, in
      order, that matches. */
  method FindFirstMatch(table: seq<(string, SafetyLocation)>, normalized: string) returns (r: Option<SafetyLocation>)
    ensures r == FirstMatch(table, normalized)
  {
    var i := 0;
    while i < |table|
      invariant 0 <= i <= |table|
      invariant FirstMatch(table, normalized) == FirstMatch(table[i..], normalized)
    {
      var (key, data) := table[i];
      if Contains(normalized, key) || Contains(ToLower(data.name), normalized) {
        return Some(data);
      }
      assert table[i..][1..] == table[i + 1..];
      i := i + 1;
    }
    return None;
  }

  /** `getSafetyInfoForLocation`: the first entry of the table matching the
      normalised input, or nothing; a result is always one of the five entries. */
  method GetSafetyInfoForLocation(location: string) returns (r: Option<SafetyLocation>)
    ensures r == FirstMatch(SafetyData, Normalize(location))
    ensures r.Some? ==> exists i :: 0 <= i < |SafetyData| && r.value == SafetyData[i].1
  {
    var normalizedLocation := Trim(ToLower(location));
    r := FindFirstMatch(SafetyData, normalizedLocation);
  }

  /** A blank input finds Kingston: it normalises to the empty string, which
      every name contains. */
  lemma BlankInputFindsKingston(location: string)
    requires IsBlank(location)
    ensures FirstMatch(SafetyData, Normalize(location)) == Some(SafetyData[0].1)
  {
    var lower := ToLower(location);
    assert IsBlank(lower);
    TrimEmptyIffBlank(lower);
    ContainsEmpty(ToLower(SafetyData[0].1.name));
  }

  /** The text before the bullet lines. */
  function RouteAdviceHeader(from: string, to: string): string {
    "For traveling from " + from + " to " + to + ", here are some safety considerations:\n\n"
  }

  /** The eight bullet lines, the same for every route. */
  const RouteAdviceBullets: string :=
    "• Use main roads and highways when possible\n"
    + "• Avoid isolated paths and unknown areas\n"
    + "• Travel during daylight hours when possible\n"
    + "• Use well-populated, well-lit routes\n"
    + "• Let someone know your travel plans\n"
    + "• Keep valuables secure and out of sight\n"
    + "• Use registered transportation services\n"
    + "• Stay alert and aware of your surroundings\n"

  /** `generateSafetyRouteAdvice`: a header naming both places, then the same
      eight bullet lines whatever the places are. */
  method GenerateSafetyRouteAdvice(from: string, to: string) returns (advice: string)
    ensures StartsWith(advice, RouteAdviceHeader(from, to))
    ensures advice[|RouteAdviceHeader(from, to)|..] == RouteAdviceBullets
  {
    advice := "For traveling from " + from + " to " + to + ", here are some safety considerations:\n\n";
    advice := advice + "• Use main roads and highways when possible\n";
    advice := advice + "• Avoid isolated paths and unknown areas\n";
    advice := advice + "• Travel during daylight hours when possible\n";
    advice := advice + "• Use well-populated, well-lit routes\n";
    advice := advice + "• Let someone know your travel plans\n";
    advice := advice + "• Keep valuables secure and out of sight\n";
    advice := advice + "• Use registered transportation services\n";
    advice := advice + "• Stay alert and aware of your surroundings\n";
    assert advice == RouteAdviceHeader(from, to) + RouteAdviceBullets;
  }
}
