/**
 * `research_destination` (agent/agent.py:372-444): a first-match lookup of the
 * lower-cased destination against three known keys, where a key matches when
 * either string contains the other, a generic fallback for every other
 * destination, and the markdown report built from the record found.
 */
module Research {
  import opened Wrappers
  import opened Text

  /**
   * A field of a destination record: a list of entries, or a single string.
   * The report iterates over either, so a string yields one entry per character.
   */
  datatype Field = Items(entries: seq<string>) | Text(text: string)

  datatype Info = Info(
    bestTime: string,
    highlights: Field,
    food: Field,
    culture: Field,
    budget: string,
    transport: string)

  /** The known destinations, in the order the lookup tries them. */
  const Keys: seq<string> := ["tokyo", "paris", "bali"]

  const Database: map<string, Info> := map[
    "tokyo" := Info(
      "Spring (March-May) or Fall (September-November)",
      Items(["Senso-ji Temple", "Shibuya Crossing", "Tsukiji Fish Market", "Mount Fuji day trips"]),
      Items(["Sushi", "Ramen", "Tempura", "Wagyu beef", "Street food in Harajuku"]),
      Items(["Traditional tea ceremonies", "Kabuki theater", "Modern art museums", "Anime culture"]),
      "$$$ - Expensive but manageable with planning",
      "Excellent public transportation with JR Pass for tourists"),
    "paris" := Info(
      "Late spring (May-June) or early fall (September-October)",
      Items(["Eiffel Tower", "Louvre Museum", "Notre-Dame", "Champs-\U{C9}lys\U{E9}es"]),
      Items(["Croissants", "French wine", "Cheese", "Fine dining", "Caf\U{E9} culture"]),
      Items(["Art museums", "Historic architecture", "Fashion", "Literary history"]),
      "$$$ - Expensive, especially dining and accommodation",
      "Metro system covers the city well"),
    "bali" := Info(
      "Dry season (April-October)",
      Items(["Uluwatu Temple", "Rice terraces", "Beach clubs", "Volcano hikes"]),
      Items(["Nasi Goreng", "Satay", "Fresh tropical fruits", "Balinese cuisine"]),
      Items(["Hindu temples", "Traditional dance", "Art villages", "Spiritual retreats"]),
      "$$ - Very affordable for accommodation and food",
      "Scooter rental popular, private drivers available")
  ]

  /** The record for a destination none of the keys matches; three of its fields are plain strings. */
  function Fallback(destination: string): Info {
    Info(
      "Research local climate and peak seasons",
      Text("Popular attractions and landmarks in " + destination),
      Text("Local cuisine and specialties of " + destination),
      Text("Cultural experiences and traditions in " + destination),
      "Research local cost of living and tourist prices",
      "Local transportation options and tourist passes")
  }

  /** A key matches the lower-cased destination when either contains the other. */
  predicate Matches(key: string, destKey: string) {
    IsSubstring(key, destKey) || IsSubstring(destKey, key)
  }

  /** The first key from index `i` on that matches, if any. */
  function FirstMatch(keys: seq<string>, destKey: string, i: nat): (r: Option<nat>)
    requires i <= |keys|
    ensures r.Some? ==>
      i <= r.value < |keys| && Matches(keys[r.value], destKey) &&
      forall j :: i <= j < r.value ==> !Matches(keys[j], destKey)
    ensures r.None? <==> forall j :: i <= j < |keys| ==> !Matches(keys[j], destKey)
    decreases |keys| - i
  {
    if i == |keys| then None
    else if Matches(keys[i], destKey) then Some(i)
    else FirstMatch(keys, destKey, i + 1)
  }

  /** The record of the `k`-th known key. */
  function Record(k: nat): Info
    requires k < |Keys|
  {
    Database[Keys[k]]
  }

  /** The record the report is built from. */
  function Lookup(destination: string): Info {
    match FirstMatch(Keys, Lower(destination), 0)
    case Some(k) => Record(k)
    case None => Fallback(destination)
  }

  /** The bullet lines of a field: one per entry, or one per character of a string. */
  function Bullets(f: Field): (r: seq<string>)
    ensures f.Items? ==> |r| == |f.entries| && forall k :: 0 <= k < |r| ==> r[k] == "- " + f.entries[k]
    ensures f.Text? ==> |r| == |f.text| && forall k :: 0 <= k < |r| ==> r[k] == "- " + [f.text[k]]
  {
    match f
    case Items(entries) => seq(|entries|, k requires 0 <= k < |entries| => "- " + entries[k])
    case Text(text) => seq(|text|, k requires 0 <= k < |text| => "- " + [text[k]])
  }

  function ReportHeading(destination: string): string {
    "## \U{1F4CD} " + Title(destination) + " Research\n\n"
  }

  /** The markdown report below the heading. */
  function ReportBody(info: Info): string {
    "**\U{1F31F} Best Time to Visit:** " + info.bestTime + "\n\n"
      + "**\U{1F3DB}\U{FE0F} Must-See Highlights:**\n" + Join(Bullets(info.highlights), "\n") + "\n\n"
      + "**\U{1F37D}\U{FE0F} Food & Dining:**\n" + Join(Bullets(info.food), "\n") + "\n\n"
      + "**\U{1F3AD} Culture & Experiences:**\n" + Join(Bullets(info.culture), "\n") + "\n\n"
      + "**\U{1F4B0} Budget:** " + info.budget + "\n\n"
      + "**\U{1F68C} Transportation:** " + info.transport + "\n"
  }

  /** The report on a record: the heading naming the destination, then the record's body. */
  function Report(destination: string, info: Info): (r: string)
    ensures IsPrefix(ReportHeading(destination), r)
  {
    var heading := ReportHeading(destination);
    PrefixOfAppend(heading, heading, ReportBody(info));
    heading + ReportBody(info)
  }

  /** `research_destination`; the `interests` argument does not affect the result. */
  function ResearchDestination(destination: string, interests: string): (r: string)
    ensures IsPrefix(ReportHeading(destination), r)
  {
    Report(destination, Lookup(destination))
  }

  /** Key `k` is the first of `keys` to match `destKey`. */
  predicate IsFirstMatch(keys: seq<string>, destKey: string, k: nat) {
    k < |keys| && Matches(keys[k], destKey) && forall j :: 0 <= j < k ==> !Matches(keys[j], destKey)
  }

  /** The lookup uses the first matching key's record, and the fallback exactly when no key matches. */
  lemma LookupIsFirstMatch(destination: string)
    ensures (forall j :: 0 <= j < |Keys| ==> !Matches(Keys[j], Lower(destination)))
      ==> Lookup(destination) == Fallback(destination)
    ensures forall k :: IsFirstMatch(Keys, Lower(destination), k) ==> Lookup(destination) == Record(k)
  {
    var r := FirstMatch(Keys, Lower(destination), 0);
    forall k | IsFirstMatch(Keys, Lower(destination), k)
      ensures Lookup(destination) == Record(k)
    {
      assert r.Some?;
    }
  }

  /** The report is on the first matching key's record. */
  lemma ReportOnFirstMatch(destination: string, interests: string, k: nat)
    requires IsFirstMatch(Keys, Lower(destination), k)
    ensures ResearchDestination(destination, interests) == Report(destination, Record(k))
  {
    LookupIsFirstMatch(destination);
  }

  /** The report is on the fallback record when no key matches. */
  lemma ReportWithoutMatch(destination: string, interests: string)
    requires forall j :: 0 <= j < |Keys| ==> !Matches(Keys[j], Lower(destination))
    ensures ResearchDestination(destination, interests) == Report(destination, Fallback(destination))
  {
    assert FirstMatch(Keys, Lower(destination), 0).None?;
  }

  /** The empty destination is contained in "tokyo", so it gets Tokyo's record. */
  lemma EmptyDestinationIsTokyo()
    ensures Lookup("") == Database["tokyo"]
  {
    EmptyIsSubstring("tokyo");
    assert Lower("") == "";
    assert Matches(Keys[0], "");
  }

  /** "tokyo" is tried first, so a destination containing it in any letter case gets Tokyo's record. */
  lemma ContainingTokyoIsTokyo(destination: string)
    requires IsSubstring("tokyo", Lower(destination))
    ensures Lookup(destination) == Database["tokyo"]
  {
    assert IsSubstring(Keys[0], Lower(destination));
  }

  /** A destination that is exactly a key, in any letter case, gets that key's record. */
  lemma ExactKeyGetsItsRecord(destination: string, k: nat)
    requires k < |Keys| && Lower(destination) == Keys[k]
    ensures Lookup(destination) == Record(k)
  {
    var d := Lower(destination);
    assert Matches(Keys[k], d) by {
      assert IsPrefix(Keys[k], d);
    }
    forall j | 0 <= j < k
      ensures !Matches(Keys[j], d)
    {
      NotSubstringByChar(Keys[j], d, 0);
      NotSubstringByChar(d, Keys[j], 0);
    }
    LookupIsFirstMatch(destination);
  }

  /** For a destination no key matches, a string field of the fallback yields one bullet per character. */
  lemma FallbackBulletPerCharacter(destination: string)
    ensures var b := Bullets(Fallback(destination).highlights);
      var t := "Popular attractions and landmarks in " + destination;
      |b| == |t| && forall k :: 0 <= k < |t| ==> b[k] == ['-', ' ', t[k]]
  {
  }

  /** Each known record lists its fields as entries, so every bullet is a whole entry. */
  lemma KnownRecordsHaveEntries(k: nat)
    requires k < |Keys|
    ensures Keys[k] in Database
    ensures var info := Record(k);
      info.highlights.Items? && info.food.Items? && info.culture.Items?
      && |info.highlights.entries| == 4 && |info.culture.entries| == 4 && |info.food.entries| >= 4
  {
  }
}
