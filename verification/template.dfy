/**
 * `create_itinerary_template` (agent/agent.py:447-527): the duration capped at
 * two weeks, a header carrying the itinerary's JSON tag, one plain-text block
 * per day appended in a loop, and a footer carrying the checklist's JSON tag.
 */
module Template {
  import opened Text
  import opened Activities
  import opened Itinerary
  import Checklist

  /** Templates cover at most two weeks. */
  const MaxTemplateDays: int := 14

  /** The duration after the cap: longer trips are cut to 14 days, others are kept as given. */
  function Cap(durationDays: int): (r: int)
    ensures r <= MaxTemplateDays
    ensures durationDays <= MaxTemplateDays ==> r == durationDays
    ensures durationDays > MaxTemplateDays ==> r == MaxTemplateDays
  {
    if durationDays > MaxTemplateDays then MaxTemplateDays else durationDays
  }

  const DayPrefix: string := "### Day "
  const DaySuffix: string := "\nSummary: See structured itinerary above.\n\n---\n\n"

  /** The plain-text block of day `d`. */
  function DayBlock(d: nat): string {
    DayPrefix + NatToString(d) + DaySuffix
  }

  /** The blocks of days 1 to `n`, one after the other in ascending order. */
  function DaysText(n: nat): string {
    if n == 0 then "" else DaysText(n - 1) + DayBlock(n)
  }

  /** The first line of the template: the title-cased destination and the capped duration. */
  function HeadingLine(destination: string, capped: int): string {
    "## \U{1F5D3}\U{FE0F} " + Title(destination) + " Itinerary (" + IntToString(capped) + " Days)"
  }

  function Header(destination: string, capped: int, travelStyle: string, itineraryTag: string): string {
    HeadingLine(destination, capped) + ("\n\n*Travel Style: " + Title(travelStyle) + "*\n\n" + itineraryTag + "\n\n")
  }

  const TipsSection: string := "\n\n## \U{1F4A1} Tips & Notes\n*Add your own insights and discoveries here...*\n"

  function Footer(checklistTag: string): string {
    checklistTag + TipsSection
  }

  /** The template around the two JSON tags: header, the day blocks, footer. */
  function TemplateText(destination: string, capped: int, travelStyle: string, itineraryTag: string,
                        checklistTag: string): (r: string)
    ensures IsPrefix(HeadingLine(destination, capped), r) && IsSuffix(TipsSection, r)
  {
    var heading := HeadingLine(destination, capped);
    var header := Header(destination, capped, travelStyle, itineraryTag);
    var days := DaysText(DayCount(capped));
    PrefixOfAppend(heading, header, days + Footer(checklistTag));
    AppendAssoc(header, days, Footer(checklistTag));
    SuffixOfAppend(TipsSection, header + days, checklistTag);
    Header(destination, capped, travelStyle, itineraryTag) + DaysText(DayCount(capped)) + Footer(checklistTag)
  }

  /** The JSON tag of the itinerary the template embeds, generated for the capped duration. */
  function ItineraryTag(destination: string, durationDays: int, travelStyle: string, fetched: seq<Activity>,
                        toMoney: nat -> nat, serialize: ItineraryData -> string): string
  {
    JsonFence("itinerary", serialize(ItineraryOf(destination, Cap(durationDays), travelStyle, fetched, toMoney)))
  }

  /** The JSON tag of the trip checklist the template embeds. */
  function ChecklistTag(destination: string, serialize: Checklist.ChecklistData -> string): string {
    JsonFence("checklist", serialize(Checklist.ChecklistPayload(destination, "Trip")))
  }

  /**
   * Builds the template: caps the duration, generates the itinerary for the
   * capped duration, appends one block per day from 1 to the capped duration,
   * and closes with the checklist tag and the tips section.
   */
  method CreateItineraryTemplate(destination: string, durationDays: int, travelStyle: string, fetched: seq<Activity>,
                                 toMoney: nat -> nat, serializeItinerary: ItineraryData -> string,
                                 serializeChecklist: Checklist.ChecklistData -> string)
    returns (template: string)
    ensures template == TemplateText(destination, Cap(durationDays), travelStyle,
                                     ItineraryTag(destination, durationDays, travelStyle, fetched, toMoney,
                                                  serializeItinerary),
                                     ChecklistTag(destination, serializeChecklist))
  {
    var capped := durationDays;
    if capped > MaxTemplateDays {
      capped := MaxTemplateDays;
    }
    assert capped == Cap(durationDays);
    var _, itineraryTag := GenerateItinerary(destination, capped, travelStyle, fetched, toMoney, serializeItinerary);
    template := AppendDayBlocks(Header(destination, capped, travelStyle, itineraryTag), capped);
    var checklist := Checklist.GenerateChecklist(destination, "Trip", serializeChecklist);
    template := template + Footer(checklist.jsonTag);
  }

  /** The day loop: appends the blocks of days 1 to `capped`, one per iteration. */
  method AppendDayBlocks(header: string, capped: int) returns (template: string)
    ensures template == header + DaysText(DayCount(capped))
  {
    template := header;
    var day := 1;
    while day <= capped
      invariant 1 <= day && day - 1 <= DayCount(capped)
      invariant template == header + DaysText(day - 1)
    {
      AppendDayStep(header, day);
      template := template + DayBlock(day);
      day := day + 1;
    }
    assert day - 1 == DayCount(capped);
  }

  /** Appending the block of day `n` to the text of the days before it gives the text of `n` days. */
  lemma AppendDayStep(header: string, n: nat)
    requires n >= 1
    ensures header + DaysText(n - 1) + DayBlock(n) == header + DaysText(n)
  {
    AppendAssoc(header, DaysText(n - 1), DayBlock(n));
  }


  /** The text of the first `d` days is where the text of more days begins. */
  lemma {:induction false} DaysTextPrefix(d: nat, n: nat)
    requires d <= n
    ensures IsPrefix(DaysText(d), DaysText(n))
    decreases n
  {
    if d < n {
      DaysTextPrefix(d, n - 1);
    }
  }

  /** Different days have different blocks. */
  lemma DayBlockInjective(a: nat, b: nat)
    requires DayBlock(a) == DayBlock(b)
    ensures a == b
  {
    var sa, sb := NatToString(a), NatToString(b);
    assert |sa| == |sb|;
    assert DayBlock(a)[|DayPrefix|..|DayPrefix| + |sa|] == sa;
    assert DayBlock(b)[|DayPrefix|..|DayPrefix| + |sb|] == sb;
    NatToStringInjective(a, b);
  }

  /**
   * The template holds the block of day `d`, for each `d` from 1 to the capped
   * duration, right after the header and the blocks of the days before it.
   */
  lemma TemplateDayBlockAt(destination: string, capped: int, travelStyle: string, itineraryTag: string,
                           checklistTag: string, d: nat)
    requires 1 <= d <= capped
    ensures OccursAt(DayBlock(d), TemplateText(destination, capped, travelStyle, itineraryTag, checklistTag),
                     |Header(destination, capped, travelStyle, itineraryTag)| + |DaysText(d - 1)|)
  {
    DaysTextPrefix(d, DayCount(capped));
    BlockAt(Header(destination, capped, travelStyle, itineraryTag), DaysText(d - 1), DayBlock(d),
            DaysText(DayCount(capped)), Footer(checklistTag));
  }

  /** A block at the end of a prefix of the days' text sits right after what comes before it. */
  lemma BlockAt(header: string, before: string, block: string, days: string, footer: string)
    requires IsPrefix(before + block, days)
    ensures OccursAt(block, header + days + footer, |header| + |before|)
  {
    var t := header + days + footer;
    var offset := |header| + |before|;
    assert t[offset..offset + |block|] == days[|before|..|before| + |block|] == (before + block)[|before|..];
  }

  /** The blocks of two different days differ, so every day's block appears once. */
  lemma DayBlocksDistinct(d: nat, e: nat)
    ensures d != e ==> DayBlock(d) != DayBlock(e)
  {
    if DayBlock(d) == DayBlock(e) {
      DayBlockInjective(d, e);
    }
  }

  /** The embedded itinerary covers the capped duration: never more than 14 days. */
  lemma TemplateItineraryDays(destination: string, durationDays: int, travelStyle: string, fetched: seq<Activity>,
                              toMoney: nat -> nat)
    ensures var it := ItineraryOf(destination, Cap(durationDays), travelStyle, fetched, toMoney);
      |it.days| == DayCount(Cap(durationDays)) <= 14 &&
      it.durationDays == Cap(durationDays)
  {
    ItineraryShape(destination, Cap(durationDays), travelStyle, fetched, toMoney);
  }
}
