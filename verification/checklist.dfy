/**
 * The trip checklist generator: a fixed three-section checklist value, its
 * title rule, the fenced JSON tag around the serialized payload, and the
 * plain markdown fallback built line by line (agent/agent.py:29-90).
 */
module Checklist {
  import opened Text

  datatype Item = Item(text: string, checked: bool)
  datatype Section = Section(title: string, items: seq<Item>)

  /** The payload the frontend renders; `kind` and `version` are its schema tag. */
  datatype ChecklistData = ChecklistData(
    kind: string,
    version: int,
    title: string,
    destination: string,
    context: string,
    sections: seq<Section>)

  /** What the generator returns: the markdown fallback, the JSON tag and the payload. */
  datatype Generated = Generated(markdown: string, jsonTag: string, data: ChecklistData)

  function Unchecked(labels: seq<string>): (items: seq<Item>)
    ensures |items| == |labels|
    ensures forall i :: 0 <= i < |items| ==> items[i].text == labels[i] && !items[i].checked
  {
    seq(|labels|, i requires 0 <= i < |labels| => Item(labels[i], false))
  }

  const BeforeYouGo: seq<string> := [
    "Book flights",
    "Reserve accommodation",
    "Check passport validity (>6 months)",
    "Apply for visa if needed",
    "Get travel insurance",
    "Notify bank of travel plans",
    "Check vaccination requirements"
  ]

  const PackAndPrepare: seq<string> := [
    "Pack according to weather",
    "Bring necessary adapters",
    "Download offline maps",
    "Learn basic local phrases",
    "Research local customs",
    "Exchange currency or get travel card"
  ]

  const DuringTrip: seq<string> := [
    "Check in for flights",
    "Confirm accommodations",
    "Keep important documents safe",
    "Stay hydrated and healthy"
  ]

  /** The three fixed sections, every item unchecked. */
  function DefaultSections(): (r: seq<Section>)
    ensures |r| == 3
    ensures r[0].title == "Before You Go" && |r[0].items| == 7
    ensures r[1].title == "Pack & Prepare" && |r[1].items| == 6
    ensures r[2].title == "During Trip" && |r[2].items| == 4
    ensures forall s, i :: 0 <= s < |r| && 0 <= i < |r[s].items| ==> !r[s].items[i].checked
  {
    [ Section("Before You Go", Unchecked(BeforeYouGo)),
      Section("Pack & Prepare", Unchecked(PackAndPrepare)),
      Section("During Trip", Unchecked(DuringTrip)) ]
  }

  /** "{Context} Checklist", with the title-cased destination in front when one is given. */
  function ChecklistTitle(destination: string, context: string): string {
    if destination == "" then Title(context) + " Checklist"
    else Title(destination) + " " + Title(context) + " Checklist"
  }

  const Heading: string := "## \U{2705} "
  const SectionPrefix: string := "\n### "
  const ItemPrefix: string := "- [ ] "

  function ItemLines(items: seq<Item>): (r: seq<string>)
    ensures |r| == |items|
    ensures forall j :: 0 <= j < |items| ==> r[j] == ItemPrefix + items[j].text
  {
    seq(|items|, j requires 0 <= j < |items| => ItemPrefix + items[j].text)
  }

  /** One section of the markdown fallback: its heading line, then one line per item. */
  function SectionBlock(s: Section): seq<string> {
    [SectionPrefix + s.title] + ItemLines(s.items)
  }

  function SectionLines(secs: seq<Section>): seq<string> {
    if secs == [] then [] else SectionLines(secs[..|secs| - 1]) + SectionBlock(secs[|secs| - 1])
  }

  /** The lines of the markdown fallback, before they are joined with newlines. */
  function MarkdownLines(title: string, secs: seq<Section>): seq<string> {
    [Heading + title] + SectionLines(secs)
  }

  function ItemCount(secs: seq<Section>): nat {
    if secs == [] then 0 else ItemCount(secs[..|secs| - 1]) + |secs[|secs| - 1].items|
  }

  /** The payload: schema tag, title, the inputs as given and the fixed sections. */
  function ChecklistPayload(destination: string, context: string): ChecklistData {
    ChecklistData("checklist", 1, ChecklistTitle(destination, context), destination, context, DefaultSections())
  }

  /** The checklist as the agent builds it, with `serialize` standing for `json.dumps`. */
  function ChecklistOf(destination: string, context: string, serialize: ChecklistData -> string): (r: Generated)
    ensures r.data.title == ChecklistTitle(destination, context) && r.data.sections == DefaultSections()
    ensures IsPrefix(Heading + r.data.title, r.markdown)
    ensures r.jsonTag == JsonFence("checklist", serialize(r.data))
  {
    var data := ChecklistPayload(destination, context);
    JoinStartsWithFirst(MarkdownLines(data.title, data.sections), "\n");
    Generated(Join(MarkdownLines(data.title, data.sections), "\n"), JsonFence("checklist", serialize(data)), data)
  }

  /**
   * Builds the markdown fallback by appending one line per section heading and
   * one per item, in order, and joins the lines with newlines.
   */
  method GenerateChecklist(destination: string, context: string, serialize: ChecklistData -> string)
    returns (g: Generated)
    ensures g == ChecklistOf(destination, context, serialize)
    ensures g.data.title == ChecklistTitle(destination, context)
    ensures g.markdown == Join(MarkdownLines(g.data.title, DefaultSections()), "\n")
    ensures g.jsonTag == JsonFence("checklist", serialize(g.data))
  {
    var title := ChecklistTitle(destination, context);
    var sections := DefaultSections();
    var data := ChecklistData("checklist", 1, title, destination, context, sections);
    var jsonTag := JsonFence("checklist", serialize(data));
    var lines := [Heading + title];
    for i := 0 to |sections|
      invariant lines == [Heading + title] + SectionLines(sections[..i])
    {
      var s := sections[i];
      lines := lines + [SectionPrefix + s.title];
      ghost var before := lines;
      ItemLinesStep(before, s.items, 0);
      for j := 0 to |s.items|
        invariant lines == before + ItemLines(s.items[..j])
      {
        ItemLinesStep(before, s.items, j + 1);
        lines := lines + [ItemPrefix + s.items[j].text];
      }
      ItemLinesStep(before, s.items, |s.items|);
      SectionLinesStep([Heading + title], sections, i);
    }
    assert sections[..|sections|] == sections;
    g := Generated(Join(lines, "\n"), jsonTag, data);
  }

  /** The lines so far followed by the first `j` item lines, one more item at a time. */
  lemma ItemLinesStep(before: seq<string>, items: seq<Item>, j: nat)
    requires j <= |items|
    ensures j == 0 ==> before + ItemLines(items[..j]) == before
    ensures j > 0 ==> before + ItemLines(items[..j]) == before + ItemLines(items[..j - 1]) + [ItemPrefix + items[j - 1].text]
    ensures j == |items| ==> items[..j] == items
  {
    if j > 0 {
      assert ItemLines(items[..j]) == ItemLines(items[..j - 1]) + [ItemPrefix + items[j - 1].text];
    }
    if j == |items| {
      assert items[..j] == items;
    }
  }

  /** The lines of one more section follow the lines of the sections before it. */
  lemma SectionLinesStep(head: seq<string>, secs: seq<Section>, i: nat)
    requires i < |secs|
    ensures head + SectionLines(secs[..i + 1])
      == head + SectionLines(secs[..i]) + [SectionPrefix + secs[i].title] + ItemLines(secs[i].items)
  {
    assert secs[..i + 1][..i] == secs[..i];
  }

  /** The title rule: what follows the (optional) destination is the title-cased context and " Checklist". */
  lemma ChecklistTitleRule(destination: string, context: string)
    ensures destination == "" ==> ChecklistTitle(destination, context) == Title(context) + " Checklist"
    ensures destination != "" ==>
      ChecklistTitle(destination, context) == Title(destination) + " " + Title(context) + " Checklist"
    ensures |ChecklistTitle(destination, context)| ==
      (if destination == "" then 0 else |destination| + 1) + |context| + |" Checklist"|
  {
  }

  lemma {:induction false} SectionLinesLength(secs: seq<Section>)
    ensures |SectionLines(secs)| == |secs| + ItemCount(secs)
    decreases |secs|
  {
    if secs != [] {
      SectionLinesLength(secs[..|secs| - 1]);
    }
  }

  /** The lines of a prefix of the sections are a prefix of the lines. */
  lemma {:induction false} SectionLinesPrefix(secs: seq<Section>, k: nat)
    requires k <= |secs|
    ensures SectionLines(secs[..k]) <= SectionLines(secs)
    decreases |secs|
  {
    if k < |secs| {
      var init := secs[..|secs| - 1];
      assert secs[..k] == init[..k];
      SectionLinesPrefix(init, k);
    } else {
      assert secs[..k] == secs;
    }
  }

  /**
   * Section `i` occupies the lines right after the lines of the sections
   * before it: first its heading, then its items in order.
   */
  lemma SectionLinesAt(secs: seq<Section>, i: nat, j: nat)
    requires i < |secs| && j < |secs[i].items|
    ensures |SectionLines(secs[..i])| + 1 + j < |SectionLines(secs)|
    ensures SectionLines(secs)[|SectionLines(secs[..i])|] == SectionPrefix + secs[i].title
    ensures SectionLines(secs)[|SectionLines(secs[..i])| + 1 + j] == ItemPrefix + secs[i].items[j].text
  {
    SectionLinesPrefix(secs, i + 1);
    assert secs[..i + 1][..i] == secs[..i];
    assert SectionLines(secs[..i + 1]) == SectionLines(secs[..i]) + SectionBlock(secs[i]);
  }

  /** The generated markdown: a heading line, then 3 section headings and 17 item lines. */
  lemma DefaultChecklistLines(title: string)
    ensures |MarkdownLines(title, DefaultSections())| == 21
    ensures MarkdownLines(title, DefaultSections())[0] == Heading + title
  {
    var secs := DefaultSections();
    SectionLinesLength(secs);
    assert secs[..3][..2] == secs[..2] && secs[..2][..1] == secs[..1] && secs[..1][..0] == [];
    assert ItemCount(secs[..1]) == 7;
    assert ItemCount(secs[..2]) == 13;
    assert secs[..3] == secs;
  }

}
