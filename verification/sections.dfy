/**
 * `add_planning_section` (agent/agent.py:587-709): a new section for the
 * planning document, chosen by an exact, case-sensitive match on the section
 * type. "checklist" gives the trip checklist's markdown followed by its JSON
 * tag; "budget", "packing", "research" and "contacts" give a fixed markdown
 * template under a heading naming the topic, or a default word when the topic
 * is empty; any other type gives a one-line heading and a placeholder.
 */
module Sections {
  import opened Wrappers
  import opened Text
  import Checklist

  /** The four section types with a fixed template. */
  datatype Kind = Budget | Packing | Research | Contacts

  /**
   * The heading of a template section is "## {symbol} {topic} {name}", with
   * `defaultTopic` standing in for an empty topic.
   */
  datatype Template = Template(symbol: string, defaultTopic: string, name: string)

  function TemplateOf(k: Kind): Template {
    match k
    case Budget => Template("\U{1F4B0}", "Trip", "Budget")
    case Packing => Template("\U{1F392}", "Trip", "Packing List")
    case Research => Template("\U{1F4DA}", "Destination", "Research Notes")
    case Contacts => Template("\U{1F4DE}", "Emergency", "Contacts")
  }

  /** The markdown below a template's heading. */
  function Body(k: Kind): string {
    match k
    case Budget => @"### Estimated Costs
| Category | Estimated Cost | Actual Cost | Notes |
|----------|---------------|-------------|-------|
| Flights | $XXX | | |
| Accommodation | $XXX | | |
| Food & Dining | $XXX | | |
| Transportation | $XXX | | |
| Activities | $XXX | | |
| Shopping | $XXX | | |
| Emergency Fund | $XXX | | |
| **Total** | **$XXX** | | |

### Money-Saving Tips
- 
- 
- 
"
    case Packing => @"### Essentials
- [ ] Passport/ID
- [ ] Travel insurance documents
- [ ] Flight confirmations
- [ ] Accommodation confirmations
- [ ] Phone & charger
- [ ] Medications

### Clothing
- [ ] Weather-appropriate clothes
- [ ] Comfortable walking shoes
- [ ] Light jacket/sweater
- [ ] Sleepwear
- [ ] Undergarments

### Personal Items
- [ ] Toiletries
- [ ] Sunscreen
- [ ] Sunglasses
- [ ] Camera
- [ ] Travel adapter
- [ ] First aid kit

### Optional
- [ ] Books/entertainment
- [ ] Snacks
- [ ] Gifts for locals
- [ ] Extra memory cards
"
    case Research => @"### Key Information
**Language:** 
**Currency:** 
**Time Zone:** 
**Climate:** 
**Local Customs:** 

### Must-Know Phrases
- Hello: 
- Thank you: 
- Excuse me: 
- Where is...?: 
- How much?: 

### Important Apps/Websites
- 
- 
- 

### Local Tips
- 
- 
- 
"
    case Contacts => @"### Emergency Services
**Local Emergency Number:** 
**Police:** 
**Medical:** 
**Fire:** 

### Embassy/Consulate
**Address:** 
**Phone:** 
**Email:** 

### Personal Contacts
**Travel Companions:** 
**Emergency Contact at Home:** 
**Accommodation:** 
**Local Guide/Contact:** 

### Important Numbers
**Bank/Credit Card:** 
**Travel Insurance:** 
**Airline:** 
"
  }

  /** The template kind of a section type, if it has one; the match is exact and case-sensitive. */
  function KindFor(sectionType: string): Option<Kind> {
    if sectionType == "budget" then Some(Budget)
    else if sectionType == "packing" then Some(Packing)
    else if sectionType == "research" then Some(Research)
    else if sectionType == "contacts" then Some(Contacts)
    else None
  }

  /** Every section type with its own content. */
  const SectionTypes: set<string> := {"checklist", "budget", "packing", "research", "contacts"}

  /** The first line of a template section. */
  function TemplateHeading(k: Kind, topic: string): string {
    var t := TemplateOf(k);
    "## " + t.symbol + " " + OrDefault(topic, t.defaultTopic) + " " + t.name
  }

  /** A heading, a blank line, then the body. */
  function WithBody(heading: string, body: string): string {
    heading + "\n\n" + body
  }

  function RenderTemplate(k: Kind, topic: string): string {
    WithBody(TemplateHeading(k, topic), Body(k))
  }

  /** The checklist section: the trip checklist for the topic, its markdown, a blank line, its JSON tag. */
  function ChecklistSection(topic: string, serialize: Checklist.ChecklistData -> string): string {
    var g := Checklist.ChecklistOf(topic, "Trip", serialize);
    WithBody(g.markdown, g.jsonTag)
  }

  const Placeholder: string := "\n\n*Add your content here...*"

  /** Any other section type: a level-one heading with the topic, or the title-cased type. */
  function DefaultSection(sectionType: string, topic: string): string {
    "# " + OrDefault(topic, Title(sectionType)) + Placeholder
  }

  /** `add_planning_section`, with `serialize` standing for `json.dumps` of the checklist payload. */
  function AddPlanningSection(sectionType: string, topic: string, serialize: Checklist.ChecklistData -> string)
    : (r: string)
    ensures sectionType == "checklist" ==> r == ChecklistSection(topic, serialize)
    ensures sectionType in SectionTypes && sectionType != "checklist" ==>
      KindFor(sectionType).Some? && r == RenderTemplate(KindFor(sectionType).value, topic)
    ensures sectionType !in SectionTypes ==> r == "# " + OrDefault(topic, Title(sectionType)) + Placeholder
  {
    KindForKnownTypes(sectionType);
    if sectionType == "checklist" then ChecklistSection(topic, serialize)
    else if KindFor(sectionType).Some? then RenderTemplate(KindFor(sectionType).value, topic)
    else DefaultSection(sectionType, topic)
  }

  /** The template section types are the known types other than "checklist". */
  lemma KindForKnownTypes(sectionType: string)
    ensures KindFor(sectionType).Some? <==> sectionType in SectionTypes && sectionType != "checklist"
  {
  }

  /**
   * Every known section type, and only those, opens with a level-two heading:
   * the other types get the level-one default.
   */
  lemma KnownTypesGetLevelTwoHeading(sectionType: string, topic: string, serialize: Checklist.ChecklistData -> string)
    ensures IsPrefix("## ", AddPlanningSection(sectionType, topic, serialize)) <==> sectionType in SectionTypes
  {
    KindForKnownTypes(sectionType);
    if sectionType == "checklist" {
      var g := Checklist.ChecklistOf(topic, "Trip", serialize);
      var first := Checklist.Heading + Checklist.ChecklistTitle(topic, "Trip");
      assert first[..3] == "## ";
      PrefixOfPrefix("## ", first, g.markdown);
      HeadingStartsSection("## ", g.markdown, g.jsonTag);
    } else if KindFor(sectionType).Some? {
      var k := KindFor(sectionType).value;
      TemplateHeadingShape(k, topic);
      HeadingStartsSection("## ", TemplateHeading(k, topic), Body(k));
    } else {
      assert AddPlanningSection(sectionType, topic, serialize)[1] == ' ';
    }
  }

  /** A template heading is a level-two heading, on one line when the topic is. */
  lemma TemplateHeadingShape(k: Kind, topic: string)
    ensures IsPrefix("## ", TemplateHeading(k, topic))
    ensures '\n' !in topic ==> '\n' !in TemplateHeading(k, topic)
  {
    var t := TemplateOf(k);
    var lead := "## " + t.symbol + " ";
    TemplateFieldsOneLine(k);
    assert TemplateHeading(k, topic) == lead + OrDefault(topic, t.defaultTopic) + " " + t.name;
    if '\n' !in topic {
      NoLineBreak(lead, OrDefault(topic, t.defaultTopic), t.name);
    }
    assert TemplateHeading(k, topic)[..3] == "## ";
  }

  /** No template's symbol, default topic or name holds a line break. */
  lemma TemplateFieldsOneLine(k: Kind)
    ensures var t := TemplateOf(k);
      '\n' !in "## " + t.symbol + " " && '\n' !in t.defaultTopic && '\n' !in t.name
  {
    var t := TemplateOf(k);
    assert '\n' !in t.symbol && '\n' !in t.defaultTopic && '\n' !in t.name by {
      match k
      case Budget =>
      case Packing =>
      case Research =>
      case Contacts =>
    }
    NoLineBreak("## ", t.symbol, "");
    assert "## " + t.symbol + " " + "" == "## " + t.symbol + " ";
  }

  lemma NoLineBreak(a: string, b: string, c: string)
    requires '\n' !in a && '\n' !in b && '\n' !in c
    ensures '\n' !in a + b + " " + c
  {
  }

  /** What starts the heading starts the section. */
  lemma HeadingStartsSection(p: string, heading: string, body: string)
    requires IsPrefix(p, heading)
    ensures IsPrefix(p, WithBody(heading, body))
  {
    PrefixOfAppend(p, heading, "\n\n");
    PrefixOfAppend(p, heading + "\n\n", body);
  }

  /** A prefix of a prefix is a prefix. */
  lemma PrefixOfPrefix(p: string, q: string, s: string)
    requires |p| <= |q| && q[..|p|] == p && IsPrefix(q, s)
    ensures IsPrefix(p, s)
  {
    assert s[..|p|] == q[..|p|];
  }

  /**
   * A one-line heading followed by a blank line and a body splits into the
   * heading and then lines that depend on the body alone.
   */
  lemma HeadingLines(heading1: string, heading2: string, body: string)
    requires '\n' !in heading1 && '\n' !in heading2
    ensures Split(WithBody(heading1, body), '\n')[0] == heading1
    ensures Split(WithBody(heading1, body), '\n')[1..] == Split(WithBody(heading2, body), '\n')[1..]
  {
    assert WithBody(heading1, body) == heading1 + ['\n'] + ("\n" + body);
    assert WithBody(heading2, body) == heading2 + ['\n'] + ("\n" + body);
    SplitAtSeparator(heading1, "\n" + body, '\n');
    SplitAtSeparator(heading2, "\n" + body, '\n');
  }

  /**
   * The first line of a template section is its heading: the topic, or the
   * template's default word when the topic is empty, between the symbol and
   * the section name.
   */
  lemma TemplateFirstLine(sectionType: string, topic: string, serialize: Checklist.ChecklistData -> string)
    requires KindFor(sectionType).Some? && '\n' !in topic
    ensures var t := TemplateOf(KindFor(sectionType).value);
      Split(AddPlanningSection(sectionType, topic, serialize), '\n')[0]
        == "## " + t.symbol + " " + (if topic == "" then t.defaultTopic else topic) + " " + t.name
  {
    var k := KindFor(sectionType).value;
    TemplateSection(sectionType, topic, serialize);
    TemplateHeadingShape(k, topic);
    HeadingLines(TemplateHeading(k, topic), TemplateHeading(k, topic), Body(k));
  }

  /** Only the first line depends on the topic: the template's other lines are the same for every topic. */
  lemma TemplateBodyIgnoresTopic(sectionType: string, topic1: string, topic2: string,
                                 serialize: Checklist.ChecklistData -> string)
    requires KindFor(sectionType).Some? && '\n' !in topic1 && '\n' !in topic2
    ensures Split(AddPlanningSection(sectionType, topic1, serialize), '\n')[1..]
      == Split(AddPlanningSection(sectionType, topic2, serialize), '\n')[1..]
  {
    var k := KindFor(sectionType).value;
    TemplateSection(sectionType, topic1, serialize);
    TemplateSection(sectionType, topic2, serialize);
    TemplateHeadingShape(k, topic1);
    TemplateHeadingShape(k, topic2);
    HeadingLines(TemplateHeading(k, topic1), TemplateHeading(k, topic2), Body(k));
  }

  /** A section type with a template renders that template. */
  lemma TemplateSection(sectionType: string, topic: string, serialize: Checklist.ChecklistData -> string)
    requires KindFor(sectionType).Some?
    ensures AddPlanningSection(sectionType, topic, serialize)
      == WithBody(TemplateHeading(KindFor(sectionType).value, topic), Body(KindFor(sectionType).value))
  {
    assert |sectionType| != |"checklist"|;
  }

  /**
   * The checklist section is the trip checklist for the topic: it opens with
   * the checklist heading and ends with the JSON tag whose body is the
   * serialized payload for the topic.
   */
  lemma ChecklistSectionCarriesPayload(topic: string, serialize: Checklist.ChecklistData -> string)
    ensures var r := AddPlanningSection("checklist", topic, serialize);
      var tag := JsonFence("checklist", serialize(Checklist.ChecklistPayload(topic, "Trip")));
      IsPrefix(Checklist.Heading + Checklist.ChecklistTitle(topic, "Trip"), r) &&
      IsSuffix(tag, r) &&
      FenceBody(r[|r| - |tag|..], "checklist") == serialize(Checklist.ChecklistPayload(topic, "Trip"))
  {
    var g := Checklist.ChecklistOf(topic, "Trip", serialize);
    HeadingStartsSection(Checklist.Heading + Checklist.ChecklistTitle(topic, "Trip"), g.markdown, g.jsonTag);
    AppendAssoc(g.markdown, "\n\n", g.jsonTag);
    SuffixOfAppend(g.jsonTag, g.markdown, "\n\n");
    FenceRoundTrip("checklist", serialize(Checklist.ChecklistPayload(topic, "Trip")));
  }

  /**
   * Any other type gets the placeholder under a level-one heading naming the
   * topic, or the title-cased type when the topic is empty.
   */
  lemma UnknownTypeGetsPlaceholder(sectionType: string, topic: string, serialize: Checklist.ChecklistData -> string)
    requires sectionType !in SectionTypes
    ensures var r := AddPlanningSection(sectionType, topic, serialize);
      IsSuffix(Placeholder, r) &&
      (topic != "" ==> IsPrefix("# " + topic, r)) &&
      (topic == "" ==> IsPrefix("# " + Title(sectionType), r))
  {
    var r := AddPlanningSection(sectionType, topic, serialize);
    var heading := "# " + OrDefault(topic, Title(sectionType));
    assert r == heading + Placeholder;
    PrefixOfAppend(heading, heading, Placeholder);
    SuffixOfAppend(Placeholder, heading, "");
  }

  /** Every known section type starts with a lower-case letter. */
  lemma KnownTypesStartLower(sectionType: string)
    requires sectionType in SectionTypes
    ensures |sectionType| > 0 && IsLetter(sectionType[0]) && IsLower(sectionType[0])
  {
  }

  /**
   * The match is case-sensitive: a known type with its first letter
   * capitalised ("Budget") is not recognised and gets the default section
   * headed by itself.
   */
  lemma CapitalisedTypeGetsDefault(sectionType: string, topic: string, serialize: Checklist.ChecklistData -> string)
    requires sectionType in SectionTypes
    ensures AddPlanningSection(Title(sectionType), topic, serialize)
      == "# " + OrDefault(topic, Title(sectionType)) + Placeholder
  {
    var t := Title(sectionType);
    KnownTypesStartLower(sectionType);
    assert IsUpper(t[0]);
    if t in SectionTypes {
      KnownTypesStartLower(t);
      assert false;
    }
    TitleIdempotent(sectionType);
  }
}
