# Travel-planning agent: deterministic document builders

This project models the deterministic core of the travel-planning agent's
tool layer, `agent/agent.py`. These are the builders that turn a few
arguments into markdown and JSON-tagged documents once the language model and
the HTTP calls are cut away:

- the trip checklist (`_generate_checklist`);
- the itinerary's slot allocator and cost roll-up (`_generate_itinerary_data`),
  together with the activity catalog, the style-to-kinds table, the category
  classifier `map_kinds_to_category` and the request-limit clamp of
  `_fetch_activities_from_api`;
- the four backend tools `research_destination`, `create_itinerary_template`,
  `suggest_improvements` and `add_planning_section`;
- the graph's routing decision `route_to_tool_node`, plus the chat node's
  input shaping: the 8000-character document snapshot, the six-message
  history window and the group-id fallback.

Modules, one file each:

- `text.dfy`: `Wrappers` (an `Option`) and `Text`. `Text` holds the
  string operations the builders rely on: ASCII `lower`/`title`, substring
  search, character counting, `"\n".join`, decimal rendering of numbers, and
  the fenced JSON tag.
- `checklist.dfy`: `Checklist`. The checklist value, and its markdown built
  line by line in a method.
- `activities.dfy`: `Activities`. The styles, kinds, categories, currencies,
  baseline costs and the fallback catalog.
- `itinerary.dfy`: `Itinerary`.
  - The allocator is a method with the skip loop, the per-day loop and the
    day loop. It is proved against the specification function `PlanDays`.
  - The cost roll-up is a method with the nested summing loop.
  - The payload is `ItineraryOf`.
- `template.dfy`: `Template`. The duration cap, and the template string
  accumulated day by day.
- `research.dfy`: `Research`. The first-match destination lookup and the
  report.
- `suggestions.dfy`: `Suggestions`. The improvement rules, as a method that
  appends step by step, proved against the specification function
  `ImprovementsText`.
- `sections.dfy`: `Sections`. The section dispatch with its default.
- `routing.dfy`: `Routing`. Tool routing and the chat node's input shaping.

Some external pieces become parameters:

- `to_money` becomes a parameter `toMoney: nat -> nat`, because its float
  scaling and rounding are not modelled. Every baseline cost is a
  non-negative whole number of dollars.
- `json.dumps` becomes a parameter `serialize`.
- The activities fetched from the network become an input sequence, which
  may be empty.

Two behaviours of the source are kept as written:

- A destination that matches none of the known keys gets a fallback record
  whose `highlights`, `food` and `culture` are plain strings. The report
  iterates over them, so it prints one bullet per character
  (`Research.FallbackBulletPerCharacter`).
- A negative `duration_days` produces no days, because the range is empty.
  The trip total still multiplies the daily costs by the negative value
  (`Itinerary.ItineraryShape`).

## Model

| member | source | states |
|---|---|---|
| Text.Lower | agent/agent.py:214 | lower-casing keeps the length, leaves no upper-case ASCII letter, turns each upper-case ASCII letter into the lower-case letter it is the capital of, and keeps every other character unchanged |
| Text.LowerIdempotent | agent/agent.py:410 | lower-casing an already lower-cased key changes nothing |
| Text.Title | agent/agent.py:34 | title-casing keeps the length and every character that is not an ASCII letter; an ASCII letter is upper-case exactly when the character before it is not an ASCII letter, lower-case otherwise, and stays the same letter up to case |
| Text.TitleIdempotent | agent/agent.py:34 | title-casing twice is title-casing once |
| Text.SubstringIff | agent/agent.py:412 | Python's `in` on strings holds exactly when the needle occurs at some offset |
| Text.EmptyIsSubstring | agent/agent.py:412 | the empty string is contained in every string |
| Text.CountChar | agent/agent.py:559 | `count("#")` never exceeds the length; its value is stated by `CountCharIsMultiplicity` |
| Text.CountCharIsMultiplicity | agent/agent.py:559 | `count("#")` is the number of occurrences of the character, its multiplicity in the string |
| Text.CountCharAppend | agent/agent.py:559 | the count over two pieces is the sum of their counts |
| Text.JoinAppend | agent/agent.py:89 | joining one more line adds the separator and the line |
| Text.JoinStartsWithFirst | agent/agent.py:89 | a join starts with its first line |
| Text.JoinLength | agent/agent.py:89 | a join is as long as its lines plus one separator between each pair |
| Text.NatToString | agent/agent.py:512 | (value: `NatToStringValue`) the decimal rendering of a day number is non-empty, digits only, and has two digits or more exactly from 10 on |
| Text.NatToStringValue | agent/agent.py:512 | the day number's digits, read most significant first, denote the number itself |
| Text.NatToStringInjective | agent/agent.py:512 | different day numbers render differently |
| Text.IntToString | agent/agent.py:502 | (value: `IntToStringValue`) an integer renders as a non-empty string that starts with a minus sign exactly when the integer is negative, with only digits after its first character |
| Text.IntToStringValue | agent/agent.py:502 | the digits after the optional minus sign denote the magnitude of the duration |
| Text.IntToStringInjective | agent/agent.py:502 | different durations render differently |
| Text.JsonFence | agent/agent.py:80 | the JSON tag starts with the fence opening and the kind, ends with the closing fence, and its length is the sum of its pieces |
| Text.FenceRoundTrip | agent/agent.py:80 | the serialized payload is recovered unchanged from its JSON tag |
| Text.SplitAppend | agent/agent.py:152 | splitting at a separator splits each side on its own |
| Checklist.Unchecked | agent/agent.py:35-68 | each label becomes one unchecked item, in order |
| Checklist.DefaultSections | agent/agent.py:35-68 | three sections "Before You Go", "Pack & Prepare", "During Trip" of 7, 6 and 4 items, none checked |
| Checklist.ItemLines | agent/agent.py:86-87 | one line per item, in order, each "- [ ] " followed by the item's label, whatever its `checked` flag |
| Checklist.GenerateChecklist | agent/agent.py:29-90 | the method's loops build the title, the payload, the markdown (heading, then per section its title line and one line per item, joined by newlines) and the fenced JSON tag of the serialized payload |
| Checklist.ItemLinesStep | agent/agent.py:86-87 | proof step: appending an item's line to the lines so far gives the lines of one more item |
| Checklist.SectionLinesStep | agent/agent.py:84-87 | proof step: appending a section's block gives the lines of one more section |
| Checklist.ChecklistTitleRule | agent/agent.py:34 | "{Context} Checklist" for an empty destination, otherwise "{Destination} {Context} Checklist", with the matching length |
| Checklist.SectionLinesLength | agent/agent.py:84-87 | the section lines number one per section plus one per item |
| Checklist.SectionLinesPrefix | agent/agent.py:84-87 | the lines of the first sections are where the lines of all sections begin, so sections stay in order |
| Checklist.SectionLinesAt | agent/agent.py:84-87 | the title line of section i is followed by the line of its item j at the position of the earlier sections' lines plus 1 plus j |
| Checklist.DefaultChecklistLines | agent/agent.py:83-89 | the markdown has 21 lines and the first is the checkmark heading with the title |
| Checklist.ChecklistOf | agent/agent.py:29-90 | the payload has the checklist title and the default sections, the markdown starts with the checkmark heading and the title, and the JSON tag fences the serialized payload |
| Activities.FetchLimit | agent/agent.py:229 | the fetch limit is the larger of 6 and three times the duration |
| Activities.QueryLimit | agent/agent.py:142 | the request limit is clamped to 3..30, and a limit already in range is kept |
| Activities.KindsForStyle | agent/agent.py:103-110 | a known style gets its own kinds and any other style the balanced kinds, always one of the table's entries |
| Activities.FirstRule | agent/agent.py:151-168 | the category of the first rule from i whose kinds meet the set, and "Sightseeing" when no such rule exists |
| Activities.MapKindsToCategory | agent/agent.py:151-168 | the category is the first rule, in priority order, whose kinds meet the comma-separated kinds |
| Activities.SightseeingIffNoKnownKind | agent/agent.py:151-168 | "Sightseeing" exactly when none of the known kinds is present |
| Activities.MuseumTakesPriority | agent/agent.py:154-155 | any museum kind makes the category "Museum", whatever else is present |
| Activities.KindSetOfJoin | agent/agent.py:152-153 | the kinds of two lists joined by a comma are the kinds of both |
| Activities.MuseumAppendedWins | agent/agent.py:152-155 | appending a museum kind to any list of kinds makes the feature a museum |
| Activities.ParkKindWithoutEarlierKinds | agent/agent.py:154-167 | a park kind with no kind of an earlier rule makes the feature a park |
| Activities.CurrencyFor | agent/agent.py:209-215 | the currency code is one of JPY, EUR, IDR, USD, and it is USD exactly when the lower-cased destination is not a known key |
| Activities.BaselineCost | agent/agent.py:264-281 | every baseline is at most 55, and an unknown category costs 0 |
| Activities.UnknownStyleIsBalanced | agent/agent.py:110 | both tables have exactly the five styles, and an unknown style gets the balanced kinds and the balanced catalog |
| Activities.CatalogHasThreeDistinctNames | agent/agent.py:232-257 | every catalog has three activities with different names |
| Activities.ActivityPool | agent/agent.py:259 | the pool is never empty: the fetched activities when there are any, else the style's three-activity catalog |
| Itinerary.NextIndex | agent/agent.py:300 | proof step: stepping `(k + 1) % n` moves to the next index or wraps to 0 |
| Itinerary.AdvanceIsOffset | agent/agent.py:299-301 | stepping forward t times from k, with t at most the pool size, lands on `(k + t) % n` |
| Itinerary.Skip | agent/agent.py:298-301 | the skip loop ends on an index in range after at most `len(activities)` steps, on a free name unless it used all its steps; the index is the start advanced by the steps taken, and every index stepped over holds a used name |
| Itinerary.UsedNamesStep | agent/agent.py:303 | proof step: taking an activity adds its name to the day's used names |
| Itinerary.Picks | agent/agent.py:293-303 | a day's first j slots pick j indices, all in range |
| Itinerary.PicksStep | agent/agent.py:295-303 | proof step: slot j is found by the skip loop from `(start + j) % n`, past the names of the earlier slots |
| Itinerary.PicksPrefix | agent/agent.py:295-303 | later slots leave earlier slots unchanged |
| Itinerary.MakePart | agent/agent.py:304-313 | a part keeps its time of day and the activity's name, description and category, places it at the destination, and costs `toMoney` of the category's baseline in the destination's currency, `toMoney(0)` for a category without a baseline |
| Itinerary.PartsOf | agent/agent.py:304-313 | one part per slot, labelled Morning, Afternoon, Evening in order; each is the picked activity made into a part |
| Itinerary.PartsOfStep | agent/agent.py:304-313 | proof step: filling one more slot appends its part |
| Itinerary.PlanDays | agent/agent.py:291-322 | the plan has `count` days numbered from 1, each with the three notes and three labelled parts located at the destination and priced in its currency |
| Itinerary.SkipUsedNames | agent/agent.py:298-301 | the while loop computes the skip search: the index stays in range, it takes at most `len(activities)` steps, and it stops on a free name unless its steps ran out |
| Itinerary.AllocateDay | agent/agent.py:292-322 | one day's loop builds exactly the specified day |
| Itinerary.AllocateDays | agent/agent.py:291-322 | the day loop builds exactly the specified plan: `duration_days` days numbered 1.., three labelled parts each, the same notes |
| Itinerary.SumActivityCosts | agent/agent.py:326-329 | the nested loop's total is the sum of every part's estimate, day by day in order |
| Itinerary.PartsPrefixTotal | agent/agent.py:328-329 | proof step: one more part adds its estimate to the running total |
| Itinerary.AllPartsStep | agent/agent.py:327-328 | proof step: the parts of one more day follow those of the days before |
| Itinerary.TripTotalIdentity | agent/agent.py:344-350 | the trip total is flights plus duration times (accommodation + local transport + food) plus the activities total |
| Itinerary.ItineraryOf | agent/agent.py:204-370 | the payload is an "itinerary" of version 1 that echoes the destination, duration and style, and every amount in it, down to each part's cost, is in the destination's currency |
| Itinerary.GenerateItinerary | agent/agent.py:204-370 | the payload's days are the allocator's plan, the activities estimate is the sum of the part estimates, the total is the identity above, and the JSON tag fences the serialized payload |
| Itinerary.ItineraryShape | agent/agent.py:286-370 | every itinerary has one numbered day per day of the trip with three parts each, a non-negative activities total equal to the day-by-day sum, the trip-total identity, the destination's currency and the trip checklist |
| Itinerary.SkipFindsFree | agent/agent.py:299-301 | when a free name lies within the remaining steps, the skip loop stops on a free name |
| Itinerary.SkipFindsFreeFrom | agent/agent.py:299-301 | when any name of the pool is free, a search from any index ends on a free name |
| Itinerary.OneOfThreeMissing | agent/agent.py:294-303 | proof step: at most two used names miss one of three different names |
| Itinerary.UsedAfterFirstSlot | agent/agent.py:303 | after the first slot only its name is used |
| Itinerary.UsedAfterSecondSlot | agent/agent.py:303 | after the second slot the names of the first two slots are used |
| Itinerary.SlotNameFresh | agent/agent.py:299-303 | a slot gets a name not used earlier that day whenever some name is still free |
| Itinerary.SecondSlotFresh | agent/agent.py:295-303 | with three different names in the pool, the second activity of a day differs from the first |
| Itinerary.ThirdSlotFresh | agent/agent.py:295-303 | with three different names in the pool, the third activity differs from the first two |
| Itinerary.DayNamesDistinct | agent/agent.py:291-303 | with three different names in the pool, a day's three activities have pairwise different names |
| Itinerary.PlanDaysDistinct | agent/agent.py:291-322 | with three different names in the pool, every day of the plan has three different activities |
| Itinerary.DistinctWitness | agent/agent.py:291-303 | proof step: a pool with three different names has three indices that hold them |
| Itinerary.PartNames | agent/agent.py:304-313 | each part carries the name of the activity at its pick |
| Itinerary.FallbackDaysDistinct | agent/agent.py:259-322 | without fetched activities, every day has three different activities |
| Itinerary.SingleActivityRepeats | agent/agent.py:299-301 | with a single activity, the skip loop runs out its steps and that activity fills all three slots |
| Itinerary.PartsTotalAppend | agent/agent.py:326-329 | the total over two runs of parts is the sum of their totals |
| Itinerary.AllPartsTotal | agent/agent.py:326-329 | the activities total is the sum over days of each day's estimates |
| Itinerary.PlanPartsCount | agent/agent.py:291-322 | a plan of `count` days has `3 * count` parts |
| Itinerary.PartsTotalNonNegative | agent/agent.py:326-329 | estimates that are all non-negative have a non-negative total |
| Itinerary.PlanCostsNonNegative | agent/agent.py:326-329 | the activities total of every plan is non-negative |
| Itinerary.TripTotalNonNegative | agent/agent.py:344-350 | with non-negative components and duration, the trip total is non-negative |
| Itinerary.AllPartsEstimates | agent/agent.py:327-329 | proof step: when every part of every day has a non-negative estimate, so does every flattened part |
| Template.Cap | agent/agent.py:457-458 | the duration is at most 14, unchanged when 14 or less, 14 when longer |
| Template.CreateItineraryTemplate | agent/agent.py:447-527 | the template is the header with the itinerary tag for the capped duration, the day blocks, and the checklist tag with the tips section |
| Template.AppendDayBlocks | agent/agent.py:511-517 | the loop appends the blocks of days 1 to the capped duration, in ascending order |
| Template.AppendDayStep | agent/agent.py:511-517 | proof step: appending day n's block to the text of the days before it gives the text of n days |
| Template.DaysTextPrefix | agent/agent.py:511-517 | the blocks of the first d days are where the blocks of more days begin |
| Template.DayBlockInjective | agent/agent.py:512 | equal day blocks belong to the same day |
| Template.TemplateDayBlockAt | agent/agent.py:502-517 | the block of each day d from 1 to the capped duration sits right after the header and the blocks of days 1 to d-1 |
| Template.BlockAt | agent/agent.py:511-517 | proof step: a block that ends a prefix of the days' text occurs right after what precedes it |
| Template.DayBlocksDistinct | agent/agent.py:511-517 | different days have different blocks |
| Template.TemplateItineraryDays | agent/agent.py:501 | the embedded itinerary covers the capped duration, never more than 14 days |
| Template.TemplateText | agent/agent.py:502-527 | the template opens with the itinerary heading line and ends with the tips section |
| Research.FirstMatch | agent/agent.py:411-413 | the result is the first key that contains the lower-cased destination or is contained in it, and none exactly when no key matches |
| Research.Bullets | agent/agent.py:431-437 | one bullet per list entry, or one per character of a string field |
| Research.ResearchDestination | agent/agent.py:426-444 | the report starts with the pin heading and the title-cased destination |
| Research.ReportOnFirstMatch | agent/agent.py:410-444 | the report is the heading followed by the body of the first matching key's record |
| Research.ReportWithoutMatch | agent/agent.py:410-444 | when no key matches, the report is the heading followed by the body of the fallback record |
| Research.LookupIsFirstMatch | agent/agent.py:410-424 | the record is the first matching key's, and the fallback when no key matches |
| Research.EmptyDestinationIsTokyo | agent/agent.py:410-414 | the empty destination matches "tokyo" first |
| Research.ContainingTokyoIsTokyo | agent/agent.py:410-414 | a destination containing "tokyo" in any letter case gets Tokyo's record |
| Research.ExactKeyGetsItsRecord | agent/agent.py:410-414 | a destination equal to a key, in any letter case, gets that key's record |
| Research.FallbackBulletPerCharacter | agent/agent.py:416-431 | for an unknown destination, the highlights print one bullet per character of the fallback sentence |
| Research.KnownRecordsHaveEntries | agent/agent.py:383-408 | the known records hold list fields of 4, 4 and at least 4 entries |
| Suggestions.FiredIndices | agent/agent.py:542-560 | the fired checks, in check order, each in range, and every check that fires is listed |
| Suggestions.Select | agent/agent.py:542-560 | the messages of the fired checks, one per index, in order |
| Suggestions.SuggestionList | agent/agent.py:539-578 | the list is never empty and holds only the six messages, the focus extras or the fallback lines |
| Suggestions.SuggestImprovements | agent/agent.py:530-583 | the method's appends produce exactly the header, the specified list joined by newlines, and the closing question |
| Suggestions.RuleSuggestionsAreFiredMessages | agent/agent.py:542-560 | the rule messages appended are exactly the messages of the fired checks, in order |
| Suggestions.SymbolsDiffer | agent/agent.py:543-578 | the six messages are pairwise different, none is an extra or a fallback line, and no message or extra equals the first fallback line |
| Suggestions.SelectedIff | agent/agent.py:542-578 | a unique message is listed exactly when its index fired |
| Suggestions.FallbackChosenIff | agent/agent.py:573-578 | the fallback replaces the list exactly when the list is empty |
| Suggestions.MessageListedIffFires | agent/agent.py:542-578 | each of the six messages appears exactly when its condition holds |
| Suggestions.FallbackIff | agent/agent.py:562-578 | the fallback list is the result exactly when no check fired and the focus area adds no extras |
| Suggestions.ListShape | agent/agent.py:542-571 | otherwise the list is the fired messages followed by the extras: two for "details", two for "practicality", none for any other focus |
| Suggestions.SelectedInOrder | agent/agent.py:542-560 | two fired indices appear in ascending order |
| Suggestions.MessagesInCheckOrder | agent/agent.py:542-560 | two messages that both fire appear in check order |
| Suggestions.EmptyDocumentGetsEveryMessage | agent/agent.py:542-571 | empty content gets all six messages followed by the focus extras |
| Suggestions.ImprovementsText | agent/agent.py:580-583 | the result starts with the suggestions header and ends with the closing question |
| Sections.KindForKnownTypes | agent/agent.py:595-709 | a template is found exactly for "budget", "packing", "research" and "contacts" |
| Sections.AddPlanningSection | agent/agent.py:595-709 | "checklist" gives the checklist section, the other four known types their template, and every other type "# {topic or title-cased type}" followed by the placeholder |
| Sections.KnownTypesGetLevelTwoHeading | agent/agent.py:595-709 | the section starts with "## " exactly when the type is one of the five known keys |
| Sections.TemplateHeadingShape | agent/agent.py:604-683 | a template heading starts with "## " and spans one line when the topic does |
| Sections.TemplateFieldsOneLine | agent/agent.py:604-683 | the emoji, default topic and name of each heading hold no line break |
| Sections.HeadingLines | agent/agent.py:604-709 | the heading is the first line, and the lines after it do not depend on the heading |
| Sections.TemplateFirstLine | agent/agent.py:604-683 | the first line is "## {emoji} {topic or default} {name}" |
| Sections.TemplateSection | agent/agent.py:604-709 | a type with a template renders its heading for the topic, a blank line, then the template body |
| Sections.TemplateBodyIgnoresTopic | agent/agent.py:604-709 | the topic changes only the first line of a template |
| Sections.ChecklistSectionCarriesPayload | agent/agent.py:596-602 | the checklist section starts with the checklist heading for the topic, ends with its JSON tag, and the tag yields the serialized payload |
| Sections.UnknownTypeGetsPlaceholder | agent/agent.py:709 | an unknown type gets "# {topic}" (or the title-cased type when there is no topic) and ends with the placeholder |
| Sections.CapitalisedTypeGetsDefault | agent/agent.py:709 | the match is case-sensitive: a known type with its first letter capitalised, such as "Budget", gets the default section headed by the topic or by itself |
| Routing.AnyBackendCall | agent/agent.py:862-865 | the scan finds a backend call exactly when some call names a backend tool |
| Routing.RouteToToolNode | agent/agent.py:854-865 | route to the tool node exactly when the calls are present and one names a backend tool |
| Routing.RouteAppend | agent/agent.py:854-865 | two batches of calls route exactly when either batch would |
| Routing.FrontendActionsNeverRoute | agent/agent.py:854-865 | calls that are only `updateDocument`, `addSection` or unnamed never route |
| Routing.NotBackendByLength | agent/agent.py:711-719 | proof step: the frontend action names are not backend tool names |
| Routing.BackendCallRoutes | agent/agent.py:711-719 | a call naming any backend tool routes |
| Routing.Snapshot | agent/agent.py:768-771 | the snapshot is a prefix of the content of at most 8000 characters: all of it when shorter, exactly 8000 when longer, empty when absent |
| Routing.RecentHistory | agent/agent.py:827-829 | the last six messages, or all of them when fewer |
| Routing.RecentHistoryIdempotent | agent/agent.py:827-829 | trimming trimmed history changes nothing |
| Routing.GroupId | agent/agent.py:767 | `group_id` when set, else `groupId` when set, else "Solo planning session"; never empty |

## Left out

- The network fetch of activities, at agent/agent.py:92-201: its URLs, SSL
  context, JSON parsing, description snippets and swallowed exceptions. The
  fetched list is an input that may be empty. Only the style-to-kinds table,
  the limit clamp and the category classifier are modelled.
- `to_money`, at agent/agent.py:222-226, uses float scaling and `round`. It is
  the parameter `toMoney: nat -> nat`. The non-negative estimate it promises,
  through `max(0, ...)`, holds for every `toMoney` by its type.
- The scale and rounding-unit tables at agent/agent.py:217-220 feed only
  `to_money`. The currency symbol is modelled; the scaling is not.
- `json.dumps` is the parameter `serialize`. Only the fence around its
  output is modelled.
- Text.Lower: `str.lower` is modelled on ASCII letters only. A non-ASCII
  upper-case letter is kept, whereas Python lower-cases it, so "ZÜRICH" is
  looked up as "zÜrich" (agent/agent.py:214 and agent/agent.py:410).
- Text.Title: `str.title` is modelled on ASCII letters only. A non-ASCII
  letter is left unchanged, whereas Python would case-map it. This also
  moves word boundaries: the model treats a non-ASCII letter as a word
  boundary, so the ASCII letter after it is upper-cased.
  "zürich" becomes "ZüRich" and "São Paulo" becomes "SãO Paulo", where
  Python gives "Zürich" and "São Paulo". This affects the checklist title
  (agent/agent.py:34), the template heading (agent/agent.py:502) and the
  default section heading (agent/agent.py:709).
- `create_itinerary_template` computes `style_activities` and `style_notes`
  (agent/agent.py:460-498) but never uses them. They are not modelled, since
  they do not affect the result.
- The `interests` argument of `research_destination` does not affect its
  result. It is accepted and ignored.
- `chat_node` (agent/agent.py:736-851): the Gemini model, the prompt text,
  the async invocation and the returned `Command`, as well as the LangGraph
  workflow. Only the snapshot, the history window, the group id and the
  routing decision are modelled.
- Routing.RouteToToolNode: each call's name is an `Option<string>`. A Python
  name of another type, or a message with no `tool_calls` attribute, is
  modelled as a missing name or missing list.
- The dictionary of `add_planning_section` builds every entry eagerly,
  including a checklist that is discarded for other types. Only the selected
  entry is modelled, because building the others has no observable effect.
- Sections: `topic or ...` assumes `topic` is a string. A `None` topic is not
  modelled.
- The constant markdown bodies of the section templates are reproduced
  verbatim in `Sections.Body`. Only their first line and the dispatch carry
  proved properties.
