/**
 * `suggest_improvements` (agent/agent.py:529-585): six independent checks on
 * the document, each adding its suggestion when it fires, in a fixed order;
 * two extra suggestions for the "details" and "practicality" focus areas; a
 * fixed three-item list when nothing was suggested; and the suggestions
 * joined under a heading and followed by a closing question.
 */
module Suggestions {
  import opened Text

  /** A check on the document. */
  datatype Check =
    | Short                        // fewer than 500 characters
    | Lacks(word: string, alt: string) // neither word occurs in the lower-cased text
    | FewHeadings                  // fewer than three '#' characters

  const Checks: seq<Check> := [
    Short,
    Lacks("itinerary", "day"),
    Lacks("budget", "cost"),
    Lacks("accommodation", "hotel"),
    Lacks("transport", "flight"),
    FewHeadings
  ]

  /**
   * The suggestion each check adds, index for index. Every suggestion here and
   * below is written as its leading symbol followed by its text; the symbols
   * tell the suggestions apart.
   */
  const Messages: seq<string> := [
    "\U{1F4DD}" + " **Add more detail** - Your document could benefit from more specific information and planning details.",
    "\U{1F5D3}\U{FE0F}" + " **Add an itinerary** - Consider creating a day-by-day schedule for your trip.",
    "\U{1F4B0}" + " **Include budget planning** - Add estimated costs and budget considerations.",
    "\U{1F3E8}" + " **Add accommodation details** - Include where you plan to stay.",
    "\U{2708}\U{FE0F}" + " **Add transportation info** - Include flight details and local transport options.",
    "\U{1F3D7}\U{FE0F}" + " **Improve structure** - Use more headings to organize your content better."
  ]

  const DetailsExtras: seq<string> := [
    "\U{1F50D}" + " **Add specific details** - Include addresses, opening hours, and contact information.",
    "\U{1F4F1}" + " **Add useful apps/websites** - List helpful resources for your destination."
  ]

  const PracticalityExtras: seq<string> := [
    "\U{2705}" + " **Create action items** - Add checkboxes for tasks that need to be completed.",
    "\U{1F4DE}" + " **Emergency contacts** - Include important phone numbers and embassy info."
  ]

  const FallbackList: seq<string> := [
    "\U{2728}" + " **Great work!** Your document is well-structured.",
    "\U{1F4A1}" + " **Consider adding personal notes** - Space for thoughts and experiences during the trip.",
    "\U{1F91D}" + " **Collaboration notes** - Areas where team members can add their input."
  ]

  const Heading: string := "## \U{1F4A1} Suggested Improvements\n\n"
  const Closing: string := "\n\n*What would you like me to help you add or improve?*"

  /** Whether a check fires on the document. */
  predicate Fires(content: string, c: Check) {
    match c
    case Short => |content| < 500
    case Lacks(word, alt) => !IsSubstring(word, Lower(content)) && !IsSubstring(alt, Lower(content))
    case FewHeadings => CountChar(content, '#') < 3
  }

  /** The indices, below `n`, of the checks that fire, in check order. */
  function FiredIndices(content: string, n: nat): (r: seq<nat>)
    requires n <= |Checks|
    ensures forall i :: 0 <= i < |r| ==> r[i] < n && Fires(content, Checks[r[i]])
    ensures forall i, j :: 0 <= i < j < |r| ==> r[i] < r[j]
    ensures forall k :: 0 <= k < n && Fires(content, Checks[k]) ==> k in r
  {
    if n == 0 then []
    else FiredIndices(content, n - 1) + (if Fires(content, Checks[n - 1]) then [n - 1] else [])
  }

  /** The entries of `table` at the given indices, in the order of the indices. */
  function Select(table: seq<string>, idx: seq<nat>): (r: seq<string>)
    requires forall i :: 0 <= i < |idx| ==> idx[i] < |table|
    ensures |r| == |idx| && forall i :: 0 <= i < |r| ==> r[i] == table[idx[i]]
  {
    seq(|idx|, i requires 0 <= i < |idx| => table[idx[i]])
  }

  /** The items given, or `fallback` when there are none. */
  function OrFallback(items: seq<string>, fallback: seq<string>): (r: seq<string>)
    ensures items != [] ==> r == items
    ensures items == [] ==> r == fallback
  {
    if items == [] then fallback else items
  }

  /** The suggestions of the first `n` checks, each added when its check fires. */
  function RuleSuggestions(content: string, n: nat): seq<string>
    requires n <= |Checks|
  {
    if n == 0 then []
    else RuleSuggestions(content, n - 1) + (if Fires(content, Checks[n - 1]) then [Messages[n - 1]] else [])
  }

  function Extras(focusArea: string): seq<string> {
    if focusArea == "details" then DetailsExtras
    else if focusArea == "practicality" then PracticalityExtras
    else []
  }

  /** The suggestions listed: the checks' and the extras, or the fixed list when there are none. */
  function SuggestionList(content: string, focusArea: string): (r: seq<string>)
    ensures r != []
    ensures forall m :: m in r ==> m in Messages || m in DetailsExtras || m in PracticalityExtras || m in FallbackList
  {
    RuleSuggestionsAreFiredMessages(content, |Checks|);
    OrFallback(RuleSuggestions(content, |Checks|) + Extras(focusArea), FallbackList)
  }

  /** The reply: the heading, the suggestions one per line, and the closing question. */
  function ImprovementsText(content: string, focusArea: string): (r: string)
    ensures IsPrefix(Heading, r) && IsSuffix(Closing, r)
  {
    var j := Join(SuggestionList(content, focusArea), "\n");
    PrefixOfAppend(Heading, Heading, j + Closing);
    AppendAssoc(Heading, j, Closing);
    SuffixOfAppend(Closing, Heading, j);
    Heading + Join(SuggestionList(content, focusArea), "\n") + Closing
  }

  /**
   * Runs the six checks in order, appending each one's suggestion when it
   * fires, then the focus area's extras, then the fixed list if nothing was
   * added, and joins the result under the heading.
   */
  method SuggestImprovements(content: string, focusArea: string) returns (result: string)
    ensures result == ImprovementsText(content, focusArea)
  {
    var suggestions: seq<string> := [];
    var lower := Lower(content);
    assert suggestions == RuleSuggestions(content, 0);
    if |content| < 500 {
      suggestions := suggestions + [Messages[0]];
    }
    assert suggestions == RuleSuggestions(content, 1);
    if !IsSubstring("itinerary", lower) && !IsSubstring("day", lower) {
      suggestions := suggestions + [Messages[1]];
    }
    assert suggestions == RuleSuggestions(content, 2);
    if !IsSubstring("budget", lower) && !IsSubstring("cost", lower) {
      suggestions := suggestions + [Messages[2]];
    }
    assert suggestions == RuleSuggestions(content, 3);
    if !IsSubstring("accommodation", lower) && !IsSubstring("hotel", lower) {
      suggestions := suggestions + [Messages[3]];
    }
    assert suggestions == RuleSuggestions(content, 4);
    if !IsSubstring("transport", lower) && !IsSubstring("flight", lower) {
      suggestions := suggestions + [Messages[4]];
    }
    assert suggestions == RuleSuggestions(content, 5);
    if CountChar(content, '#') < 3 {
      suggestions := suggestions + [Messages[5]];
    }
    assert suggestions == RuleSuggestions(content, 6);
    if focusArea == "details" {
      suggestions := suggestions + DetailsExtras;
    } else if focusArea == "practicality" {
      suggestions := suggestions + PracticalityExtras;
    }
    assert suggestions == RuleSuggestions(content, |Checks|) + Extras(focusArea);
    if suggestions == [] {
      suggestions := FallbackList;
    }
    assert suggestions == SuggestionList(content, focusArea);
    result := Heading + Join(suggestions, "\n");
    result := result + Closing;
  }

  /** The suggestions of the checks are the messages of the checks that fire, in check order. */
  lemma {:induction false} RuleSuggestionsAreFiredMessages(content: string, n: nat)
    requires n <= |Checks|
    ensures RuleSuggestions(content, n) == Select(Messages, FiredIndices(content, n))
  {
    if n > 0 {
      RuleSuggestionsAreFiredMessages(content, n - 1);
    }
  }

  /**
   * The leading symbols tell the suggestions apart: the six messages differ
   * from each other, and none is an extra or an item of the fixed list, whose
   * first item is none of the others.
   */
  lemma SymbolsDiffer()
    ensures forall i, j :: 0 <= i < |Messages| && 0 <= j < |Messages| && Messages[i] == Messages[j] ==> i == j
    ensures forall k :: 0 <= k < |Messages| ==>
      Messages[k] !in DetailsExtras && Messages[k] !in PracticalityExtras && Messages[k] !in FallbackList
    ensures forall m :: m in Messages || m in DetailsExtras || m in PracticalityExtras ==> m != FallbackList[0]
  {
    forall i, j | 0 <= i < |Messages| && 0 <= j < |Messages| && i != j
      ensures Messages[i] != Messages[j]
    {
      assert Messages[i][0] != Messages[j][0];
    }
    forall k | 0 <= k < |Messages|
      ensures Messages[k] !in DetailsExtras && Messages[k] !in PracticalityExtras && Messages[k] !in FallbackList
    {
      assert Messages[k][0] !in {DetailsExtras[0][0], DetailsExtras[1][0], PracticalityExtras[0][0], PracticalityExtras[1][0]};
      assert Messages[k][0] !in {FallbackList[0][0], FallbackList[1][0], FallbackList[2][0]};
    }
    forall m | m in Messages || m in DetailsExtras || m in PracticalityExtras
      ensures m != FallbackList[0]
    {
      assert m[0] != FallbackList[0][0];
    }
  }

  /**
   * Over any table with distinct entries: an entry is in the chosen list
   * exactly when its index was selected, provided neither the extras nor the
   * fallback contain it.
   */
  lemma SelectedIff(table: seq<string>, fired: seq<nat>, extras: seq<string>, fallback: seq<string>, k: nat)
    requires k < |table| && forall i :: 0 <= i < |fired| ==> fired[i] < |table|
    requires forall i, j :: 0 <= i < |table| && 0 <= j < |table| && table[i] == table[j] ==> i == j
    requires table[k] !in extras && table[k] !in fallback
    ensures table[k] in OrFallback(Select(table, fired) + extras, fallback) <==> k in fired
  {
    var sel := Select(table, fired);
    if k in fired {
      var i :| 0 <= i < |fired| && fired[i] == k;
      assert (sel + extras)[i] == table[k];
    }
  }

  /** Over any items none of which is the fallback's first item: the fallback is chosen exactly when there are none. */
  lemma FallbackChosenIff(items: seq<string>, fallback: seq<string>)
    requires fallback != [] && forall m :: m in items ==> m != fallback[0]
    ensures OrFallback(items, fallback) == fallback <==> items == []
  {
    if items != [] {
      assert items[0] in items;
    }
  }

  /** A check's message is listed exactly when that check fires, whatever the focus area. */
  lemma MessageListedIffFires(content: string, focusArea: string, k: nat)
    requires k < |Checks|
    ensures Messages[k] in SuggestionList(content, focusArea) <==> Fires(content, Checks[k])
  {
    RuleSuggestionsAreFiredMessages(content, |Checks|);
    SymbolsDiffer();
    SelectedIff(Messages, FiredIndices(content, |Checks|), Extras(focusArea), FallbackList, k);
  }

  /** The list is the fixed one exactly when no check fires and the focus area brings no extras. */
  lemma FallbackIff(content: string, focusArea: string)
    ensures SuggestionList(content, focusArea) == FallbackList
      <==> FiredIndices(content, |Checks|) == [] && Extras(focusArea) == []
  {
    RuleSuggestionsAreFiredMessages(content, |Checks|);
    SymbolsDiffer();
    var items := Select(Messages, FiredIndices(content, |Checks|)) + Extras(focusArea);
    forall m | m in items
      ensures m != FallbackList[0]
    {
      assert m in Messages || m in Extras(focusArea);
    }
    FallbackChosenIff(items, FallbackList);
  }

  /**
   * When anything is suggested, the list is the messages of the checks that
   * fire, in check order, followed by the focus area's extras: the two
   * "details" items, the two "practicality" items, or none.
   */
  lemma ListShape(content: string, focusArea: string)
    requires FiredIndices(content, |Checks|) != [] || Extras(focusArea) != []
    ensures SuggestionList(content, focusArea) == Select(Messages, FiredIndices(content, |Checks|)) + Extras(focusArea)
    ensures focusArea == "details" ==> Extras(focusArea) == DetailsExtras
    ensures focusArea == "practicality" ==> Extras(focusArea) == PracticalityExtras
    ensures focusArea != "details" && focusArea != "practicality" ==> Extras(focusArea) == []
  {
    RuleSuggestionsAreFiredMessages(content, |Checks|);
  }

  /** Over any increasing selection: of two selected indices, the lower one's entry comes first in the chosen list. */
  lemma SelectedInOrder(table: seq<string>, fired: seq<nat>, extras: seq<string>, fallback: seq<string>,
                        k1: nat, k2: nat)
    returns (i: nat, j: nat)
    requires forall i :: 0 <= i < |fired| ==> fired[i] < |table|
    requires forall i, j :: 0 <= i < j < |fired| ==> fired[i] < fired[j]
    requires k1 < k2 && k1 in fired && k2 in fired
    ensures var list := OrFallback(Select(table, fired) + extras, fallback);
      i < j < |list| && list[i] == table[k1] && list[j] == table[k2]
  {
    var list := Select(table, fired) + extras;
    i :| 0 <= i < |fired| && fired[i] == k1;
    j :| 0 <= j < |fired| && fired[j] == k2;
    assert OrFallback(list, fallback) == list;
    assert list[i] == table[k1] && list[j] == table[k2];
  }

  /** Suggestions appear in the order of their checks: of two checks that fire, the earlier one's message comes first. */
  lemma MessagesInCheckOrder(content: string, focusArea: string, k1: nat, k2: nat)
    requires k1 < k2 < |Checks| && Fires(content, Checks[k1]) && Fires(content, Checks[k2])
    ensures var list := SuggestionList(content, focusArea);
      exists i, j :: 0 <= i < j < |list| && list[i] == Messages[k1] && list[j] == Messages[k2]
  {
    RuleSuggestionsAreFiredMessages(content, |Checks|);
    var i, j := SelectedInOrder(Messages, FiredIndices(content, |Checks|), Extras(focusArea), FallbackList, k1, k2);
    var list := SuggestionList(content, focusArea);
    assert i < j < |list| && list[i] == Messages[k1] && list[j] == Messages[k2];
  }

  /** An empty document fails every check, so it gets all six messages in check order. */
  lemma EmptyDocumentGetsEveryMessage(focusArea: string)
    ensures SuggestionList("", focusArea) == Messages + Extras(focusArea)
  {
    assert Lower("") == "";
    forall k | 0 <= k < |Checks|
      ensures Fires("", Checks[k])
    {
      assert CountChar("", '#') == 0;
    }
    assert RuleSuggestions("", 1) == Messages[..1];
    assert RuleSuggestions("", 2) == Messages[..2];
    assert RuleSuggestions("", 3) == Messages[..3];
    assert RuleSuggestions("", 4) == Messages[..4];
    assert RuleSuggestions("", 5) == Messages[..5];
    assert RuleSuggestions("", 6) == Messages[..6];
  }
}
