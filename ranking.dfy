/**
 * Merging an external ranking back onto the generated options: each ranked
 * text is matched to the first option with exactly that description, numbered
 * from 1 in ranking order, and its score banded into a recommendation level.
 * The ranking service itself is not modelled; its answer is an input here.
 */
module Ranking {
  import opened Wrappers
  import opened Catalog

  /** One entry of the ranking service's `top` list. */
  datatype RankerItem = RankerItem(text: string, score: real)

  datatype Level = High | Medium | Low
  {
    function Value(): string
    {
      match this
      case High => "HIGH"
      case Medium => "MEDIUM"
      case Low => "LOW"
    }
  }

  /** Scores above 0.80 are HIGH, above 0.70 MEDIUM, the rest LOW. */
  function LevelOf(score: real): (l: Level)
    ensures l == High <==> score > 0.80
    ensures l == Medium <==> 0.70 < score <= 0.80
    ensures l == Low <==> score <= 0.70
  {
    if score > 0.80 then High else if score > 0.70 then Medium else Low
  }

  lemma LevelMonotone(s: real, t: real)
    requires s <= t
    ensures LevelOf(s) == High ==> LevelOf(t) == High
    ensures LevelOf(t) == Low ==> LevelOf(s) == Low
  {
  }

  datatype Recommendation = Recommendation(
    rank: int,
    coherence: real,
    title: string,
    description: string,
    templateId: string,
    estimatedCost: int,
    estimatedSuccessRate: int,
    systemsUsed: seq<string>,
    level: Level)

  /** The position of the first option whose description is exactly `text`. */
  function FirstMatch(options: seq<GeneratedOption>, text: string): (r: Option<nat>)
    ensures r.None? <==> forall j :: 0 <= j < |options| ==> options[j].description != text
    ensures r.Some? ==> r.value < |options| && options[r.value].description == text
    ensures r.Some? ==> forall j :: 0 <= j < r.value ==> options[j].description != text
  {
    if options == [] then None
    else if options[0].description == text then Some(0)
    else match FirstMatch(options[1..], text)
      case None => None
      case Some(j) => Some(j + 1)
  }

  /** The number a string of decimal digits denotes. */
  function DecimalValue(s: string): int
  {
    if s == [] then 0 else DecimalValue(s[..|s| - 1]) * 10 + (s[|s| - 1] as int - '0' as int)
  }

  /** Python's `str(n)`: the decimal numeral of `n`, without leading zeros. */
  function NatToString(n: nat): (s: string)
    ensures |s| >= 1
    ensures forall k :: 0 <= k < |s| ==> '0' <= s[k] <= '9'
    ensures DecimalValue(s) == n
    ensures s[0] == '0' <==> n == 0
    decreases n
  {
    var digit := [(48 + n % 10) as char];
    if n < 10 then digit
    else
      var prefix := NatToString(n / 10);
      assert (prefix + digit)[..|prefix + digit| - 1] == prefix;
      prefix + digit
  }

  /** The entry for rank `rank`: the matched option's figures, or placeholders. */
  function Entry(rank: nat, item: RankerItem, matching: Option<GeneratedOption>): (e: Recommendation)
    ensures e.rank == rank && e.coherence == item.score && e.description == item.text
    ensures e.level == LevelOf(item.score)
    ensures matching.Some? ==>
      && e.title == matching.value.title
      && e.templateId == matching.value.templateId.Name()
      && e.estimatedCost == matching.value.estimatedCost
      && e.estimatedSuccessRate == matching.value.estimatedSuccessRate
      && e.systemsUsed == matching.value.systemsUsed
    ensures matching.None? ==>
      && e.title == "Option " + NatToString(rank)
      && e.templateId == "unknown"
      && e.estimatedCost == 0 && e.estimatedSuccessRate == 0 && e.systemsUsed == []
  {
    match matching
    case Some(o) =>
      Recommendation(rank, item.score, o.title, item.text, o.templateId.Name(), o.estimatedCost,
                     o.estimatedSuccessRate, o.systemsUsed, LevelOf(item.score))
    case None =>
      Recommendation(rank, item.score, "Option " + NatToString(rank), item.text, "unknown", 0, 0, [],
                     LevelOf(item.score))
  }

  function MatchOf(options: seq<GeneratedOption>, text: string): Option<GeneratedOption>
  {
    match FirstMatch(options, text)
    case Some(j) => Some(options[j])
    case None => None
  }

  /**
   * The merge: one entry per ranked item, the item's text and score, and the
   * first option whose description is the text.
   */
  method CombineResults(options: seq<GeneratedOption>, top: seq<RankerItem>) returns (ranked: seq<Recommendation>)
    ensures |ranked| == |top|
    ensures forall i :: 0 <= i < |top| ==> ranked[i] == Entry(i + 1, top[i], MatchOf(options, top[i].text))
  {
    ranked := [];
    var i := 0;
    while i < |top|
      invariant 0 <= i <= |top|
      invariant |ranked| == i
      invariant forall m :: 0 <= m < i ==> ranked[m] == Entry(m + 1, top[m], MatchOf(options, top[m].text))
    {
      var item := top[i];
      var matching: Option<GeneratedOption> := None;
      var j := 0;
      while j < |options|
        invariant 0 <= j <= |options|
        invariant matching.None?
        invariant forall m :: 0 <= m < j ==> options[m].description != item.text
      {
        if options[j].description == item.text {
          matching := Some(options[j]);
          assert FirstMatch(options, item.text) == Some(j);
          break;
        }
        j := j + 1;
      }
      assert matching == MatchOf(options, item.text);
      ranked := ranked + [Entry(i + 1, item, matching)];
      i := i + 1;
    }
  }

  /**
   * Every merged entry tells the truth about the options: a matched entry has
   * a description some option carries, and an entry marked "unknown" has a
   * description no option carries.
   */
  lemma EntryMatchesHonestly(options: seq<GeneratedOption>, rank: nat, item: RankerItem)
    ensures var e := Entry(rank, item, MatchOf(options, item.text));
      && (e.templateId == "unknown" <==> forall j :: 0 <= j < |options| ==> options[j].description != item.text)
      && (MatchOf(options, item.text).Some? ==>
            exists j :: 0 <= j < |options| && options[j] == MatchOf(options, item.text).value
                        && options[j].description == item.text)
  {
    var m := MatchOf(options, item.text);
    if m.Some? {
      var o := m.value;
      NameNotUnknown(o.templateId);
    }
  }

  /** No template is registered under the placeholder name "unknown". */
  lemma NameNotUnknown(id: TemplateId)
    ensures id.Name() != "unknown"
  {
  }
}
