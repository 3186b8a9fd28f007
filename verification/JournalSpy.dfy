/**
 The journal spy: the first expression that matches a journal entry is hit, and a hit collects logs
 unless the expression was hit less than a silent period before.
 */
module JournalSpy {
  import opened Basics

  const SILENT_PERIOD_MS: int := 6 * 60 * 60 * 1000

  // Fields and the regular expressions they must match; the last hit starts as 0.
  datatype Expression = Expression(name: string, rexp: map<string, string>, lastHit: int)

  // A journal entry, with the clock and the battery state at the moment it is handled.
  datatype Event = Event(entry: map<string, string>, now: int, savePower: bool)

  // Whether a regular expression matches a value; what that means is left open.
  type Matcher = (string, string) -> bool

  predicate Matches(e: Expression, entry: map<string, string>, hit: Matcher) {
    forall field <- e.rexp :: field in entry && hit(e.rexp[field], entry[field])
  }

  function FirstMatch(es: seq<Expression>, entry: map<string, string>, hit: Matcher): (m: nat)
    ensures m <= |es|
    ensures m < |es| ==> Matches(es[m], entry, hit)
    ensures forall i :: 0 <= i < m ==> !Matches(es[i], entry, hit)
  {
    if es == [] || Matches(es[0], entry, hit) then 0 else 1 + FirstMatch(es[1..], entry, hit)
  }

  function Hit(es: seq<Expression>, ev: Event, hit: Matcher): seq<Expression> {
    var m := FirstMatch(es, ev.entry, hit);
    if m < |es| then es[m := es[m].(lastHit := ev.now)] else es
  }

  // Whether the event makes expression m collect logs.
  predicate Collects(es: seq<Expression>, ev: Event, m: nat, hit: Matcher) {
    && m < |es| && FirstMatch(es, ev.entry, hit) == m
    && ev.now - es[m].lastHit > SILENT_PERIOD_MS && !ev.savePower
  }

  function Collected(es: seq<Expression>, ev: Event, hit: Matcher): seq<string> {
    var m := FirstMatch(es, ev.entry, hit);
    if Collects(es, ev, m, hit) then ["JournalSpy-" + es[m].name] else []
  }

  function HitAll(es: seq<Expression>, evs: seq<Event>, hit: Matcher): seq<Expression>
    decreases |evs|
  {
    if evs == [] then es else HitAll(Hit(es, evs[0], hit), evs[1..], hit)
  }

  function CollectedAll(es: seq<Expression>, evs: seq<Event>, hit: Matcher): seq<string>
    decreases |evs|
  {
    if evs == [] then [] else Collected(es, evs[0], hit) + CollectedAll(Hit(es, evs[0], hit), evs[1..], hit)
  }

  lemma OneEvent(es: seq<Expression>, evs: seq<Event>, n: nat, hit: Matcher)
    requires n < |evs|
    ensures HitAll(es, evs[n..], hit) == HitAll(Hit(es, evs[n], hit), evs[n + 1..], hit)
    ensures CollectedAll(es, evs[n..], hit)
         == Collected(es, evs[n], hit) + CollectedAll(Hit(es, evs[n], hit), evs[n + 1..], hit)
  {
    assert evs[n..][1..] == evs[n + 1..];
  }

  lemma NoEvent(es: seq<Expression>, hit: Matcher)
    ensures HitAll(es, [], hit) == es && CollectedAll(es, [], hit) == []
  {
  }

  /* ---- the object ---- */

  class Spy {
    var expressions: seq<Expression>
    var collections: seq<string>       // labels of the log collections invoked

    constructor (expressions: seq<Expression>)
      ensures this.expressions == expressions && collections == []
    {
      this.expressions, collections := expressions, [];
    }

    // The fields of an expression are visited in no particular order.
    static method CheckMatches(e: Expression, entry: map<string, string>, hit: Matcher) returns (r: bool)
      ensures r <==> Matches(e, entry, hit)
    {
      var todo := e.rexp.Keys;
      while todo != {}
        invariant todo <= e.rexp.Keys
        invariant forall f :: f in e.rexp && f !in todo ==> f in entry && hit(e.rexp[f], entry[f])
        decreases todo
      {
        var field :| field in todo;
        if field !in entry { return false; }
        if !hit(e.rexp[field], entry[field]) { return false; }
        todo := todo - {field};
      }
      r := true;
    }

    method HandleJournalEntries(evs: seq<Event>, hit: Matcher)
      modifies this
      ensures expressions == HitAll(old(expressions), evs, hit)
      ensures collections == old(collections) + CollectedAll(old(expressions), evs, hit)
    {
      hide HitAll, CollectedAll, Hit, Collected;
      assert evs[0..] == evs;
      for n := 0 to |evs|
        invariant HitAll(expressions, evs[n..], hit) == HitAll(old(expressions), evs, hit)
        invariant collections + CollectedAll(expressions, evs[n..], hit)
               == old(collections) + CollectedAll(old(expressions), evs, hit)
      {
        OneEvent(expressions, evs, n, hit);
        HandleEntry(evs[n], hit);
      }
      NoEvent(expressions, hit);
      assert evs[|evs|..] == [];
    }

    method HandleEntry(ev: Event, hit: Matcher)
      modifies this
      ensures expressions == Hit(old(expressions), ev, hit)
      ensures collections == old(collections) + Collected(old(expressions), ev, hit)
    {
      for i := 0 to |expressions|
        invariant expressions == old(expressions) && collections == old(collections)
        invariant forall j :: 0 <= j < i ==> !Matches(expressions[j], ev.entry, hit)
      {
        var matched := CheckMatches(expressions[i], ev.entry, hit);
        if matched {
          assert FirstMatch(expressions, ev.entry, hit) == i;
          var previousHit := expressions[i].lastHit;
          expressions := expressions[i := expressions[i].(lastHit := ev.now)];
          if ev.now - previousHit > SILENT_PERIOD_MS {
            if !ev.savePower {
              collections := collections + ["JournalSpy-" + expressions[i].name];
            }
          }
          return;
        }
      }
      assert FirstMatch(expressions, ev.entry, hit) == |expressions|;
    }
  }

  /* ---- when logs are collected ---- */

  ghost predicate Ordered(evs: seq<Event>, from: int) {
    && (forall i :: 0 <= i < |evs| ==> from <= evs[i].now)
    && (forall i, j :: 0 <= i < j < |evs| ==> evs[i].now <= evs[j].now)
  }

  lemma MatchesIgnoresHits(e: Expression, now: int, entry: map<string, string>, hit: Matcher)
    ensures Matches(e.(lastHit := now), entry, hit) == Matches(e, entry, hit)
  {
  }

  // Hits change neither names nor patterns, so they do not change what matches.
  lemma HitKeepsMatches(es: seq<Expression>, ev: Event, entry: map<string, string>, hit: Matcher)
    ensures |Hit(es, ev, hit)| == |es|
    ensures FirstMatch(Hit(es, ev, hit), entry, hit) == FirstMatch(es, entry, hit)
  {
    hide FirstMatch, Matches;
    var after := Hit(es, ev, hit);
    forall i | 0 <= i < |es| ensures Matches(after[i], entry, hit) == Matches(es[i], entry, hit) {
      MatchesIgnoresHits(es[i], ev.now, entry, hit);
    }
  }

  lemma {:induction false} HitAllKeepsMatches(es: seq<Expression>, evs: seq<Event>, entry: map<string, string>, hit: Matcher)
    ensures |HitAll(es, evs, hit)| == |es|
    ensures FirstMatch(HitAll(es, evs, hit), entry, hit) == FirstMatch(es, entry, hit)
    decreases |evs|
  {
    hide FirstMatch, Hit;
    if evs == [] {
    } else {
      HitKeepsMatches(es, evs[0], entry, hit);
      HitAllKeepsMatches(Hit(es, evs[0], hit), evs[1..], entry, hit);
    }
  }

  // The last hit of an expression is the time of the latest event it was the first to match.
  lemma {:induction false} LastHitIsLatest(es: seq<Expression>, evs: seq<Event>, m: nat, hit: Matcher, from: int)
    requires m < |es| && Ordered(evs, from) && es[m].lastHit <= from
    ensures |HitAll(es, evs, hit)| == |es|
    ensures var last := HitAll(es, evs, hit)[m].lastHit;
      && last >= es[m].lastHit
      && (forall j :: 0 <= j < |evs| && FirstMatch(es, evs[j].entry, hit) == m ==> evs[j].now <= last)
      && (last == es[m].lastHit
          || exists j :: 0 <= j < |evs| && FirstMatch(es, evs[j].entry, hit) == m && evs[j].now == last)
    decreases |evs|
  {
    hide FirstMatch;
    if evs == [] {
    } else {
      var next := Hit(es, evs[0], hit);
      HitKeepsMatches(es, evs[0], evs[0].entry, hit);
      LastHitIsLatest(next, evs[1..], m, hit, evs[0].now);
      forall j | 0 <= j < |evs| ensures FirstMatch(next, evs[j].entry, hit) == FirstMatch(es, evs[j].entry, hit) {
        HitKeepsMatches(es, evs[0], evs[j].entry, hit);
      }
      var last := HitAll(next, evs[1..], hit)[m].lastHit;
      forall j | 0 <= j < |evs| && FirstMatch(es, evs[j].entry, hit) == m ensures evs[j].now <= last {
        if j > 0 { assert evs[j] == evs[1..][j - 1]; }
      }
      if last != next[m].lastHit {
        var j :| 0 <= j < |evs[1..]| && FirstMatch(next, evs[1..][j].entry, hit) == m && evs[1..][j].now == last;
        assert evs[j + 1] == evs[1..][j];
      } else if last != es[m].lastHit {
        assert FirstMatch(es, evs[0].entry, hit) == m && evs[0].now == last;
      }
    }
  }

  // In a run with a clock that does not go back, event i makes expression m collect exactly if m is
  // the first to match, the battery is fine, and every earlier event that m was the first to match
  // lies more than the silent period back.
  lemma CollectsIff(es: seq<Expression>, evs: seq<Event>, i: nat, m: nat, hit: Matcher, from: int)
    requires m < |es| && i < |evs| && Ordered(evs, from) && es[m].lastHit <= from
    ensures Collects(HitAll(es, evs[..i], hit), evs[i], m, hit)
      <==> && FirstMatch(es, evs[i].entry, hit) == m && !evs[i].savePower
           && evs[i].now - es[m].lastHit > SILENT_PERIOD_MS
           && forall j :: 0 <= j < i && FirstMatch(es, evs[j].entry, hit) == m
                ==> evs[i].now - evs[j].now > SILENT_PERIOD_MS
  {
    hide FirstMatch, HitAll;
    LastHitIsLatest(es, evs[..i], m, hit, from);
    HitAllKeepsMatches(es, evs[..i], evs[i].entry, hit);
    var last := HitAll(es, evs[..i], hit)[m].lastHit;
    if last != es[m].lastHit {
      var j :| 0 <= j < i && FirstMatch(es, evs[..i][j].entry, hit) == m && evs[..i][j].now == last;
      assert evs[j] == evs[..i][j];
    }
    forall j | 0 <= j < i && FirstMatch(es, evs[j].entry, hit) == m ensures evs[j].now <= last {
      assert evs[j] == evs[..i][j];
    }
  }

  // Hits change no names.
  lemma {:induction false} HitAllKeepsNames(es: seq<Expression>, evs: seq<Event>, m: nat, hit: Matcher)
    requires m < |es|
    ensures |HitAll(es, evs, hit)| == |es| && HitAll(es, evs, hit)[m].name == es[m].name
    decreases |evs|
  {
    hide FirstMatch;
    if evs == [] {
    } else {
      HitAllKeepsNames(Hit(es, evs[0], hit), evs[1..], m, hit);
    }
  }

  // When entry i of a run is due to collect logs, from the entries alone.
  ghost predicate Due(es: seq<Expression>, evs: seq<Event>, i: nat, hit: Matcher)
    requires i < |evs|
  {
    var m := FirstMatch(es, evs[i].entry, hit);
    && m < |es| && !evs[i].savePower
    && evs[i].now - es[m].lastHit > 6 * 60 * 60 * 1000
    && forall j :: 0 <= j < i && FirstMatch(es, evs[j].entry, hit) == m ==>
         evs[i].now - evs[j].now > 6 * 60 * 60 * 1000
  }

  ghost function LabelOf(es: seq<Expression>, evs: seq<Event>, i: nat, hit: Matcher): seq<string>
    requires i < |evs|
  {
    if Due(es, evs, i, hit) then ["JournalSpy-" + es[FirstMatch(es, evs[i].entry, hit)].name] else []
  }

  // No expression was hit later than a run begins.
  ghost predicate HitBefore(es: seq<Expression>, from: int) {
    forall m :: 0 <= m < |es| ==> es[m].lastHit <= from
  }

  // What entry i of a run collects: one label with the name of the first match if it is due, and
  // nothing otherwise.
  lemma CollectedIsDue(es: seq<Expression>, evs: seq<Event>, i: nat, hit: Matcher, from: int)
    requires i < |evs| && Ordered(evs, from) && HitBefore(es, from)
    ensures Collected(HitAll(es, evs[..i], hit), evs[i], hit) == LabelOf(es, evs, i, hit)
  {
    hide FirstMatch, HitAll, Ordered;
    HitAllKeepsMatches(es, evs[..i], evs[i].entry, hit);
    var m := FirstMatch(es, evs[i].entry, hit);
    if m < |es| {
      HitAllKeepsNames(es, evs[..i], m, hit);
      CollectsIff(es, evs, i, m, hit, from);
    }
  }

  lemma {:induction false} RunSnoc(es: seq<Expression>, evs: seq<Event>, ev: Event, hit: Matcher)
    ensures HitAll(es, evs + [ev], hit) == Hit(HitAll(es, evs, hit), ev, hit)
    ensures CollectedAll(es, evs + [ev], hit)
         == CollectedAll(es, evs, hit) + Collected(HitAll(es, evs, hit), ev, hit)
    decreases |evs|
  {
    hide Hit, Collected;
    var longer := evs + [ev];
    if evs == [] {
      assert longer[1..] == [];
    } else {
      assert longer[0] == evs[0] && longer[1..] == evs[1..] + [ev];
      RunSnoc(Hit(es, evs[0], hit), evs[1..], ev, hit);
    }
  }

  ghost function Labels(es: seq<Expression>, evs: seq<Event>, n: nat, hit: Matcher): seq<string>
    requires n <= |evs|
  {
    if n == 0 then [] else Labels(es, evs, n - 1, hit) + LabelOf(es, evs, n - 1, hit)
  }

  // The logs collected by a run are the labels of the entries that are due, in order.
  lemma {:induction false} CollectedAreLabels(es: seq<Expression>, evs: seq<Event>, n: nat, hit: Matcher, from: int)
    requires n <= |evs| && Ordered(evs, from) && HitBefore(es, from)
    ensures CollectedAll(es, evs[..n], hit) == Labels(es, evs, n, hit)
    decreases n
  {
    hide Ordered, HitBefore, LabelOf, Collected;
    if n == 0 {
      assert evs[..0] == [];
    } else {
      assert evs[..n] == evs[..n - 1] + [evs[n - 1]];
      CollectedAreLabels(es, evs, n - 1, hit, from);
      RunSnoc(es, evs[..n - 1], evs[n - 1], hit);
      CollectedIsDue(es, evs, n - 1, hit, from);
    }
  }

  // An expression without fields matches everything, and one more field is one more condition: the
  // entry has that field, and its regular expression matches.
  lemma MatchesFieldByField(e: Expression, field: string, regexp: string, entry: map<string, string>, hit: Matcher)
    ensures e.rexp == map[] ==> Matches(e, entry, hit)
    ensures field !in e.rexp ==>
      (Matches(e.(rexp := e.rexp[field := regexp]), entry, hit)
       <==> Matches(e, entry, hit) && field in entry && hit(regexp, entry[field]))
  {
    var more := e.(rexp := e.rexp[field := regexp]);
    if field !in e.rexp && Matches(more, entry, hit) {
      forall f | f in e.rexp ensures f in entry && hit(e.rexp[f], entry[f]) {
        assert f in more.rexp && more.rexp[f] == e.rexp[f];
      }
      assert field in more.rexp;
    }
  }

  /* ---- how often ---- */

  // How many events in [lo, hi] make expression m collect.
  function CollectionsIn(es: seq<Expression>, evs: seq<Event>, m: nat, hit: Matcher, lo: int, hi: int): nat
    decreases |evs|
  {
    if evs == [] then 0
    else
      (if lo <= evs[0].now <= hi && Collects(es, evs[0], m, hit) then 1 else 0)
      + CollectionsIn(Hit(es, evs[0], hit), evs[1..], m, hit, lo, hi)
  }

  // The next collection comes more than a silent period after the last hit, and so on.
  function Room(lastHit: int, lo: int, hi: int): nat {
    var next := Max(lo, lastHit + SILENT_PERIOD_MS + 1);
    if next > hi then 0 else 1 + (hi - next) / (SILENT_PERIOD_MS + 1)
  }

  lemma RoomShrinks(earlier: int, later: int, lo: int, hi: int)
    requires earlier <= later
    ensures Room(later, lo, hi) <= Room(earlier, lo, hi)
    ensures later - earlier > SILENT_PERIOD_MS && lo <= later <= hi ==>
      1 + Room(later, lo, hi) <= Room(earlier, lo, hi)
  {
  }

  lemma {:induction false} CollectionsFitRoom(es: seq<Expression>, evs: seq<Event>, m: nat, hit: Matcher,
                                              lo: int, hi: int, from: int)
    requires m < |es| && Ordered(evs, from) && es[m].lastHit <= from
    ensures CollectionsIn(es, evs, m, hit, lo, hi) <= Room(es[m].lastHit, lo, hi)
    decreases |evs|
  {
    hide FirstMatch, Room;
    if evs == [] {
    } else {
      var next := Hit(es, evs[0], hit);
      RoomShrinks(es[m].lastHit, next[m].lastHit, lo, hi);
      CollectionsFitRoom(next, evs[1..], m, hit, lo, hi, evs[0].now);
    }
  }

  const DAY_MS: int := 24 * 60 * 60 * 1000

  // A day, both ends included, holds at most four collections of one expression: the documented
  // "no more than 4 matches per expression each day".
  lemma AtMostFourADay(es: seq<Expression>, evs: seq<Event>, m: nat, hit: Matcher, lo: int, from: int)
    requires m < |es| && Ordered(evs, from) && es[m].lastHit <= from
    ensures CollectionsIn(es, evs, m, hit, lo, lo + DAY_MS) <= 4
  {
    CollectionsFitRoom(es, evs, m, hit, lo, lo + DAY_MS, from);
  }

  // How many labels the entries of [lo, hi] add that expression m is the first to match.
  function LabelsIn(es: seq<Expression>, evs: seq<Event>, m: nat, hit: Matcher, lo: int, hi: int): nat
    decreases |evs|
  {
    if evs == [] then 0
    else
      (if lo <= evs[0].now <= hi && FirstMatch(es, evs[0].entry, hit) == m then |Collected(es, evs[0], hit)| else 0)
      + LabelsIn(Hit(es, evs[0], hit), evs[1..], m, hit, lo, hi)
  }

  lemma {:induction false} LabelsAreCollections(es: seq<Expression>, evs: seq<Event>, m: nat, hit: Matcher, lo: int, hi: int)
    requires m < |es|
    ensures LabelsIn(es, evs, m, hit, lo, hi) == CollectionsIn(es, evs, m, hit, lo, hi)
    decreases |evs|
  {
    hide FirstMatch;
    if evs == [] {
    } else {
      LabelsAreCollections(Hit(es, evs[0], hit), evs[1..], m, hit, lo, hi);
    }
  }

  // So a day adds at most four labels for one expression to the logs collected.
  lemma AtMostFourLabelsADay(es: seq<Expression>, evs: seq<Event>, m: nat, hit: Matcher, lo: int, from: int)
    requires m < |es| && Ordered(evs, from) && es[m].lastHit <= from
    ensures LabelsIn(es, evs, m, hit, lo, lo + DAY_MS) <= 4
  {
    LabelsAreCollections(es, evs, m, hit, lo, lo + DAY_MS);
    AtMostFourADay(es, evs, m, hit, lo, from);
  }

  // n entries, each a moment more than the silent period after the one before.
  function Spaced(entry: map<string, string>, start: int, n: nat): seq<Event>
    decreases n
  {
    if n == 0 then []
    else [Event(entry, start, false)] + Spaced(entry, start + SILENT_PERIOD_MS + 1, n - 1)
  }

  lemma {:induction false} SpacedCollect(es: seq<Expression>, entry: map<string, string>, m: nat, hit: Matcher,
                                         start: int, n: nat, lo: int, hi: int)
    requires m < |es| && FirstMatch(es, entry, hit) == m && start - es[m].lastHit > SILENT_PERIOD_MS
    requires lo <= start && start + (n - 1) * (SILENT_PERIOD_MS + 1) <= hi
    ensures CollectionsIn(es, Spaced(entry, start, n), m, hit, lo, hi) == n
    decreases n
  {
    hide FirstMatch;
    if n == 0 {
    } else {
      var ev := Event(entry, start, false);
      HitKeepsMatches(es, ev, entry, hit);
      SpacedCollect(Hit(es, ev, hit), entry, m, hit, start + SILENT_PERIOD_MS + 1, n - 1, lo, hi);
      assert Spaced(entry, start, n)[1..] == Spaced(entry, start + SILENT_PERIOD_MS + 1, n - 1);
    }
  }

  // The daily bound is attained.
  lemma FourADayAttained(es: seq<Expression>, entry: map<string, string>, m: nat, hit: Matcher, lo: int)
    requires m < |es| && FirstMatch(es, entry, hit) == m && lo - es[m].lastHit > SILENT_PERIOD_MS
    ensures CollectionsIn(es, Spaced(entry, lo, 4), m, hit, lo, lo + DAY_MS) == 4
  {
    SpacedCollect(es, entry, m, hit, lo, 4, lo, lo + 4 * SILENT_PERIOD_MS);
  }
}
