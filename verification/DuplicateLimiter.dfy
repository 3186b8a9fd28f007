/**
 The daemon's limiter of similar crash reports: one counter for each (binary, signal), reset when it
 is used more than a day after its last reset, kept in a list that is searched from the front.
 Times are milliseconds in UTC, so a day always has the same length.
 */
module DuplicateLimiter {
  import opened Basics
  import opened FileNames

  const DAY: int := 24 * 60 * 60 * 1000
  const SIGQUIT: int := 3
  const NON_CRASH_PREFIXES: seq<string> :=
    ["Quickie", "Endurance", "PowerExcess", "OneshotFailure", "HWreboot", "HWSMPL", "OverheatShutdown", "JournalSpy"]

  datatype Key = Key(binaryName: string, signalNumber: int)
  datatype Counter = Counter(count: nat, lastReset: int)
  datatype Entry = Entry(key: Key, counter: Counter)

  /* ---- one key ---- */

  // The counter after one more report.
  function Bump(c: Option<Counter>, now: int): Counter {
    match c
    case None => Counter(1, now)
    case Some(last) =>
      if last.lastReset + DAY < now then Counter(1, now) else Counter(last.count + 1, last.lastReset)
  }

  // The first report ever seen is kept whatever the maximum is.
  predicate IsDuplicate(c: Option<Counter>, now: int, max: int) {
    c.Some? && Bump(c, now).count > max
  }

  /* ---- the list ---- */

  ghost predicate UniqueKeys(list: seq<Entry>) {
    forall i, j :: 0 <= i < j < |list| ==> list[i].key != list[j].key
  }

  function Find(list: seq<Entry>, key: Key): (i: nat)
    ensures i <= |list|
    ensures forall j :: 0 <= j < i ==> list[j].key != key
    ensures i < |list| ==> list[i].key == key
  {
    if list == [] || list[0].key == key then 0 else 1 + Find(list[1..], key)
  }

  function Lookup(list: seq<Entry>, key: Key): Option<Counter> {
    var i := Find(list, key);
    if i < |list| then Some(list[i].counter) else None
  }

  function Record(list: seq<Entry>, key: Key, now: int): seq<Entry> {
    var i := Find(list, key);
    var entry := Entry(key, Bump(Lookup(list, key), now));
    if i < |list| then list[i := entry] else list + [entry]
  }

  // The list simulates a map: recording a report under one key keeps keys unique, bumps the counter
  // of that key and leaves every other counter alone.
  lemma RecordIsMapUpdate(list: seq<Entry>, key: Key, now: int, other: Key)
    requires UniqueKeys(list)
    ensures UniqueKeys(Record(list, key, now))
    ensures Lookup(Record(list, key, now), other)
         == if other == key then Some(Bump(Lookup(list, key), now)) else Lookup(list, other)
  {
    hide Find;
    var after := Record(list, key, now);
    var i, j := Find(list, key), Find(after, other);
    if other == key {
      assert i < |after| && after[i].key == key;
      assert j == i;
    } else if Find(list, other) < |list| {
      assert after[Find(list, other)] == list[Find(list, other)];
      assert j == Find(list, other);
    } else {
      assert forall m :: 0 <= m < |after| ==> after[m].key != other;
    }
  }

  /* ---- reports ---- */

  // QString::contains()
  predicate Contains(s: string, part: string) {
    part <= s || (s != "" && Contains(s[1..], part))
  }

  predicate IncludesCrash(path: string) {
    forall i :: 0 <= i < |NON_CRASH_PREFIXES| ==> !Contains(path, NON_CRASH_PREFIXES[i])
  }

  // `toInt` is QString::toInt(), left open.
  function KeyOf(path: string, toInt: string -> int): Key {
    var info := ParseCrashInfo(path);
    Key(info.application, toInt(info.signum))
  }

  // A new core found by the daemon, with the clock and the settings of that moment.
  datatype Call = Call(path: string, now: int, max: int, autoDelete: bool)

  // Whether the limiter sees the report at all.
  predicate Counted(call: Call, toInt: string -> int) {
    KeyOf(call.path, toInt).signalNumber != SIGQUIT && call.autoDelete && IncludesCrash(call.path)
  }

  function After(list: seq<Entry>, call: Call, toInt: string -> int): seq<Entry> {
    if Counted(call, toInt) then Record(list, KeyOf(call.path, toInt), call.now) else list
  }

  // Whether the report is deleted.
  predicate Deleted(list: seq<Entry>, call: Call, toInt: string -> int) {
    Counted(call, toInt) && IsDuplicate(Lookup(list, KeyOf(call.path, toInt)), call.now, call.max)
  }

  /* ---- what a counter is for ---- */

  lemma KeyOfReport(r: Report, toInt: string -> int)
    requires InScheme(r)
    ensures KeyOf(PathOf(r), toInt) == Key(r.info.application, toInt(r.info.signum))
  {
    hide ParseCrashInfo, PathOf, InScheme;
    ParserInvertsScheme(r);
  }

  // Two reports share a counter exactly if application and signal agree, whatever hardware and process
  // they come from.
  lemma SameCounterIff(r: Report, q: Report, toInt: string -> int)
    requires InScheme(r) && InScheme(q)
    ensures KeyOf(PathOf(r), toInt) == KeyOf(PathOf(q), toInt)
            <==> r.info.application == q.info.application && toInt(r.info.signum) == toInt(q.info.signum)
  {
    hide KeyOf, PathOf, InScheme;
    KeyOfReport(r, toInt);
    KeyOfReport(q, toInt);
  }

  ghost predicate Occurs(part: string, s: string) {
    exists i :: 0 <= i <= |s| && part <= s[i..]
  }

  lemma {:induction false} ContainsIff(s: string, part: string)
    ensures Contains(s, part) <==> Occurs(part, s)
    decreases |s|
  {
    if part <= s {
      assert s[0..] == s;
    } else if s == "" {
      assert s[0..] == s;
    } else {
      ContainsIff(s[1..], part);
      if Occurs(part, s) {
        var i :| 0 <= i <= |s| && part <= s[i..];
        assert s[0..] == s;
        assert s[1..][i - 1..] == s[i..];
      }
      if Occurs(part, s[1..]) {
        var i :| 0 <= i <= |s[1..]| && part <= s[1..][i..];
        assert s[1..][i..] == s[i + 1..];
      }
    }
  }

  // A report that is not about a crash has one of these words anywhere in its path.
  ghost predicate NotACrash(path: string) {
    || Occurs("Quickie", path) || Occurs("Endurance", path) || Occurs("PowerExcess", path)
    || Occurs("OneshotFailure", path) || Occurs("HWreboot", path) || Occurs("HWSMPL", path)
    || Occurs("OverheatShutdown", path) || Occurs("JournalSpy", path)
  }

  lemma IncludesCrashIff(path: string)
    ensures IncludesCrash(path) <==> !NotACrash(path)
  {
    hide Contains, Occurs;
    forall part ensures Contains(path, part) <==> Occurs(part, path) { ContainsIff(path, part); }
    assert NON_CRASH_PREFIXES[0] == "Quickie" && NON_CRASH_PREFIXES[1] == "Endurance"
      && NON_CRASH_PREFIXES[2] == "PowerExcess" && NON_CRASH_PREFIXES[3] == "OneshotFailure"
      && NON_CRASH_PREFIXES[4] == "HWreboot" && NON_CRASH_PREFIXES[5] == "HWSMPL"
      && NON_CRASH_PREFIXES[6] == "OverheatShutdown" && NON_CRASH_PREFIXES[7] == "JournalSpy";
  }

  // The limiter sees a report exactly if auto-delete is on, the program was not terminated by SIGQUIT,
  // and the report is about a crash; any other is kept and leaves all counters alone.
  lemma CountedIff(r: Report, now: int, max: int, autoDelete: bool, list: seq<Entry>, toInt: string -> int)
    requires InScheme(r)
    ensures var call := Call(PathOf(r), now, max, autoDelete);
      && (Counted(call, toInt) <==> autoDelete && toInt(r.info.signum) != 3 && !NotACrash(PathOf(r)))
      && (!Counted(call, toInt) ==> !Deleted(list, call, toInt) && After(list, call, toInt) == list)
  {
    hide KeyOf, IncludesCrash, NotACrash, PathOf, InScheme;
    KeyOfReport(r, toInt);
    IncludesCrashIff(PathOf(r));
  }

  // The list after a run.
  function AfterAll(list: seq<Entry>, calls: seq<Call>, toInt: string -> int): seq<Entry>
    decreases |calls|
  {
    if calls == [] then list else AfterAll(After(list, calls[0], toInt), calls[1..], toInt)
  }

  lemma {:induction false} UncountedKey(list: seq<Entry>, calls: seq<Call>, key: Key, toInt: string -> int)
    requires UniqueKeys(list)
    requires forall i :: 0 <= i < |calls| && Counted(calls[i], toInt) ==> KeyOf(calls[i].path, toInt) != key
    ensures UniqueKeys(AfterAll(list, calls, toInt))
    ensures Lookup(AfterAll(list, calls, toInt), key) == Lookup(list, key)
    decreases |calls|
  {
    hide Record, Lookup, Bump, KeyOf, Counted, UniqueKeys;
    if calls == [] {
    } else {
      if Counted(calls[0], toInt) {
        RecordIsMapUpdate(list, KeyOf(calls[0].path, toInt), calls[0].now, key);
      }
      UncountedKey(After(list, calls[0], toInt), calls[1..], key, toInt);
    }
  }

  // The first counted report of an application and signal is never deleted, whatever the maximum and
  // whatever was reported before.
  lemma FirstReportIsKept(reports: seq<Report>, calls: seq<Call>, i: nat, toInt: string -> int)
    requires i < |calls| == |reports|
    requires forall j :: 0 <= j <= i ==> InScheme(reports[j]) && calls[j].path == PathOf(reports[j])
    requires forall j :: 0 <= j < i && Counted(calls[j], toInt) ==>
      reports[j].info.application != reports[i].info.application
      || toInt(reports[j].info.signum) != toInt(reports[i].info.signum)
    ensures !Deleted(AfterAll([], calls[..i], toInt), calls[i], toInt)
  {
    hide KeyOf, Counted, InScheme, PathOf, AfterAll, Find;
    var key := KeyOf(calls[i].path, toInt);
    forall j | 0 <= j < i && Counted(calls[..i][j], toInt) ensures KeyOf(calls[..i][j].path, toInt) != key {
      SameCounterIff(reports[j], reports[i], toInt);
    }
    UncountedKey([], calls[..i], key, toInt);
  }

  /* ---- keys do not interfere ---- */

  datatype Tick = Tick(now: int, max: int)

  // The calls that concern one key.
  function TicksOf(calls: seq<Call>, key: Key, toInt: string -> int): seq<Tick> {
    if calls == [] then []
    else
      var rest := TicksOf(calls[1..], key, toInt);
      if Counted(calls[0], toInt) && KeyOf(calls[0].path, toInt) == key
      then [Tick(calls[0].now, calls[0].max)] + rest else rest
  }

  // What the daemon answered to them in a run over all keys: true where the report was deleted.
  function AnswersFor(list: seq<Entry>, calls: seq<Call>, key: Key, toInt: string -> int): seq<bool>
    decreases |calls|
  {
    if calls == [] then []
    else
      var rest := AnswersFor(After(list, calls[0], toInt), calls[1..], key, toInt);
      if Counted(calls[0], toInt) && KeyOf(calls[0].path, toInt) == key
      then [Deleted(list, calls[0], toInt)] + rest else rest
  }

  // What a limiter for that key alone answers.
  function Answers(c: Option<Counter>, ticks: seq<Tick>): seq<bool>
    decreases |ticks|
  {
    if ticks == [] then []
    else [IsDuplicate(c, ticks[0].now, ticks[0].max)] + Answers(Some(Bump(c, ticks[0].now)), ticks[1..])
  }

  // Over any interleaved run, the answers for a key are those of a limiter that has seen only the
  // calls for that key; reports that are not counted change nothing.
  lemma {:induction false} NonInterference(list: seq<Entry>, calls: seq<Call>, key: Key, toInt: string -> int)
    requires UniqueKeys(list)
    ensures AnswersFor(list, calls, key, toInt) == Answers(Lookup(list, key), TicksOf(calls, key, toInt))
    decreases |calls|
  {
    hide Record, Lookup, Bump, IsDuplicate, KeyOf, Counted;
    if calls == [] {
    } else {
      var next := After(list, calls[0], toInt);
      if Counted(calls[0], toInt) {
        RecordIsMapUpdate(list, KeyOf(calls[0].path, toInt), calls[0].now, key);
      }
      NonInterference(next, calls[1..], key, toInt);
      if Counted(calls[0], toInt) && KeyOf(calls[0].path, toInt) == key {
        var tick := Tick(calls[0].now, calls[0].max);
        var rest := TicksOf(calls[1..], key, toInt);
        assert ([tick] + rest)[0] == tick && ([tick] + rest)[1..] == rest;
      }
    }
  }

  /* ---- which reports are deleted ---- */

  // The report that began the window of report n: the first one, or the first one more than a day
  // after the one that began the window before.
  function WindowStart(ticks: seq<Tick>, n: nat): (i: nat)
    requires n < |ticks|
    ensures i <= n
  {
    if n == 0 then 0
    else
      var i := WindowStart(ticks, n - 1);
      if ticks[n].now > ticks[i].now + 24 * 60 * 60 * 1000 then n else i
  }

  function BumpAll(c: Option<Counter>, ticks: seq<Tick>): Option<Counter>
    decreases |ticks|
  {
    if ticks == [] then c else BumpAll(Some(Bump(c, ticks[0].now)), ticks[1..])
  }

  lemma {:induction false} BumpSnoc(c: Option<Counter>, ticks: seq<Tick>, t: Tick)
    ensures BumpAll(c, ticks + [t]) == Some(Bump(BumpAll(c, ticks), t.now))
    decreases |ticks|
  {
    hide Bump;
    var longer := ticks + [t];
    if ticks == [] {
      assert longer[1..] == [];
    } else {
      assert longer[0] == ticks[0] && longer[1..] == ticks[1..] + [t];
      BumpSnoc(Some(Bump(c, ticks[0].now)), ticks[1..], t);
    }
  }

  lemma {:induction false} AnswerAt(c: Option<Counter>, ticks: seq<Tick>, n: nat)
    requires n < |ticks|
    ensures |Answers(c, ticks)| == |ticks|
    ensures Answers(c, ticks)[n] == IsDuplicate(BumpAll(c, ticks[..n]), ticks[n].now, ticks[n].max)
    decreases |ticks|
  {
    hide Bump, IsDuplicate;
    var next := Some(Bump(c, ticks[0].now));
    if |ticks| == 1 {
      assert ticks[1..] == [] && ticks[..n] == [];
    } else if n == 0 {
      AnswerAt(next, ticks[1..], 0);
    } else {
      AnswerAt(next, ticks[1..], n - 1);
      assert ticks[..n][1..] == ticks[1..][..n - 1];
    }
  }

  lemma {:induction false} CounterAt(ticks: seq<Tick>, n: nat)
    requires n < |ticks|
    ensures BumpAll(None, ticks[..n + 1])
         == Some(Counter(n + 1 - WindowStart(ticks, n), ticks[WindowStart(ticks, n)].now))
  {
    assert ticks[..n + 1] == ticks[..n] + [ticks[n]];
    BumpSnoc(None, ticks[..n], ticks[n]);
    if n == 0 {
      assert ticks[..0] == [];
    } else {
      CounterAt(ticks, n - 1);
    }
  }

  lemma NoTicks()
    ensures BumpAll(None, []) == None
  {
  }

  // Report n of a key is deleted exactly if it is not the first one, and more reports than the maximum
  // have come since its window began, itself included.
  lemma DeletedIff(ticks: seq<Tick>, n: nat)
    requires n < |ticks|
    ensures |Answers(None, ticks)| == |ticks|
    ensures Answers(None, ticks)[n] <==> n > 0 && n - WindowStart(ticks, n) + 1 > ticks[n].max
  {
    hide BumpAll, Answers;
    AnswerAt(None, ticks, n);
    if n == 0 {
      assert ticks[..0] == [];
      assert BumpAll(None, []) == None by { NoTicks(); }
    } else {
      CounterAt(ticks, n - 1);
    }
  }

  /* ---- how many reports are kept ---- */

  // The clock does not run backwards, and the maximum stays within the cap.
  ghost predicate Ordered(ticks: seq<Tick>, from: int, cap: nat) {
    && (forall i :: 0 <= i < |ticks| ==> from <= ticks[i].now && ticks[i].max <= cap)
    && (forall i, j :: 0 <= i < j < |ticks| ==> ticks[i].now <= ticks[j].now)
  }

  // How many reports arriving in [lo, hi] are kept.
  function KeptIn(c: Option<Counter>, ticks: seq<Tick>, lo: int, hi: int): nat
    decreases |ticks|
  {
    if ticks == [] then 0
    else (if lo <= ticks[0].now <= hi && !IsDuplicate(c, ticks[0].now, ticks[0].max) then 1 else 0)
         + KeptIn(Some(Bump(c, ticks[0].now)), ticks[1..], lo, hi)
  }

  lemma {:induction false} NothingAfter(c: Option<Counter>, ticks: seq<Tick>, lo: int, hi: int, from: int, cap: nat)
    requires Ordered(ticks, from, cap) && hi < from
    ensures KeptIn(c, ticks, lo, hi) == 0
    decreases |ticks|
  {
    if ticks == [] {
    } else {
      NothingAfter(Some(Bump(c, ticks[0].now)), ticks[1..], lo, hi, from, cap);
    }
  }

  // What can still be kept in [lo, lo + DAY] once the time is `from`: the rest of the running window,
  // and the next one if the running window began before lo.
  function Allowance(c: Counter, from: int, lo: int, cap: nat): int {
    if c.lastReset >= lo then Max(0, cap - c.count)
    else (if from >= lo then Max(0, cap - c.count) else Max(0, cap - 1)) + cap
  }

  lemma {:induction false} WithinAllowance(c: Counter, ticks: seq<Tick>, lo: int, from: int, cap: nat)
    requires Ordered(ticks, from, cap) && c.count >= 1 && c.lastReset <= from
    ensures KeptIn(Some(c), ticks, lo, lo + DAY) <= Allowance(c, from, lo, cap)
    decreases |ticks|
  {
    if ticks == [] {
    } else {
      var now := ticks[0].now;
      var next := Bump(Some(c), now);
      if now > lo + DAY {
        NothingAfter(Some(c), ticks, lo, lo + DAY, now, cap);
      } else {
        WithinAllowance(next, ticks[1..], lo, now, cap);
      }
    }
  }

  // Any closed day holds at most 2M - 1 kept reports of one key, where M is the maximum (1 if smaller).
  lemma DailyBound(ticks: seq<Tick>, lo: int, from: int, cap: nat)
    requires Ordered(ticks, from, cap)
    ensures KeptIn(None, ticks, lo, lo + DAY) <= 2 * Max(1, cap) - 1
  {
    if ticks != [] {
      var now := ticks[0].now;
      WithinAllowance(Counter(1, now), ticks[1..], lo, now, cap);
    }
  }

  function Repeat(now: int, max: int, n: nat): (ticks: seq<Tick>)
    ensures |ticks| == n && forall i :: 0 <= i < n ==> ticks[i] == Tick(now, max)
  {
    seq(n, i => Tick(now, max))
  }

  // The bound is attained for every maximum: one report at time 0, then M - 1 a day later, all still
  // in the first window, and M more a millisecond after that.  A maximum below 1 keeps the first only.
  function Worst(m: int): seq<Tick> {
    [Tick(0, m)] + if m >= 1 then Repeat(DAY, m, m - 1) + Repeat(DAY + 1, m, m) else []
  }

  function WorstDay(m: int): int { if m >= 1 then 1 else 0 }

  lemma {:induction false} AllKept(c: Counter, now: int, m: nat, n: nat, tail: seq<Tick>)
    requires 1 <= now <= 1 + DAY && now <= c.lastReset + DAY && c.count + n <= m
    ensures KeptIn(Some(c), Repeat(now, m, n) + tail, 1, 1 + DAY)
         == n + KeptIn(Some(Counter(c.count + n, c.lastReset)), tail, 1, 1 + DAY)
    decreases n
  {
    var ticks := Repeat(now, m, n) + tail;
    if n == 0 {
      assert ticks == tail;
    } else {
      assert ticks[0] == Tick(now, m);
      assert ticks[1..] == Repeat(now, m, n - 1) + tail;
      AllKept(Counter(c.count + 1, c.lastReset), now, m, n - 1, tail);
    }
  }

  lemma SecondWindow(m: nat)
    requires m >= 1
    ensures KeptIn(Some(Counter(m, 0)), Repeat(DAY + 1, m, m), 1, 1 + DAY) == m
  {
    var others := Repeat(DAY + 1, m, m - 1);
    assert Repeat(DAY + 1, m, m)[1..] == others + [];
    AllKept(Counter(1, DAY + 1), DAY + 1, m, m - 1, []);
  }

  lemma DailyBoundAttained(m: int)
    ensures Ordered(Worst(m), 0, Max(0, m))
    ensures KeptIn(None, Worst(m), WorstDay(m), WorstDay(m) + DAY) == 2 * Max(1, m) - 1
  {
    var rest := Worst(m)[1..];
    if m >= 1 {
      assert rest == Repeat(DAY, m, m - 1) + Repeat(DAY + 1, m, m);
      AllKept(Counter(1, 0), DAY, m, m - 1, Repeat(DAY + 1, m, m));
      SecondWindow(m);
    } else {
      assert rest == [];
    }
  }

  lemma MulMonotone(cap: nat, a: int, b: int)
    requires a <= b
    ensures cap * a <= cap * b
  {
  }

  lemma {:induction false} KeptSinceReset(c: Counter, ticks: seq<Tick>, lo: int, hi: int, from: int, cap: nat)
    requires Ordered(ticks, from, cap) && c.count >= 1 && c.lastReset <= from && c.lastReset <= hi
    ensures KeptIn(Some(c), ticks, lo, hi) <= Max(0, cap - c.count) + cap * ((hi - c.lastReset) / DAY)
    decreases |ticks|
  {
    MulMonotone(cap, 0, (hi - c.lastReset) / DAY);
    if ticks == [] {
    } else {
      var now := ticks[0].now;
      var next := Bump(Some(c), now);
      if now > hi {
        NothingAfter(Some(c), ticks, lo, hi, now, cap);
      } else {
        KeptSinceReset(next, ticks[1..], lo, hi, now, cap);
        if c.lastReset + DAY < now {
          MulMonotone(cap, (hi - now) / DAY + 1, (hi - c.lastReset) / DAY);
          assert cap * ((hi - now) / DAY + 1) == cap * ((hi - now) / DAY) + cap;
        }
      }
    }
  }

  // From the first report of a key on, at most M more reports are kept for each day begun.
  lemma TotalBound(ticks: seq<Tick>, hi: int, cap: nat)
    requires ticks != [] && Ordered(ticks, ticks[0].now, cap) && ticks[0].now <= hi
    ensures KeptIn(None, ticks, ticks[0].now, hi) <= Max(1, cap) * (1 + (hi - ticks[0].now) / DAY)
  {
    var first := ticks[0].now;
    var days := (hi - first) / DAY;
    KeptSinceReset(Counter(1, first), ticks[1..], first, hi, first, cap);
    assert Max(1, cap) * (1 + days) == Max(1, cap) + Max(1, cap) * days;
    if cap == 0 { MulMonotone(1, 0, days); }
  }

  lemma {:induction false} NothingKeptAtZero(c: Counter, ticks: seq<Tick>, lo: int, hi: int)
    requires forall i :: 0 <= i < |ticks| ==> ticks[i].max <= 0
    ensures KeptIn(Some(c), ticks, lo, hi) == 0
    decreases |ticks|
  {
    if ticks == [] {
    } else {
      NothingKeptAtZero(Bump(Some(c), ticks[0].now), ticks[1..], lo, hi);
    }
  }

  // With a maximum of 0 or less only the very first report of a key is ever kept.
  lemma OnlyTheFirstAtZero(ticks: seq<Tick>, lo: int, hi: int)
    requires ticks != [] && forall i :: 0 <= i < |ticks| ==> ticks[i].max <= 0
    ensures KeptIn(None, ticks, lo, hi) == if lo <= ticks[0].now <= hi then 1 else 0
  {
    NothingKeptAtZero(Counter(1, ticks[0].now), ticks[1..], lo, hi);
  }

  /* ---- the bounds for the daemon as a whole ---- */

  // How many counted reports of a key arriving in [lo, hi] are kept in a run over all keys.
  function KeptFor(list: seq<Entry>, calls: seq<Call>, key: Key, toInt: string -> int, lo: int, hi: int): nat
    decreases |calls|
  {
    if calls == [] then 0
    else
      (if Counted(calls[0], toInt) && KeyOf(calls[0].path, toInt) == key && lo <= calls[0].now <= hi
          && !Deleted(list, calls[0], toInt) then 1 else 0)
      + KeptFor(After(list, calls[0], toInt), calls[1..], key, toInt, lo, hi)
  }

  lemma {:induction false} KeptForIsKeptIn(list: seq<Entry>, calls: seq<Call>, key: Key, toInt: string -> int,
                                           lo: int, hi: int)
    requires UniqueKeys(list)
    ensures KeptFor(list, calls, key, toInt, lo, hi)
         == KeptIn(Lookup(list, key), TicksOf(calls, key, toInt), lo, hi)
    decreases |calls|
  {
    hide Record, Lookup, Bump, IsDuplicate, KeyOf, Counted;
    if calls == [] {
    } else {
      if Counted(calls[0], toInt) {
        RecordIsMapUpdate(list, KeyOf(calls[0].path, toInt), calls[0].now, key);
      }
      KeptForIsKeptIn(After(list, calls[0], toInt), calls[1..], key, toInt, lo, hi);
      if Counted(calls[0], toInt) && KeyOf(calls[0].path, toInt) == key {
        var tick := Tick(calls[0].now, calls[0].max);
        var rest := TicksOf(calls[1..], key, toInt);
        assert ([tick] + rest)[0] == tick && ([tick] + rest)[1..] == rest;
      }
    }
  }

  ghost predicate OrderedCalls(calls: seq<Call>, from: int, cap: nat) {
    && (forall i :: 0 <= i < |calls| ==> from <= calls[i].now && calls[i].max <= cap)
    && (forall i, j :: 0 <= i < j < |calls| ==> calls[i].now <= calls[j].now)
  }

  lemma {:induction false} TicksOrdered(calls: seq<Call>, key: Key, toInt: string -> int, from: int, cap: nat)
    requires OrderedCalls(calls, from, cap)
    ensures Ordered(TicksOf(calls, key, toInt), from, cap)
    decreases |calls|
  {
    hide Counted, KeyOf;
    if calls == [] {
    } else {
      TicksOrdered(calls[1..], key, toInt, calls[0].now, cap);
    }
  }

  // Whatever else crashes in between, a daemon that has started empty keeps at most 2M - 1 reports
  // of one binary and signal within any closed day.
  lemma DaemonDailyBound(calls: seq<Call>, key: Key, toInt: string -> int, lo: int, from: int, cap: nat)
    requires OrderedCalls(calls, from, cap)
    ensures KeptFor([], calls, key, toInt, lo, lo + DAY) <= 2 * Max(1, cap) - 1
  {
    hide KeptFor, TicksOf, KeptIn;
    KeptForIsKeptIn([], calls, key, toInt, lo, lo + DAY);
    TicksOrdered(calls, key, toInt, from, cap);
    DailyBound(TicksOf(calls, key, toInt), lo, from, cap);
  }

  // And from the first counted report of that key on, at most M for each day begun.
  lemma DaemonTotalBound(calls: seq<Call>, key: Key, toInt: string -> int, hi: int, from: int, cap: nat)
    requires OrderedCalls(calls, from, cap)
    ensures var ticks := TicksOf(calls, key, toInt);
      if ticks == [] then KeptFor([], calls, key, toInt, from, hi) == 0
      else hi >= ticks[0].now ==>
        KeptFor([], calls, key, toInt, ticks[0].now, hi) <= Max(1, cap) * (1 + (hi - ticks[0].now) / DAY)
  {
    hide KeptFor, TicksOf;
    var ticks := TicksOf(calls, key, toInt);
    TicksOrdered(calls, key, toInt, from, cap);
    if ticks == [] {
      KeptForIsKeptIn([], calls, key, toInt, from, hi);
    } else if hi >= ticks[0].now {
      KeptForIsKeptIn([], calls, key, toInt, ticks[0].now, hi);
      TotalBound(ticks, hi, cap);
    }
  }

  /* ---- the objects ---- */

  class HandledRichCore {
    const binaryName: string
    const signalNumber: int
    var count: nat
    var lastCountReset: int

    constructor (filePath: string, toInt: string -> int, now: int)
      ensures View() == Entry(KeyOf(filePath, toInt), Counter(0, now))
    {
      var info := ParseCrashInfoFromFilename(filePath);
      binaryName, signalNumber := info.application, toInt(info.signum);
      count, lastCountReset := 0, now;
    }

    ghost function View(): Entry
      reads this
    {
      Entry(Key(binaryName, signalNumber), Counter(count, lastCountReset))
    }
  }

  class DaemonMonitor {
    const toInt: string -> int
    var handledRichCores: seq<HandledRichCore>
    var autoDeleteMaxSimilarCores: int

    constructor (toInt: string -> int, max: int)
      ensures this.toInt == toInt && Valid() && View() == [] && autoDeleteMaxSimilarCores == max
    {
      this.toInt := toInt;
      handledRichCores, autoDeleteMaxSimilarCores := [], max;
    }

    ghost function View(): seq<Entry>
      reads this, handledRichCores
    {
      seq(|handledRichCores|, i requires 0 <= i < |handledRichCores| reads this, handledRichCores =>
        handledRichCores[i].View())
    }

    ghost predicate Valid()
      reads this, handledRichCores
    {
      && (forall i, j :: 0 <= i < j < |handledRichCores| ==> handledRichCores[i] != handledRichCores[j])
      && UniqueKeys(View())
    }

    method CheckForDuplicates(path: string, now: int) returns (duplicate: bool)
      requires Valid()
      modifies this`handledRichCores, handledRichCores
      ensures Valid() && forall e :: e in handledRichCores ==> e in old(handledRichCores) || fresh(e)
      ensures var key := KeyOf(path, toInt);
        && View() == (if IncludesCrash(path) then Record(old(View()), key, now) else old(View()))
        && (duplicate <==> IncludesCrash(path)
                           && IsDuplicate(Lookup(old(View()), key), now, autoDeleteMaxSimilarCores))
    {
      hide Find, IncludesCrash, KeyOf, UniqueKeys;
      if !IncludesCrash(path) { return false; }
      var rCore := new HandledRichCore(path, toInt, now);
      ghost var key := KeyOf(path, toInt);
      ghost var list := View();
      RecordIsMapUpdate(list, key, now, key);
      for i := 0 to |handledRichCores|
        invariant handledRichCores == old(handledRichCores) && View() == list
        invariant forall j :: 0 <= j < i ==> list[j].key != key
        invariant rCore.View() == Entry(key, Counter(0, now))
      {
        var handled := handledRichCores[i];
        if handled.binaryName == rCore.binaryName && handled.signalNumber == rCore.signalNumber {
          assert list[i] == handled.View() && Find(list, key) == i;
          ghost var counter := Bump(Lookup(list, key), now);
          if handled.lastCountReset + DAY < now {
            handled.count := 0;
            handled.lastCountReset := now;
          }
          handled.count := handled.count + 1;
          assert handled.View() == Entry(key, counter);
          assert View() == list[i := Entry(key, counter)];
          return handled.count > autoDeleteMaxSimilarCores;
        }
        assert list[i] == handled.View();
      }
      rCore.count := rCore.count + 1;
      handledRichCores := handledRichCores + [rCore];
      assert View() == list + [Entry(key, Counter(1, now))];
      duplicate := false;
    }

    // What the daemon does with a new core: whether its file is deleted.
    method HandleNewCore(filePath: string, now: int, autoDelete: bool) returns (deleted: bool)
      requires Valid()
      modifies this`handledRichCores, handledRichCores
      ensures Valid()
      ensures var call := Call(filePath, now, autoDeleteMaxSimilarCores, autoDelete);
        View() == After(old(View()), call, toInt) && deleted == Deleted(old(View()), call, toInt)
    {
      var details := ParseCrashInfoFromFilename(filePath);
      var isUserTerminated := toInt(details.signum) == SIGQUIT;
      deleted := false;
      if !isUserTerminated && autoDelete {
        deleted := CheckForDuplicates(filePath, now);
      }
    }
  }
}
