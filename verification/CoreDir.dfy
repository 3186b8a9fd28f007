/**
 The index of core files already seen in a directory: one new file is handed out per check, and the
 index is refreshed from the directory when nothing new is found.
 */
module CoreDir {
  import opened Basics

  /* ---- names ---- */

  function Lower(s: string): (r: string)
    ensures |r| == |s|
  {
    seq(|s|, i requires 0 <= i < |s| => if 'A' <= s[i] <= 'Z' then (s[i] as int + 32) as char else s[i])
  }

  // QString::endsWith() ignoring case.
  predicate EndsWith(s: string, suffix: string) {
    |suffix| <= |s| && Lower(s)[|s| - |suffix|..] == suffix
  }

  predicate ValidateCore(name: string) {
    EndsWith(name, "rcore.lzo") || EndsWith(name, "rcore")
  }

  // The name filter of the directory iterators, "*.rcore" or "*.rcore.lzo".
  predicate PassesFilter(name: string) {
    EndsWith(name, ".rcore") || EndsWith(name, ".rcore.lzo")
  }

  lemma LongerSuffix(s: string, c: char, suffix: string)
    requires EndsWith(s, [c] + suffix)
    ensures EndsWith(s, suffix)
  {
    assert Lower(s)[|s| - |suffix|..] == Lower(s)[|s| - |suffix| - 1..][1..];
  }

  lemma FilteredIsValid(name: string)
    requires PassesFilter(name)
    ensures ValidateCore(name)
  {
    hide EndsWith;
    assert ".rcore" == ['.'] + "rcore" && ".rcore.lzo" == ['.'] + "rcore.lzo";
    if EndsWith(name, ".rcore") { LongerSuffix(name, '.', "rcore"); } else { LongerSuffix(name, '.', "rcore.lzo"); }
  }

  // What a directory iterator yields: each file once, filtered by name.
  ghost predicate IsListing(s: seq<string>) {
    Distinct(s) && forall i :: 0 <= i < |s| ==> PassesFilter(s[i])
  }

  /* ---- the index on values ---- */

  function FirstUnseen(index: seq<string>, listing: seq<string>): Option<string> {
    if listing == [] then None
    else if listing[0] !in index && ValidateCore(listing[0]) then Some(listing[0])
    else FirstUnseen(index, listing[1..])
  }

  // A check lists the directory once to find a new file and, if there is none, once more to refresh.
  datatype Op =
    | Check(listing: seq<string>, again: seq<string>)
    | Update(listing: seq<string>)
    | Create(mounted: bool, present: bool, listing: seq<string>)

  ghost predicate GoodOp(op: Op) {
    IsListing(op.listing) && (op.Check? ==> IsListing(op.again))
  }

  function Reported(index: seq<string>, op: Op): Option<string> {
    if op.Check? then FirstUnseen(index, op.listing) else None
  }

  // The directory contents the index is replaced by, if it is.
  function Refresh(index: seq<string>, op: Op): Option<seq<string>> {
    match op
    case Check(listing, again) => if FirstUnseen(index, listing).Some? then None else Some(again)
    case Update(listing) => Some(listing)
    case Create(mounted, present, listing) =>
      if !mounted then None else if present then Some(listing) else Some([])
  }

  function Apply(index: seq<string>, op: Op): seq<string> {
    if Refresh(index, op).Some? then Refresh(index, op).value
    else if Reported(index, op).Some? then index + [Reported(index, op).value]
    else index
  }

  function ApplyAll(index: seq<string>, ops: seq<Op>): seq<string>
    decreases |ops|
  {
    if ops == [] then index else ApplyAll(Apply(index, ops[0]), ops[1..])
  }

  /* ---- the object ---- */

  class Dir {
    var coresAtDirectory: seq<string>

    constructor ()
      ensures coresAtDirectory == []
    {
      coresAtDirectory := [];
    }

    method CheckDirectoryForCores(listing: seq<string>, again: seq<string>) returns (found: Option<string>)
      modifies this
      ensures found == Reported(old(coresAtDirectory), Check(listing, again))
      ensures coresAtDirectory == Apply(old(coresAtDirectory), Check(listing, again))
    {
      found := None;
      assert listing[0..] == listing;
      for i := 0 to |listing|
        invariant coresAtDirectory == old(coresAtDirectory) && found == None
        invariant FirstUnseen(coresAtDirectory, listing[i..]) == FirstUnseen(coresAtDirectory, listing)
      {
        assert listing[i..][1..] == listing[i + 1..];
        if listing[i] !in coresAtDirectory && ValidateCore(listing[i]) {
          coresAtDirectory := coresAtDirectory + [listing[i]];
          found := Some(listing[i]);
          break;
        }
      }
      if found.None? { UpdateCoreList(again); }
    }

    method UpdateCoreList(listing: seq<string>)
      modifies this
      ensures coresAtDirectory == Apply(old(coresAtDirectory), Update(listing))
    {
      coresAtDirectory := [];
      for i := 0 to |listing|
        invariant coresAtDirectory == listing[..i]
      {
        coresAtDirectory := coresAtDirectory + [listing[i]];
      }
      assert listing[..|listing|] == listing;
    }

    method CreateCoreDirectory(mounted: bool, present: bool, listing: seq<string>)
      modifies this
      ensures coresAtDirectory == Apply(old(coresAtDirectory), Create(mounted, present, listing))
    {
      if mounted {
        if !present {
          coresAtDirectory := [];
        } else {
          UpdateCoreList(listing);
        }
      }
    }
  }

  /* ---- what is new ---- */

  lemma {:induction false} FirstUnseenIsFirst(index: seq<string>, listing: seq<string>)
    requires forall i :: 0 <= i < |listing| ==> PassesFilter(listing[i])
    ensures match FirstUnseen(index, listing)
            case None => forall x :: x in listing ==> x in index
            case Some(x) => x in listing && x !in index
  {
    hide ValidateCore, PassesFilter;
    if listing == [] {
    } else {
      FilteredIsValid(listing[0]);
      FirstUnseenIsFirst(index, listing[1..]);
      assert forall x :: x in listing <==> x == listing[0] || x in listing[1..];
    }
  }

  lemma StepDistinct(index: seq<string>, op: Op)
    requires Distinct(index) && GoodOp(op)
    ensures Distinct(Apply(index, op))
  {
    hide PassesFilter, ValidateCore;
    FirstUnseenIsFirst(index, op.listing);
  }

  // The index never holds a name twice.
  lemma {:induction false} IndexStaysDistinct(index: seq<string>, ops: seq<Op>)
    requires Distinct(index) && forall i :: 0 <= i < |ops| ==> GoodOp(ops[i])
    ensures Distinct(ApplyAll(index, ops))
    decreases |ops|
  {
    hide GoodOp, Apply;
    if ops == [] {
    } else {
      StepDistinct(index, ops[0]);
      IndexStaysDistinct(Apply(index, ops[0]), ops[1..]);
    }
  }

  /* ---- an unchanging directory ---- */

  // The names of a listing that are not in the index, in the order of the listing.
  function Unseen(index: seq<string>, listing: seq<string>): seq<string> {
    if listing == [] then []
    else if listing[0] in index then Unseen(index, listing[1..])
    else [listing[0]] + Unseen(index, listing[1..])
  }

  // What n checks in a row report, and the index after them.
  function Reports(index: seq<string>, listing: seq<string>, n: nat): seq<Option<string>>
    decreases n
  {
    if n == 0 then []
    else
      var op := Check(listing, listing);
      [Reported(index, op)] + Reports(Apply(index, op), listing, n - 1)
  }

  function IndexAfter(index: seq<string>, listing: seq<string>, n: nat): seq<string>
    decreases n
  {
    if n == 0 then index else IndexAfter(Apply(index, Check(listing, listing)), listing, n - 1)
  }

  lemma {:induction false} UnseenIgnores(index: seq<string>, listing: seq<string>, x: string)
    requires x !in listing
    ensures Unseen(index + [x], listing) == Unseen(index, listing)
  {
    if listing == [] {
    } else {
      UnseenIgnores(index, listing[1..], x);
    }
  }

  lemma {:induction false} UnseenHead(index: seq<string>, listing: seq<string>)
    requires IsListing(listing)
    ensures FirstUnseen(index, listing)
         == if Unseen(index, listing) == [] then None else Some(Unseen(index, listing)[0])
    ensures Unseen(index, listing) != [] ==>
      Unseen(index + [Unseen(index, listing)[0]], listing) == Unseen(index, listing)[1..]
    ensures forall x :: x in Unseen(index, listing) <==> x in listing && x !in index
  {
    hide ValidateCore, PassesFilter;
    if listing == [] {
    } else {
      FilteredIsValid(listing[0]);
      UnseenHead(index, listing[1..]);
      assert forall x :: x in listing <==> x == listing[0] || x in listing[1..];
      if listing[0] !in index {
        UnseenIgnores(index, listing[1..], listing[0]);
      }
    }
  }

  lemma {:induction false} UnseenOfItself(index: seq<string>, listing: seq<string>)
    requires forall x :: x in listing ==> x in index
    ensures Unseen(index, listing) == []
  {
    if listing == [] {
    } else {
      UnseenOfItself(index, listing[1..]);
    }
  }

  lemma NoneUnseen(listing: seq<string>)
    requires IsListing(listing)
    ensures FirstUnseen(listing, listing) == None
  {
    FirstUnseenIsFirst(listing, listing);
  }

  lemma {:induction false} Settled(listing: seq<string>, n: nat)
    requires IsListing(listing)
    ensures IndexAfter(listing, listing, n) == listing
  {
    hide FirstUnseen, IsListing;
    if n == 0 {
    } else {
      NoneUnseen(listing);
      Settled(listing, n - 1);
    }
  }

  // Checking an unchanging directory over and over reports every unseen file exactly once, in the
  // order of the directory, and then nothing; once it has reported nothing, the index is the directory.
  lemma {:induction false} UnchangingDirectory(index: seq<string>, listing: seq<string>, n: nat)
    requires IsListing(listing)
    ensures |Reports(index, listing, n)| == n
    ensures forall k :: 0 <= k < n ==>
      (Reports(index, listing, n)[k]
       == (if k < |Unseen(index, listing)| then Some(Unseen(index, listing)[k]) else None))
    ensures n > |Unseen(index, listing)| ==> IndexAfter(index, listing, n) == listing
    decreases n
  {
    hide FirstUnseen, Unseen, IsListing;
    if n == 0 {
    } else {
      var op := Check(listing, listing);
      UnseenHead(index, listing);
      UnchangingDirectory(Apply(index, op), listing, n - 1);
      if Unseen(index, listing) == [] {
        UnseenOfItself(listing, listing);
        Settled(listing, n - 1);
      }
    }
  }

  /* ---- names and directories ---- */

  // Equal but for the case of ASCII letters.
  ghost predicate SameButCase(a: string, b: string) {
    |a| == |b| && forall i :: 0 <= i < |a| ==>
      a[i] == b[i] || ('A' <= a[i] <= 'Z' && b[i] as int == a[i] as int + 32)
                   || ('A' <= b[i] <= 'Z' && a[i] as int == b[i] as int + 32)
  }

  lemma EndsWithIff(s: string, suffix: string)
    requires forall i :: 0 <= i < |suffix| ==> !('A' <= suffix[i] <= 'Z')
    ensures EndsWith(s, suffix) <==> |suffix| <= |s| && SameButCase(s[|s| - |suffix|..], suffix)
  {
    if |suffix| <= |s| {
      var tail := s[|s| - |suffix|..];
      assert forall i :: 0 <= i < |suffix| ==> Lower(s)[|s| - |suffix|..][i] == Lower(tail)[i];
      assert Lower(s)[|s| - |suffix|..] == Lower(tail);
      assert forall i :: 0 <= i < |suffix| ==>
        (Lower(tail)[i] == suffix[i]
         <==> tail[i] == suffix[i] || ('A' <= tail[i] <= 'Z' && suffix[i] as int == tail[i] as int + 32));
    }
  }

  // A rich core is named *rcore or *rcore.lzo, in any case.
  lemma ValidCoreIff(name: string)
    ensures ValidateCore(name) <==>
      || (|name| >= 9 && SameButCase(name[|name| - 9..], "rcore.lzo"))
      || (|name| >= 5 && SameButCase(name[|name| - 5..], "rcore"))
  {
    hide EndsWith, SameButCase;
    EndsWithIff(name, "rcore.lzo");
    EndsWithIff(name, "rcore");
  }

  // A directory that is missing under its mount point empties the index, so that the next check hands
  // out any file; an unmounted one leaves the index alone, and an existing one replaces it.
  lemma CreatedDirectory(index: seq<string>, listing: seq<string>, x: string, rest: seq<string>, again: seq<string>)
    requires IsListing(listing) && IsListing([x] + rest)
    ensures Reported(Apply(index, Create(true, false, listing)), Check([x] + rest, again)) == Some(x)
    ensures Reported(Apply(index, Create(false, false, listing)), Check([x] + rest, again))
         == Reported(index, Check([x] + rest, again))
    ensures Reported(Apply(index, Create(true, true, [x] + rest)), Check([x] + rest, again)) == None
  {
    hide ValidateCore, PassesFilter;
    assert ([x] + rest)[0] == x;
    FilteredIsValid(x);
    NoneUnseen([x] + rest);
  }

  /* ---- over any run ---- */

  // A refresh that does not see the name.
  ghost predicate Drops(index: seq<string>, op: Op, x: string) {
    Refresh(index, op).Some? && x !in Refresh(index, op).value
  }

  lemma KeptUnlessDropped(index: seq<string>, op: Op, x: string)
    requires x in index && !Drops(index, op, x)
    ensures x in Apply(index, op)
  {
  }

  lemma {:induction false} StaysIndexed(index: seq<string>, ops: seq<Op>, x: string)
    requires x in index
    requires forall k :: 0 <= k < |ops| ==> !Drops(ApplyAll(index, ops[..k]), ops[k], x)
    ensures x in ApplyAll(index, ops)
    decreases |ops|
  {
    hide Drops, Apply;
    if ops == [] {
    } else {
      assert ops[..0] == [];
      assert !Drops(ApplyAll(index, ops[..0]), ops[0], x);
      KeptUnlessDropped(index, ops[0], x);
      forall k | 0 <= k < |ops[1..]|
        ensures !Drops(ApplyAll(Apply(index, ops[0]), ops[1..][..k]), ops[1..][k], x)
      {
        assert ops[..k + 1][1..] == ops[1..][..k] && ops[..k + 1][0] == ops[0];
        assert !Drops(ApplyAll(index, ops[..k + 1]), ops[k + 1], x);
      }
      StaysIndexed(Apply(index, ops[0]), ops[1..], x);
    }
  }

  lemma ReportedIsUnseen(index: seq<string>, op: Op, x: string)
    requires GoodOp(op) && Reported(index, op) == Some(x)
    ensures x !in index && Apply(index, op) == index + [x]
  {
    FirstUnseenIsFirst(index, op.listing);
  }

  lemma {:induction false} ApplyAppend(index: seq<string>, a: seq<Op>, b: seq<Op>)
    ensures ApplyAll(index, a + b) == ApplyAll(ApplyAll(index, a), b)
    decreases |a|
  {
    hide Apply;
    if a == [] {
      assert a + b == b;
    } else {
      assert (a + b)[0] == a[0] && (a + b)[1..] == a[1..] + b;
      ApplyAppend(Apply(index, a[0]), a[1..], b);
    }
  }

  lemma ApplySnoc(index: seq<string>, ops: seq<Op>, op: Op)
    ensures ApplyAll(index, ops + [op]) == Apply(ApplyAll(index, ops), op)
  {
    hide Apply;
    ApplyAppend(index, ops, [op]);
    assert [op][1..] == [];
  }

  lemma IndexedIsNotReported(index: seq<string>, op: Op, x: string)
    requires GoodOp(op) && x in index
    ensures Reported(index, op) != Some(x)
  {
    FirstUnseenIsFirst(index, op.listing);
  }

  // The index in the middle of a run, from the index right after operation i.
  lemma IndexBetween(index: seq<string>, ops: seq<Op>, i: nat, k: nat)
    requires i < k <= |ops|
    ensures ApplyAll(index, ops[..k]) == ApplyAll(Apply(ApplyAll(index, ops[..i]), ops[i]), ops[i + 1..k])
  {
    hide Apply, ApplyAll;
    assert ops[..k] == ops[..i] + [ops[i]] + ops[i + 1..k];
    ApplyAppend(index, ops[..i] + [ops[i]], ops[i + 1..k]);
    ApplySnoc(index, ops[..i], ops[i]);
  }

  // A name indexed by operation i stays indexed while every refresh sees it.
  lemma IndexedUntil(index: seq<string>, ops: seq<Op>, i: nat, j: nat, x: string)
    requires i < j < |ops|
    requires x in Apply(ApplyAll(index, ops[..i]), ops[i])
    requires forall k :: i < k < j ==> !Drops(ApplyAll(index, ops[..k]), ops[k], x)
    ensures x in ApplyAll(index, ops[..j])
  {
    hide Drops, Apply, ApplyAll;
    var at := Apply(ApplyAll(index, ops[..i]), ops[i]);
    var between := ops[i + 1..j];
    forall k | 0 <= k < |between| ensures !Drops(ApplyAll(at, between[..k]), between[k], x) {
      IndexBetween(index, ops, i, i + 1 + k);
      assert between[..k] == ops[i + 1..i + 1 + k] && between[k] == ops[i + 1 + k];
    }
    StaysIndexed(at, between, x);
    IndexBetween(index, ops, i, j);
  }

  // So does a name that was handed out.
  lemma NotReportedAgain(index: seq<string>, ops: seq<Op>, i: nat, j: nat, x: string)
    requires forall k :: 0 <= k < |ops| ==> GoodOp(ops[k])
    requires i < j < |ops|
    requires Reported(ApplyAll(index, ops[..i]), ops[i]) == Some(x)
    requires forall k :: i < k < j ==> !Drops(ApplyAll(index, ops[..k]), ops[k], x)
    ensures x in ApplyAll(index, ops[..j])
    ensures Reported(ApplyAll(index, ops[..j]), ops[j]) != Some(x)
  {
    hide Drops, Reported, Apply, ApplyAll, GoodOp;
    ReportedIsUnseen(ApplyAll(index, ops[..i]), ops[i], x);
    IndexedUntil(index, ops, i, j, x);
    IndexedIsNotReported(ApplyAll(index, ops[..j]), ops[j], x);
  }

  // A name reported once and reported again later was missed by a refresh in between.
  lemma ReportedTwice(index: seq<string>, ops: seq<Op>, i: nat, j: nat, x: string)
    requires forall k :: 0 <= k < |ops| ==> GoodOp(ops[k])
    requires i < j < |ops|
    requires Reported(ApplyAll(index, ops[..i]), ops[i]) == Some(x)
    requires Reported(ApplyAll(index, ops[..j]), ops[j]) == Some(x)
    ensures exists k :: i < k < j && Drops(ApplyAll(index, ops[..k]), ops[k], x)
  {
    hide Drops, Reported, Apply, GoodOp;
    ReportedIsUnseen(ApplyAll(index, ops[..j]), ops[j], x);
    if forall k :: i < k < j ==> !Drops(ApplyAll(index, ops[..k]), ops[k], x) {
      NotReportedAgain(index, ops, i, j, x);
    }
  }

  /* ---- files that are never reported ---- */

  // A name becomes indexed without having been handed out.
  ghost predicate Swallows(index: seq<string>, op: Op, x: string) {
    x !in index && x in Apply(index, op) && Reported(index, op) != Some(x)
  }

  // A check swallows a file exactly if it found nothing new and the file appeared between its two
  // listings; a refresh swallows every unseen file it lists.
  lemma SwallowedIff(index: seq<string>, op: Op, x: string)
    requires GoodOp(op)
    ensures Swallows(index, op, x) <==>
      match op
      case Check(listing, again) =>
        (forall y :: y in listing ==> y in index) && x in again && x !in index && x !in listing
      case Update(listing) => x in listing && x !in index
      case Create(mounted, present, listing) => mounted && present && x in listing && x !in index
  {
    hide PassesFilter, ValidateCore;
    FirstUnseenIsFirst(index, op.listing);
  }

  // A swallowed name is not handed out later either, as long as no refresh in between misses it.
  lemma SwallowedIsNotReported(index: seq<string>, ops: seq<Op>, i: nat, j: nat, x: string)
    requires forall k :: 0 <= k < |ops| ==> GoodOp(ops[k])
    requires i < j < |ops| && Swallows(ApplyAll(index, ops[..i]), ops[i], x)
    requires forall k :: i < k < j ==> !Drops(ApplyAll(index, ops[..k]), ops[k], x)
    ensures Reported(ApplyAll(index, ops[..j]), ops[j]) != Some(x)
  {
    hide Drops, Reported, Apply, ApplyAll, GoodOp;
    IndexedUntil(index, ops, i, j, x);
    IndexedIsNotReported(ApplyAll(index, ops[..j]), ops[j], x);
  }

  ghost predicate EverReported(index: seq<string>, ops: seq<Op>, x: string)
    decreases |ops|
  {
    ops != [] && (Reported(index, ops[0]) == Some(x) || EverReported(Apply(index, ops[0]), ops[1..], x))
  }

  ghost predicate EverSwallowed(index: seq<string>, ops: seq<Op>, x: string)
    decreases |ops|
  {
    ops != [] && (Swallows(index, ops[0], x) || EverSwallowed(Apply(index, ops[0]), ops[1..], x))
  }

  // No refresh takes the name out of the index again.
  ghost predicate NeverForgotten(index: seq<string>, ops: seq<Op>, x: string)
    decreases |ops|
  {
    ops == [] ||
    ((x in index ==> x in Apply(index, ops[0])) && NeverForgotten(Apply(index, ops[0]), ops[1..], x))
  }

  lemma {:induction false} IndexedForGood(index: seq<string>, ops: seq<Op>, x: string)
    requires forall k :: 0 <= k < |ops| ==> GoodOp(ops[k])
    requires x in index && NeverForgotten(index, ops, x)
    ensures x in ApplyAll(index, ops) && !EverReported(index, ops, x) && !EverSwallowed(index, ops, x)
    decreases |ops|
  {
    hide Apply, Reported, GoodOp;
    if ops == [] {
    } else {
      IndexedIsNotReported(index, ops[0], x);
      IndexedForGood(Apply(index, ops[0]), ops[1..], x);
    }
  }

  // A name that came into the index without being handed out was swallowed by some operation.
  lemma {:induction false} UnreportedWasSwallowed(index: seq<string>, ops: seq<Op>, x: string)
    requires x !in index && x in ApplyAll(index, ops) && !EverReported(index, ops, x)
    ensures EverSwallowed(index, ops, x)
    decreases |ops|
  {
    hide Apply, Reported;
    if ops == [] {
    } else if x !in Apply(index, ops[0]) {
      UnreportedWasSwallowed(Apply(index, ops[0]), ops[1..], x);
    }
  }

  // In any run that indexes a new name for good, the name is never handed out exactly if some
  // operation swallows it.
  lemma {:induction false} UnreportedIff(index: seq<string>, ops: seq<Op>, x: string)
    requires forall k :: 0 <= k < |ops| ==> GoodOp(ops[k])
    requires x !in index && x in ApplyAll(index, ops) && NeverForgotten(index, ops, x)
    ensures !EverReported(index, ops, x) <==> EverSwallowed(index, ops, x)
    decreases |ops|
  {
    hide Apply, Reported, GoodOp;
    if !EverReported(index, ops, x) {
      UnreportedWasSwallowed(index, ops, x);
    } else {
      var next := Apply(index, ops[0]);
      if x in next {
        IndexedForGood(next, ops[1..], x);
      } else {
        if Reported(index, ops[0]) == Some(x) { ReportedIsUnseen(index, ops[0], x); }
        UnreportedIff(next, ops[1..], x);
      }
    }
  }

  const LATE := "a.rcore"

  lemma LateIsListed()
    ensures IsListing([LATE]) && IsListing([])
  {
    assert Lower(LATE) == LATE;
    assert Lower(LATE)[|LATE| - |".rcore"|..] == ".rcore";
    assert EndsWith(LATE, ".rcore");
  }

  // A file that appears between the two listings of one check of an empty directory: no later check
  // hands it out, however often the directory is checked.
  lemma LateFileIsNeverReported(n: nat)
    ensures Swallows([], Check([], [LATE]), LATE) && Reported([], Check([], [LATE])) == None
    ensures var reports := Reports(Apply([], Check([], [LATE])), [LATE], n);
      |reports| == n && forall k :: 0 <= k < n ==> reports[k] == None
  {
    hide IsListing, Unseen, Reports;
    LateIsListed();
    var index := Apply([], Check([], [LATE]));
    assert index == [LATE];
    UnseenOfItself(index, [LATE]);
    UnchangingDirectory(index, [LATE], n);
  }
}
