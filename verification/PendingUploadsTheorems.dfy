/**
 What an incremental update promises: the right rows, in order, survivors untouched, notifications
 that a view can replay, and the same list that a rebuild would give.
 */
module PendingUploadsTheorems {
  import opened Basics
  import opened PendingUploads
  import FileNames

  function Paths(contents: seq<Item>): (r: seq<string>)
    ensures |r| == |contents|
    ensures forall i :: 0 <= i < |contents| ==> r[i] == contents[i].filePath
  {
    seq(|contents|, i requires 0 <= i < |contents| => contents[i].filePath)
  }

  ghost predicate NewestFirst(contents: seq<Item>) {
    forall i, j :: 0 <= i < j < |contents| ==> contents[i].dateCreated >= contents[j].dateCreated
  }

  /* ---- the rows: exactly those asked for ---- */

  lemma PathsCons(x: Item, rest: seq<Item>)
    ensures Paths([x] + rest) == [x.filePath] + Paths(rest)
  {
  }

  lemma RemoveAtBag(data: seq<string>, i: nat)
    requires i < |data|
    ensures multiset(data) == multiset(RemoveAt(data, i)) + multiset{data[i]}
  {
    assert data == data[..i] + [data[i]] + data[i + 1..];
  }

  lemma {:induction false} NothingLostInFirstPass(contents: seq<Item>, data: seq<string>)
    ensures multiset(Paths(Survivors(contents, data))) + multiset(Leftover(contents, data)) == multiset(data)
  {
    hide Paths, RemoveAt;
    if contents != [] {
      var c, rest := contents[0], contents[1..];
      var i := IndexOf(data, c.filePath);
      if i < |data| {
        NothingLostInFirstPass(rest, RemoveAt(data, i));
        RemoveAtBag(data, i);
        PathsCons(c, Survivors(rest, RemoveAt(data, i)));
      } else {
        NothingLostInFirstPass(rest, data);
      }
    } else {
      assert Paths([]) == [];
    }
  }

  lemma {:induction false} SurvivorsAreCommon(contents: seq<Item>, data: seq<string>)
    ensures multiset(Paths(Survivors(contents, data))) == multiset(Paths(contents)) * multiset(data)
  {
    hide Paths, RemoveAt;
    if contents != [] {
      var c, rest := contents[0], contents[1..];
      assert contents == [c] + rest;
      PathsCons(c, rest);
      var i := IndexOf(data, c.filePath);
      if i < |data| {
        SurvivorsAreCommon(rest, RemoveAt(data, i));
        RemoveAtBag(data, i);
        PathsCons(c, Survivors(rest, RemoveAt(data, i)));
      } else {
        SurvivorsAreCommon(rest, data);
        assert c.filePath !in multiset(data);
      }
    } else {
      assert Paths([]) == [];
    }
  }

  lemma InsertBag(contents: seq<Item>, item: Item)
    ensures multiset(Paths(Insert(contents, item))) == multiset(Paths(contents)) + multiset{item.filePath}
  {
    var i := Position(contents, item.dateCreated);
    assert Paths(Insert(contents, item)) == Paths(contents)[..i] + [item.filePath] + Paths(contents)[i..];
    assert Paths(contents) == Paths(contents)[..i] + Paths(contents)[i..];
  }

  lemma NewItemPath(path: string, w: World)
    ensures NewItem(path, w).filePath == path && NewItem(path, w).dateCreated == w.created(path)
  {
  }

  lemma {:induction false} InsertAllBag(contents: seq<Item>, paths: seq<string>, w: World)
    ensures multiset(Paths(InsertAll(contents, paths, w))) == multiset(Paths(contents)) + multiset(paths)
    decreases |paths|
  {
    hide Insert, NewItem;
    if paths == [] {
    } else {
      var item := NewItem(paths[0], w);
      InsertBag(contents, item);
      InsertAllBag(Insert(contents, item), paths[1..], w);
      assert paths == [paths[0]] + paths[1..];
      NewItemPath(paths[0], w);
    }
  }

  // Whatever the old contents and however often a path is listed, the rows after an update are the
  // listed paths with their multiplicity.
  lemma RowsAreTheList(contents: seq<Item>, data: seq<string>, w: World)
    ensures multiset(Paths(Synced(contents, data, w))) == multiset(data)
  {
    hide Survivors, Leftover, InsertAll;
    NothingLostInFirstPass(contents, data);
    InsertAllBag(Survivors(contents, data), Leftover(contents, data), w);
  }

  /* ---- survivors ---- */

  lemma {:induction false} SubsequenceOfInsertAt(a: seq<Item>, b: seq<Item>, i: nat, x: Item)
    requires Subsequence(a, b) && i <= |b|
    ensures Subsequence(a, InsertAt(b, i, x))
    decreases |b|
  {
    var c := InsertAt(b, i, x);
    if a == [] {
    } else {
      if i == 0 {
        assert c[1..] == b;
      } else {
        assert c[0] == b[0] && c[1..] == InsertAt(b[1..], i - 1, x);
        if a[0] == b[0] && Subsequence(a[1..], b[1..]) {
          SubsequenceOfInsertAt(a[1..], b[1..], i - 1, x);
        } else {
          SubsequenceOfInsertAt(a, b[1..], i - 1, x);
        }
      }
    }
  }

  lemma {:induction false} SubsequenceOfInsertAll(a: seq<Item>, contents: seq<Item>, paths: seq<string>, w: World)
    requires Subsequence(a, contents)
    ensures Subsequence(a, InsertAll(contents, paths, w))
    decreases |paths|
  {
    hide Subsequence;
    if paths == [] {
    } else {
      var item := NewItem(paths[0], w);
      SubsequenceOfInsertAt(a, contents, Position(contents, item.dateCreated), item);
      SubsequenceOfInsertAll(a, Insert(contents, item), paths[1..], w);
    }
  }

  lemma {:induction false} SurvivorsAreOld(contents: seq<Item>, data: seq<string>)
    ensures Subsequence(Survivors(contents, data), contents)
  {
    if contents == [] {
    } else {
      var i := IndexOf(data, contents[0].filePath);
      if i < |data| {
        SurvivorsAreOld(contents[1..], RemoveAt(data, i));
        assert Survivors(contents, data)[1..] == Survivors(contents[1..], RemoveAt(data, i));
      } else {
        SurvivorsAreOld(contents[1..], data);
      }
    }
  }

  // Every old row whose path is still listed stays as it is, and these rows keep their order.
  lemma SurvivorsKept(contents: seq<Item>, data: seq<string>, w: World)
    ensures Subsequence(Survivors(contents, data), contents)
    ensures Subsequence(Survivors(contents, data), Synced(contents, data, w))
    ensures multiset(Paths(Survivors(contents, data))) == multiset(Paths(contents)) * multiset(data)
  {
    hide Survivors, Leftover, InsertAll, Subsequence;
    SurvivorsAreOld(contents, data);
    SubsequenceRefl(Survivors(contents, data));
    SubsequenceOfInsertAll(Survivors(contents, data), Survivors(contents, data), Leftover(contents, data), w);
    SurvivorsAreCommon(contents, data);
  }

  /* ---- order ---- */

  lemma {:induction false} SubsequenceNewestFirst(a: seq<Item>, b: seq<Item>)
    requires Subsequence(a, b) && NewestFirst(b)
    ensures NewestFirst(a)
    decreases |b|
  {
    if a == [] {
    } else {
      if a[0] == b[0] && Subsequence(a[1..], b[1..]) {
        SubsequenceNewestFirst(a[1..], b[1..]);
        SubsequenceMembers(a[1..], b[1..]);
        assert forall j :: 1 <= j < |a| ==> a[j] in a[1..];
        assert forall x :: x in b[1..] ==> b[0].dateCreated >= x.dateCreated;
      } else {
        SubsequenceNewestFirst(a, b[1..]);
      }
    }
  }

  lemma {:induction false} InsertAllNewestFirst(contents: seq<Item>, paths: seq<string>, w: World)
    requires NewestFirst(contents)
    ensures NewestFirst(InsertAll(contents, paths, w))
    decreases |paths|
  {
    hide NewItem;
    if paths == [] {
    } else {
      InsertAllNewestFirst(Insert(contents, NewItem(paths[0], w)), paths[1..], w);
    }
  }

  // An update keeps the list newest first, whatever dates the files have at that moment.
  lemma StaysNewestFirst(contents: seq<Item>, data: seq<string>, w: World)
    requires NewestFirst(contents)
    ensures NewestFirst(Synced(contents, data, w))
  {
    hide Survivors, Leftover, InsertAll, Subsequence, NewestFirst;
    SurvivorsAreOld(contents, data);
    SubsequenceNewestFirst(Survivors(contents, data), contents);
    InsertAllNewestFirst(Survivors(contents, data), Leftover(contents, data), w);
  }

  /* ---- notifications ---- */

  // A view applies notifications one by one; an index out of range stops it.
  function Replay(view: seq<Item>, notes: seq<Note>): Option<seq<Item>>
    decreases |notes|
  {
    if notes == [] then Some(view)
    else
      match notes[0]
      case Removed(at) => if at < |view| then Replay(RemoveAt(view, at), notes[1..]) else None
      case Inserted(at, item) => if at <= |view| then Replay(InsertAt(view, at, item), notes[1..]) else None
  }

  lemma {:induction false} ReplayAppend(view: seq<Item>, a: seq<Note>, b: seq<Note>)
    ensures Replay(view, a).Some? ==> Replay(view, a + b) == Replay(Replay(view, a).value, b)
    decreases |a|
  {
    if a == [] {
      assert a + b == b;
    } else {
      assert (a + b)[0] == a[0] && (a + b)[1..] == a[1..] + b;
      match a[0] {
        case Removed(at) => if at < |view| { ReplayAppend(RemoveAt(view, at), a[1..], b); }
        case Inserted(at, item) => if at <= |view| { ReplayAppend(InsertAt(view, at, item), a[1..], b); }
      }
    }
  }

  lemma ReplayOneRemoval(before: seq<Item>, contents: seq<Item>, notes: seq<Note>)
    requires contents != []
    ensures Replay(before + contents, [Removed(|before|)] + notes) == Replay(before + contents[1..], notes)
  {
    var view := before + contents;
    assert RemoveAt(view, |before|) == before + contents[1..];
    assert ([Removed(|before|)] + notes)[1..] == notes;
  }

  lemma ReplayNothing(view: seq<Item>)
    ensures Replay(view, []) == Some(view)
  {
  }

  lemma {:induction false} ReplayRemovals(before: seq<Item>, contents: seq<Item>, data: seq<string>)
    ensures Replay(before + contents, RemovalNotes(contents, data, |before|))
         == Some(before + Survivors(contents, data))
    decreases |contents|
  {
    hide IndexOf, Replay;
    if contents == [] {
      ReplayNothing(before + contents);
    } else {
      var c, rest := contents[0], contents[1..];
      var i := IndexOf(data, c.filePath);
      if i < |data| {
        ReplayRemovals(before + [c], rest, RemoveAt(data, i));
        assert before + contents == before + [c] + rest;
        assert before + [c] + Survivors(rest, RemoveAt(data, i)) == before + Survivors(contents, data);
      } else {
        ReplayRemovals(before, rest, data);
        ReplayOneRemoval(before, contents, RemovalNotes(rest, data, |before|));
      }
    }
  }

  lemma {:induction false} ReplayInsertions(contents: seq<Item>, paths: seq<string>, w: World)
    ensures Replay(contents, InsertionNotes(contents, paths, w)) == Some(InsertAll(contents, paths, w))
    decreases |paths|
  {
    hide NewItem;
    if paths == [] {
    } else {
      var item := NewItem(paths[0], w);
      ReplayInsertions(Insert(contents, item), paths[1..], w);
      var notes := InsertionNotes(contents, paths, w);
      assert notes[1..] == InsertionNotes(Insert(contents, item), paths[1..], w);
    }
  }

  // A view that applies the notifications of an update to a copy of the old rows finds every index
  // in range and ends with exactly the new rows.
  lemma ViewsCanReplay(contents: seq<Item>, data: seq<string>, w: World)
    ensures Replay(contents, Notes(contents, data, w)) == Some(Synced(contents, data, w))
  {
    hide Replay, RemovalNotes, InsertionNotes, Survivors, Leftover, InsertAll;
    ReplayRemovals([], contents, data);
    assert [] + contents == contents && [] + Survivors(contents, data) == Survivors(contents, data);
    ReplayInsertions(Survivors(contents, data), Leftover(contents, data), w);
    ReplayAppend(contents, RemovalNotes(contents, data, 0),
                 InsertionNotes(Survivors(contents, data), Leftover(contents, data), w));
  }

  lemma {:induction false} RemovalCount(contents: seq<Item>, data: seq<string>, at: nat)
    ensures |RemovalNotes(contents, data, at)| == |contents| - |Survivors(contents, data)|
  {
    if contents == [] {
    } else {
      var i := IndexOf(data, contents[0].filePath);
      if i < |data| {
        RemovalCount(contents[1..], RemoveAt(data, i), at + 1);
      } else {
        RemovalCount(contents[1..], data, at);
      }
    }
  }

  lemma {:induction false} InsertionCount(contents: seq<Item>, paths: seq<string>, w: World)
    ensures |InsertionNotes(contents, paths, w)| == |paths|
    decreases |paths|
  {
    hide NewItem, Insert;
    if paths == [] {
    } else {
      InsertionCount(Insert(contents, NewItem(paths[0], w)), paths[1..], w);
    }
  }

  // The update announces as few rows as possible: those only in the old list are removed, those only
  // in the new one inserted.  In particular it is silent exactly for a permutation of the current paths.
  lemma AnnouncesTheDifference(contents: seq<Item>, data: seq<string>, w: World)
    ensures var old', new' := multiset(Paths(contents)), multiset(data);
      && |Notes(contents, data, w)| == |old' - new'| + |new' - old'|
      && (Notes(contents, data, w) == [] <==> old' == new')
  {
    hide RemovalNotes, InsertionNotes, Survivors, Leftover;
    RemovalCount(contents, data, 0);
    InsertionCount(Survivors(contents, data), Leftover(contents, data), w);
    NothingLostInFirstPass(contents, data);
    SurvivorsAreCommon(contents, data);
    var kept := Paths(Survivors(contents, data));
    var bag, old', new' := multiset(kept), multiset(Paths(contents)), multiset(data);
    assert |bag| == |kept| && |old'| == |contents| && |multiset(Leftover(contents, data))| == |Leftover(contents, data)|;
    assert old' == bag + (old' - new');
    assert multiset(Leftover(contents, data)) == new' - old';
    assert old' == new' <==> old' - new' == multiset{} && new' - old' == multiset{} by {
      assert new' == bag + (new' - old');
    }
  }

  /* ---- incremental update against rebuild ---- */

  // All rows were made with the same file dates.
  ghost predicate MadeIn(contents: seq<Item>, w: World) {
    forall i :: 0 <= i < |contents| ==> contents[i] == NewItem(contents[i].filePath, w)
  }

  lemma SubsequenceMadeIn(a: seq<Item>, b: seq<Item>, w: World)
    requires Subsequence(a, b) && MadeIn(b, w)
    ensures MadeIn(a, w)
  {
    hide NewItem;
    SubsequenceMembers(a, b);
    forall i | 0 <= i < |a| ensures a[i] == NewItem(a[i].filePath, w) {
      assert a[i] in b;
    }
  }

  lemma InsertOneMadeIn(contents: seq<Item>, path: string, w: World)
    requires MadeIn(contents, w)
    ensures MadeIn(Insert(contents, NewItem(path, w)), w)
  {
    NewItemPath(path, w);
    hide NewItem;
  }

  lemma {:induction false} InsertAllMadeIn(contents: seq<Item>, paths: seq<string>, w: World)
    requires MadeIn(contents, w)
    ensures MadeIn(InsertAll(contents, paths, w), w)
    decreases |paths|
  {
    if paths == [] {
    } else {
      InsertOneMadeIn(contents, paths[0], w);
      InsertAllMadeIn(Insert(contents, NewItem(paths[0], w)), paths[1..], w);
    }
  }

  lemma SyncedMadeIn(contents: seq<Item>, data: seq<string>, w: World)
    requires MadeIn(contents, w)
    ensures MadeIn(Synced(contents, data, w), w)
  {
    hide Survivors, Leftover, InsertAll, Subsequence, MadeIn;
    SurvivorsAreOld(contents, data);
    SubsequenceMadeIn(Survivors(contents, data), contents, w);
    InsertAllMadeIn(Survivors(contents, data), Leftover(contents, data), w);
  }

  // No two different listed files were created at the same time.
  ghost predicate NoTies(data: seq<string>, w: World) {
    forall p, q :: p in data && q in data && w.created(p) == w.created(q) ==> p == q
  }

  // Rows as an update leaves them, for paths from the list.
  ghost predicate InOrder(a: seq<Item>, w: World, data: seq<string>) {
    NewestFirst(a) && MadeIn(a, w) && (forall i :: 0 <= i < |a| ==> a[i].filePath in data)
  }

  lemma TailInOrder(a: seq<Item>, w: World, data: seq<string>)
    requires a != [] && InOrder(a, w, data)
    ensures InOrder(a[1..], w, data)
    ensures multiset(Paths(a[1..])) == multiset(Paths(a)) - multiset{a[0].filePath}
  {
    hide NewItem, Paths;
    PathsCons(a[0], a[1..]);
    assert a == [a[0]] + a[1..];
  }

  lemma SameHead(a: seq<Item>, b: seq<Item>, w: World, data: seq<string>)
    requires a != [] && b != []
    requires InOrder(a, w, data) && InOrder(b, w, data) && NoTies(data, w)
    requires multiset(Paths(a)) == multiset(Paths(b))
    ensures a[0] == b[0]
  {
    hide NewItem;
    var p, q := a[0].filePath, b[0].filePath;
    assert Paths(a)[0] == p && Paths(b)[0] == q;
    assert p in multiset(Paths(b)) && q in multiset(Paths(a));
    assert p in Paths(b) && q in Paths(a);
    var i :| 0 <= i < |b| && Paths(b)[i] == p;
    var j :| 0 <= j < |a| && Paths(a)[j] == q;
    assert b[i] == NewItem(p, w) && a[j] == NewItem(q, w);
    assert a[0] == NewItem(p, w) && b[0] == NewItem(q, w);
    NewItemPath(p, w);
    NewItemPath(q, w);
    assert w.created(p) >= w.created(q) >= w.created(p);
  }

  lemma {:induction false} SortedIsUnique(a: seq<Item>, b: seq<Item>, w: World, data: seq<string>)
    requires InOrder(a, w, data) && InOrder(b, w, data) && NoTies(data, w)
    requires multiset(Paths(a)) == multiset(Paths(b))
    ensures a == b
    decreases |a|
  {
    hide InOrder, NoTies;
    assert |multiset(Paths(a))| == |a| && |multiset(Paths(b))| == |b|;
    if a == [] {
    } else {
      SameHead(a, b, w, data);
      TailInOrder(a, w, data);
      TailInOrder(b, w, data);
      SortedIsUnique(a[1..], b[1..], w, data);
      assert a == [a[0]] + a[1..] && b == [b[0]] + b[1..];
    }
  }

  // Any sequence of updates, all seeing the same file dates.
  function SyncAll(lists: seq<seq<string>>, w: World): seq<Item>
    decreases |lists|
  {
    if lists == [] then [] else Synced(SyncAll(lists[..|lists| - 1], w), lists[|lists| - 1], w)
  }

  lemma {:induction false} SyncAllOrdered(lists: seq<seq<string>>, w: World)
    ensures NewestFirst(SyncAll(lists, w)) && MadeIn(SyncAll(lists, w), w)
    decreases |lists|
  {
    hide Synced, NewItem;
    if lists == [] {
    } else {
      var before := SyncAll(lists[..|lists| - 1], w);
      SyncAllOrdered(lists[..|lists| - 1], w);
      StaysNewestFirst(before, lists[|lists| - 1], w);
      SyncedMadeIn(before, lists[|lists| - 1], w);
    }
  }

  lemma PathsListed(a: seq<Item>, data: seq<string>)
    requires multiset(Paths(a)) == multiset(data)
    ensures forall i :: 0 <= i < |a| ==> a[i].filePath in data
  {
    forall i | 0 <= i < |a| ensures a[i].filePath in data {
      assert Paths(a)[i] in multiset(data);
    }
  }

  // Whatever lists came before, the rows are those of a rebuild from the last list, if the files of
  // that list were created at different times.
  lemma IncrementalIsRebuild(before: seq<seq<string>>, data: seq<string>, w: World)
    requires NoTies(data, w)
    ensures Synced(SyncAll(before, w), data, w) == Synced([], data, w)
  {
    hide Synced, NewestFirst, MadeIn;
    var old' := SyncAll(before, w);
    SyncAllOrdered(before, w);
    SyncAllOrdered([], w);
    StaysNewestFirst(old', data, w);
    StaysNewestFirst([], data, w);
    SyncedMadeIn(old', data, w);
    SyncedMadeIn([], data, w);
    RowsAreTheList(old', data, w);
    RowsAreTheList([], data, w);
    PathsListed(Synced(old', data, w), data);
    PathsListed(Synced([], data, w), data);
    SortedIsUnique(Synced(old', data, w), Synced([], data, w), w, data);
  }

  /* ---- and only then ---- */

  // The path of the topmost row with the given date.
  function Topmost(contents: seq<Item>, date: int): Option<string> {
    if contents == [] then None
    else if contents[0].dateCreated == date then Some(contents[0].filePath)
    else Topmost(contents[1..], date)
  }

  function FirstDated(paths: seq<string>, w: World, date: int): Option<string> {
    if paths == [] then None
    else if w.created(paths[0]) == date then Some(paths[0])
    else FirstDated(paths[1..], w, date)
  }

  lemma InsertHead(contents: seq<Item>, item: Item)
    ensures Insert(contents, item)
         == if contents == [] || item.dateCreated > contents[0].dateCreated then [item] + contents
            else [contents[0]] + Insert(contents[1..], item)
  {
    if contents != [] && item.dateCreated <= contents[0].dateCreated {
      var i := Position(contents[1..], item.dateCreated);
      assert contents[..i + 1] == [contents[0]] + contents[1..][..i];
      assert contents[i + 1..] == contents[1..][i..];
    }
  }

  lemma {:induction false} NoneDated(contents: seq<Item>, date: int)
    requires forall i :: 0 <= i < |contents| ==> contents[i].dateCreated != date
    ensures Topmost(contents, date) == None
  {
    if contents == [] {
    } else {
      NoneDated(contents[1..], date);
    }
  }

  // Among rows of the same date, a new one goes below.
  lemma {:induction false} InsertGoesBelow(contents: seq<Item>, item: Item, date: int)
    requires NewestFirst(contents)
    ensures Topmost(Insert(contents, item), date)
         == if Topmost(contents, date).Some? then Topmost(contents, date)
            else if item.dateCreated == date then Some(item.filePath) else None
  {
    hide Insert;
    var after := Insert(contents, item);
    InsertHead(contents, item);
    if contents == [] || item.dateCreated > contents[0].dateCreated {
      assert after[1..] == contents;
      if item.dateCreated == date { NoneDated(contents, date); }
    } else {
      InsertGoesBelow(contents[1..], item, date);
      assert after[1..] == Insert(contents[1..], item);
    }
  }

  lemma InsertOne(contents: seq<Item>, path: string, w: World)
    ensures InsertAll(contents, [path], w) == Insert(contents, NewItem(path, w))
  {
    hide Insert, NewItem;
    assert [path][1..] == [];
  }

  lemma {:induction false} InsertAllGoesBelow(contents: seq<Item>, paths: seq<string>, w: World, date: int)
    requires NewestFirst(contents)
    ensures Topmost(InsertAll(contents, paths, w), date)
         == if Topmost(contents, date).Some? then Topmost(contents, date) else FirstDated(paths, w, date)
    decreases |paths|
  {
    hide Insert, NewItem, Topmost, NewestFirst;
    if paths == [] {
    } else {
      var item := NewItem(paths[0], w);
      NewItemPath(paths[0], w);
      InsertOne(contents, paths[0], w);
      InsertAllNewestFirst(contents, [paths[0]], w);
      InsertGoesBelow(contents, item, date);
      InsertAllGoesBelow(Insert(contents, item), paths[1..], w, date);
    }
  }

  lemma {:induction false} FirstDatedIn(paths: seq<string>, w: World, p: string)
    requires p in paths
    ensures FirstDated(paths, w, w.created(p)).Some?
    ensures FirstDated(paths, w, w.created(p)).value in paths
    ensures w.created(FirstDated(paths, w, w.created(p)).value) == w.created(p)
  {
    if paths[0] != p && w.created(paths[0]) != w.created(p) { FirstDatedIn(paths[1..], w, p); }
  }

  lemma OneRow(path: string, w: World)
    ensures Synced([], [path], w) == [NewItem(path, w)]
  {
    assert InsertAll([], [path], w) == InsertAll(Insert([], NewItem(path, w)), [], w);
  }

  lemma TopmostOfRebuild(data: seq<string>, w: World, date: int)
    ensures Topmost(Synced([], data, w), date) == FirstDated(data, w, date)
  {
    InsertAllGoesBelow([], data, w, date);
  }

  lemma TopmostAfterOne(path: string, data: seq<string>, w: World)
    requires path in data
    ensures Topmost(Synced([NewItem(path, w)], data, w), w.created(path)) == Some(path)
  {
    var row := [NewItem(path, w)];
    NewItemPath(path, w);
    assert Survivors(row, data) == row;
    InsertAllGoesBelow(row, Leftover(row, data), w, w.created(path));
  }

  // A list with a tie has a history after which the update differs from a rebuild.
  lemma TieShows(data: seq<string>, w: World, p: string, q: string)
    requires p in data && q in data && p != q && w.created(p) == w.created(q)
    ensures exists before :: Synced(SyncAll(before, w), data, w) != Synced([], data, w)
  {
    hide InsertAll, FirstDated, Topmost;
    var date := w.created(p);
    FirstDatedIn(data, w, p);
    var first := FirstDated(data, w, date).value;
    var other := if p == first then q else p;
    OneRow(other, w);
    var before := [[other]];
    assert before[..0] == [];
    assert SyncAll(before, w) == [NewItem(other, w)];
    TopmostOfRebuild(data, w, date);
    TopmostAfterOne(other, data, w);
    assert Synced(SyncAll(before, w), data, w) != Synced([], data, w);
  }

  // Incremental updating to a list gives the rows of a rebuild after every history exactly if no two
  // different files of the list were created at the same time.
  lemma IncrementalIsRebuildIff(data: seq<string>, w: World)
    ensures (forall before :: Synced(SyncAll(before, w), data, w) == Synced([], data, w)) <==> NoTies(data, w)
  {
    hide Synced;
    if NoTies(data, w) {
      forall before ensures Synced(SyncAll(before, w), data, w) == Synced([], data, w) {
        IncrementalIsRebuild(before, data, w);
      }
    } else {
      var p, q :| p in data && q in data && w.created(p) == w.created(q) && p != q;
      TieShows(data, w, p, q);
    }
  }

  /* ---- exactly which rows, and where ---- */

  // The rows that are kept: of equal paths, the first ones, as many as are listed.
  function Kept(contents: seq<Item>, data: seq<string>): seq<Item>
    decreases |contents|
  {
    if contents == [] then []
    else
      var init, last := contents[..|contents| - 1], contents[|contents| - 1];
      Kept(init, data)
      + if multiset(Paths(init))[last.filePath] < multiset(data)[last.filePath] then [last] else []
  }

  lemma {:induction false} SurvivorsSnoc(contents: seq<Item>, x: Item, data: seq<string>)
    ensures Survivors(contents + [x], data)
         == Survivors(contents, data) + if x.filePath in Leftover(contents, data) then [x] else []
    decreases |contents|
  {
    hide RemoveAt;
    var longer := contents + [x];
    if contents == [] {
      assert longer[1..] == [];
    } else {
      assert longer[0] == contents[0] && longer[1..] == contents[1..] + [x];
      var i := IndexOf(data, contents[0].filePath);
      SurvivorsSnoc(contents[1..], x, if i < |data| then RemoveAt(data, i) else data);
    }
  }

  lemma NoSurvivors(data: seq<string>)
    ensures Survivors([], data) == [] && Leftover([], data) == data
  {
  }

  lemma {:induction false} SurvivorsAreKept(contents: seq<Item>, data: seq<string>)
    ensures Survivors(contents, data) == Kept(contents, data)
    decreases |contents|
  {
    hide Survivors, Leftover, Paths;
    if contents == [] {
      NoSurvivors(data);
    } else {
      var init, last := contents[..|contents| - 1], contents[|contents| - 1];
      assert contents == init + [last];
      SurvivorsSnoc(init, last, data);
      SurvivorsAreKept(init, data);
      NothingLostInFirstPass(init, data);
      SurvivorsAreCommon(init, data);
      var p := last.filePath;
      assert p in Leftover(init, data) <==> multiset(Leftover(init, data))[p] > 0;
    }
  }

  // What the list asks for beyond the given paths, in the order of the list.
  function Excess(data: seq<string>, taken: multiset<string>): seq<string> {
    if data == [] then []
    else if data[0] in taken then Excess(data[1..], taken - multiset{data[0]})
    else [data[0]] + Excess(data[1..], taken)
  }

  lemma ExcessCons(x: string, rest: seq<string>, taken: multiset<string>)
    ensures Excess([x] + rest, taken)
         == if x in taken then Excess(rest, taken - multiset{x}) else [x] + Excess(rest, taken)
  {
    assert ([x] + rest)[1..] == rest;
  }

  lemma RemoveLater(x: string, rest: seq<string>, p: string)
    requires x != p && p in rest
    ensures p in [x] + rest
    ensures RemoveAt([x] + rest, IndexOf([x] + rest, p)) == [x] + RemoveAt(rest, IndexOf(rest, p))
  {
    assert ([x] + rest)[1..] == rest;
  }

  lemma RemoveHead(x: string, rest: seq<string>)
    ensures RemoveAt([x] + rest, IndexOf([x] + rest, x)) == rest
  {
  }

  lemma ExcessOfNothing(taken: multiset<string>)
    ensures Excess([], taken) == []
  {
  }

  lemma {:induction false} ExcessOfMore(data: seq<string>, p: string, taken: multiset<string>)
    ensures Excess(data, taken + multiset{p})
         == if p in data then Excess(RemoveAt(data, IndexOf(data, p)), taken) else Excess(data, taken)
    decreases |data|
  {
    hide RemoveAt, Excess, IndexOf;
    if data == [] {
      ExcessOfNothing(taken);
      ExcessOfNothing(taken + multiset{p});
    } else {
      var x, rest := data[0], data[1..];
      assert data == [x] + rest;
      ExcessCons(x, rest, taken + multiset{p});
      ExcessCons(x, rest, taken);
      if x == p {
        assert taken + multiset{p} - multiset{p} == taken;
        assert RemoveAt(data, IndexOf(data, p)) == rest by { RemoveHead(p, rest); }
      } else {
        if x in taken {
          assert taken + multiset{p} - multiset{x} == taken - multiset{x} + multiset{p};
          ExcessOfMore(rest, p, taken - multiset{x});
        } else {
          ExcessOfMore(rest, p, taken);
        }
        if p in rest {
          RemoveLater(x, rest, p);
          ExcessCons(x, RemoveAt(rest, IndexOf(rest, p)), taken);
        }
      }
    }
  }

  lemma NoPaths()
    ensures Paths([]) == []
  {
  }

  lemma {:induction false} ExcessOfNone(data: seq<string>)
    ensures Excess(data, multiset{}) == data
  {
    if data == [] {
    } else {
      ExcessOfNone(data[1..]);
    }
  }

  lemma {:induction false} LeftoverIsExcess(contents: seq<Item>, data: seq<string>)
    ensures Leftover(contents, data) == Excess(data, multiset(Paths(contents)))
    decreases |contents|
  {
    hide Excess, RemoveAt, Paths;
    if contents == [] {
      assert Paths([]) == [] by { NoPaths(); }
      ExcessOfNone(data);
    } else {
      var c, rest := contents[0], contents[1..];
      assert contents == [c] + rest;
      PathsCons(c, rest);
      assert multiset(Paths(contents)) == multiset(Paths(rest)) + multiset{c.filePath};
      var i := IndexOf(data, c.filePath);
      ExcessOfMore(data, c.filePath, multiset(Paths(rest)));
      LeftoverIsExcess(rest, if i < |data| then RemoveAt(data, i) else data);
    }
  }

  function Dated(contents: seq<Item>, date: int): seq<Item> {
    if contents == [] then []
    else (if contents[0].dateCreated == date then [contents[0]] else []) + Dated(contents[1..], date)
  }

  function NewDated(paths: seq<string>, w: World, date: int): seq<Item> {
    if paths == [] then []
    else (if w.created(paths[0]) == date then [NewItem(paths[0], w)] else []) + NewDated(paths[1..], w, date)
  }

  lemma {:induction false} NoneOfDate(contents: seq<Item>, date: int)
    requires forall i :: 0 <= i < |contents| ==> contents[i].dateCreated != date
    ensures Dated(contents, date) == []
  {
    if contents == [] {
    } else {
      NoneOfDate(contents[1..], date);
    }
  }

  lemma {:induction false} InsertDated(contents: seq<Item>, item: Item, date: int)
    requires NewestFirst(contents)
    ensures Dated(Insert(contents, item), date)
         == Dated(contents, date) + if item.dateCreated == date then [item] else []
    decreases |contents|
  {
    hide Insert;
    var after := Insert(contents, item);
    InsertHead(contents, item);
    if contents == [] || item.dateCreated > contents[0].dateCreated {
      assert after[0] == item && after[1..] == contents;
      if item.dateCreated == date { NoneOfDate(contents, date); }
    } else {
      InsertDated(contents[1..], item, date);
      assert after[0] == contents[0] && after[1..] == Insert(contents[1..], item);
    }
  }

  lemma {:induction false} InsertAllDated(contents: seq<Item>, paths: seq<string>, w: World, date: int)
    requires NewestFirst(contents)
    ensures Dated(InsertAll(contents, paths, w), date) == Dated(contents, date) + NewDated(paths, w, date)
    decreases |paths|
  {
    hide Insert, NewItem, Dated, NewestFirst;
    if paths == [] {
    } else {
      var item := NewItem(paths[0], w);
      NewItemPath(paths[0], w);
      InsertOne(contents, paths[0], w);
      InsertAllNewestFirst(contents, [paths[0]], w);
      InsertDated(contents, item, date);
      InsertAllDated(Insert(contents, item), paths[1..], w, date);
    }
  }

  // The rows of each date after an update: first those kept, in their old order, then the new ones in
  // the order of the list.  As the rows stay newest first, this says exactly which row is where.
  lemma RowsOfADate(contents: seq<Item>, data: seq<string>, w: World, date: int)
    requires NewestFirst(contents)
    ensures Dated(Synced(contents, data, w), date)
         == Dated(Kept(contents, data), date) + NewDated(Excess(data, multiset(Paths(contents))), w, date)
  {
    hide Survivors, Leftover, InsertAll, Kept, Excess, Dated, NewDated, Subsequence, NewestFirst;
    SurvivorsAreOld(contents, data);
    SubsequenceNewestFirst(Survivors(contents, data), contents);
    InsertAllDated(Survivors(contents, data), Leftover(contents, data), w, date);
    SurvivorsAreKept(contents, data);
    LeftoverIsExcess(contents, data);
  }

  /* ---- what a row shows ---- */

  lemma NewItemShows(r: FileNames.Report, w: World)
    requires FileNames.InScheme(r)
    ensures NewItem(FileNames.PathOf(r), w)
         == Item(r.info.application, w.toInt(r.info.pid), w.strsignal(w.toInt(r.info.signum)),
                 FileNames.PathOf(r), w.created(FileNames.PathOf(r)))
  {
    hide FileNames.PathOf, FileNames.InScheme, FileNames.ParseCrashInfo;
    FileNames.ParserInvertsScheme(r);
  }

  // After any history, the row of a report named by the scheme shows its application, its process, the
  // text of its signal, and its date.
  lemma RowsShowReports(before: seq<seq<string>>, data: seq<string>, w: World, r: FileNames.Report, i: nat)
    requires FileNames.InScheme(r)
    requires i < |Synced(SyncAll(before, w), data, w)|
    requires Synced(SyncAll(before, w), data, w)[i].filePath == FileNames.PathOf(r)
    ensures var row := Synced(SyncAll(before, w), data, w)[i];
      && row.applicationName == r.info.application
      && row.pid == w.toInt(r.info.pid)
      && row.signal == w.strsignal(w.toInt(r.info.signum))
      && row.dateCreated == w.created(FileNames.PathOf(r))
  {
    hide Synced, SyncAll, NewItem, NewestFirst, FileNames.PathOf, FileNames.InScheme;
    SyncAllOrdered(before, w);
    SyncedMadeIn(SyncAll(before, w), data, w);
    NewItemShows(r, w);
  }
}
