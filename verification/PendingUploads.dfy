/**
 The list of reports waiting for upload, newest first, kept in step with the directory by an
 incremental update that tells its views about every row it removes or inserts.
 */
module PendingUploads {
  import opened Basics
  import FileNames

  datatype Item = Item(applicationName: string, pid: int, signal: string, filePath: string, dateCreated: int)

  // Library calls: QString::toInt(), strsignal(), and the creation date of a file.
  datatype World = World(toInt: string -> int, strsignal: int -> string, created: string -> int)

  // A row notification; an inserted row is read by the view when it is announced.
  datatype Note = Removed(at: nat) | Inserted(at: nat, item: Item)

  function NewItem(path: string, w: World): (item: Item)
    ensures item.filePath == path && item.dateCreated == w.created(path)
  {
    var info := FileNames.ParseCrashInfo(path);
    Item(info.application, w.toInt(info.pid), w.strsignal(w.toInt(info.signum)), path, w.created(path))
  }

  function RemoveAt<T>(s: seq<T>, i: nat): seq<T>
    requires i < |s|
  {
    s[..i] + s[i + 1..]
  }

  function InsertAt<T>(s: seq<T>, i: nat, x: T): seq<T>
    requires i <= |s|
  {
    s[..i] + [x] + s[i..]
  }

  /* ---- first pass: rows that are not in the new list any more ---- */

  // Old items matched one to one with paths of the new list, in order.
  function Survivors(contents: seq<Item>, data: seq<string>): seq<Item> {
    if contents == [] then []
    else
      var i := IndexOf(data, contents[0].filePath);
      if i < |data| then [contents[0]] + Survivors(contents[1..], RemoveAt(data, i))
      else Survivors(contents[1..], data)
  }

  // The paths of the new list that were not matched.
  function Leftover(contents: seq<Item>, data: seq<string>): seq<string> {
    if contents == [] then data
    else
      var i := IndexOf(data, contents[0].filePath);
      Leftover(contents[1..], if i < |data| then RemoveAt(data, i) else data)
  }

  function RemovalNotes(contents: seq<Item>, data: seq<string>, at: nat): seq<Note> {
    if contents == [] then []
    else
      var i := IndexOf(data, contents[0].filePath);
      if i < |data| then RemovalNotes(contents[1..], RemoveAt(data, i), at + 1)
      else [Removed(at)] + RemovalNotes(contents[1..], data, at)
  }

  /* ---- second pass: rows for the new paths ---- */

  // Before the first older item.
  function Position(contents: seq<Item>, date: int): (i: nat)
    ensures i <= |contents|
    ensures i < |contents| ==> date > contents[i].dateCreated
    ensures forall j :: 0 <= j < i ==> contents[j].dateCreated >= date
  {
    if contents == [] || date > contents[0].dateCreated then 0 else 1 + Position(contents[1..], date)
  }

  function Insert(contents: seq<Item>, item: Item): seq<Item> {
    InsertAt(contents, Position(contents, item.dateCreated), item)
  }

  function InsertAll(contents: seq<Item>, paths: seq<string>, w: World): seq<Item>
    decreases |paths|
  {
    if paths == [] then contents else InsertAll(Insert(contents, NewItem(paths[0], w)), paths[1..], w)
  }

  function InsertionNotes(contents: seq<Item>, paths: seq<string>, w: World): seq<Note>
    decreases |paths|
  {
    if paths == [] then []
    else
      var item := NewItem(paths[0], w);
      [Inserted(Position(contents, item.dateCreated), item)]
      + InsertionNotes(Insert(contents, item), paths[1..], w)
  }

  /* ---- setData() on values ---- */

  function Synced(contents: seq<Item>, data: seq<string>, w: World): seq<Item> {
    InsertAll(Survivors(contents, data), Leftover(contents, data), w)
  }

  function Notes(contents: seq<Item>, data: seq<string>, w: World): seq<Note> {
    RemovalNotes(contents, data, 0)
    + InsertionNotes(Survivors(contents, data), Leftover(contents, data), w)
  }

  // One turn of the first loop, at row i.
  lemma RemovalTurn(contents: seq<Item>, i: nat, data: seq<string>)
    requires i < |contents|
    ensures var rest, index := contents[i + 1..], IndexOf(data, contents[i].filePath);
      if index < |data| then
        var data' := RemoveAt(data, index);
        && contents[..i] + Survivors(contents[i..], data) == contents[..i + 1] + Survivors(rest, data')
        && Leftover(contents[i..], data) == Leftover(rest, data')
        && RemovalNotes(contents[i..], data, i) == RemovalNotes(rest, data', i + 1)
      else
        && RemoveAt(contents, i)[..i] == contents[..i] && RemoveAt(contents, i)[i..] == rest
        && Survivors(contents[i..], data) == Survivors(rest, data)
        && Leftover(contents[i..], data) == Leftover(rest, data)
        && RemovalNotes(contents[i..], data, i) == [Removed(i)] + RemovalNotes(rest, data, i)
  {
    hide IndexOf;
    assert contents[i..][1..] == contents[i + 1..];
    assert contents[..i + 1] == contents[..i] + [contents[i]];
  }

  // One turn of the second loop, for path j.
  lemma InsertionTurn(contents: seq<Item>, j: nat, data: seq<string>, w: World)
    requires j < |data|
    ensures var item := NewItem(data[j], w);
      && InsertAll(contents, data[j..], w) == InsertAll(Insert(contents, item), data[j + 1..], w)
      && InsertionNotes(contents, data[j..], w)
         == [Inserted(Position(contents, item.dateCreated), item)]
            + InsertionNotes(Insert(contents, item), data[j + 1..], w)
  {
    assert data[j..][1..] == data[j + 1..];
  }

  lemma NoneLeft(data: seq<string>, at: nat)
    ensures Survivors([], data) == [] && Leftover([], data) == data && RemovalNotes([], data, at) == []
  {
  }

  lemma NothingNew(contents: seq<Item>, w: World)
    ensures InsertAll(contents, [], w) == contents && InsertionNotes(contents, [], w) == []
  {
  }

  class PendingUploadsModel {
    var contents: seq<Item>
    var notes: seq<Note>       // row notifications emitted so far

    constructor ()
      ensures contents == [] && notes == []
    {
      contents, notes := [], [];
    }

    method SetData(data: seq<string>, w: World)
      modifies this
      ensures contents == Synced(old(contents), data, w)
      ensures notes == old(notes) + Notes(old(contents), data, w)
    {
      hide Survivors, Leftover, RemovalNotes, InsertAll, InsertionNotes, Insert, NewItem;
      var newData := RemoveOld(data);
      if newData == [] {
        NothingNew(contents, w);
        return;
      }
      InsertNew(newData, w);
    }

    // The first loop: `newData` starts as the new list and loses every path that already has a row.
    method RemoveOld(data: seq<string>) returns (newData: seq<string>)
      modifies this
      ensures contents == Survivors(old(contents), data) && newData == Leftover(old(contents), data)
      ensures notes == old(notes) + RemovalNotes(old(contents), data, 0)
    {
      hide Survivors, Leftover, RemovalNotes;
      newData := data;
      var i := 0;
      assert contents[0..] == contents;
      while i != |contents|
        invariant 0 <= i <= |contents|
        invariant contents[..i] + Survivors(contents[i..], newData) == Survivors(old(contents), data)
        invariant Leftover(contents[i..], newData) == Leftover(old(contents), data)
        invariant notes + RemovalNotes(contents[i..], newData, i)
               == old(notes) + RemovalNotes(old(contents), data, 0)
        decreases |contents| - i
      {
        RemovalTurn(contents, i, newData);
        var index := IndexOf(newData, contents[i].filePath);
        if index == |newData| {
          notes := notes + [Removed(i)];
          contents := RemoveAt(contents, i);
          i := i - 1;
        } else {
          newData := RemoveAt(newData, index);
        }
        i := i + 1;
      }
      NoneLeft(newData, i);
      assert contents[i..] == [] && contents[..i] == contents;
    }

    // The second loop.
    method InsertNew(newData: seq<string>, w: World)
      modifies this
      ensures contents == InsertAll(old(contents), newData, w)
      ensures notes == old(notes) + InsertionNotes(old(contents), newData, w)
    {
      hide InsertAll, InsertionNotes, NewItem;
      assert newData[0..] == newData;
      for j := 0 to |newData|
        invariant InsertAll(contents, newData[j..], w) == InsertAll(old(contents), newData, w)
        invariant notes + InsertionNotes(contents, newData[j..], w)
               == old(notes) + InsertionNotes(old(contents), newData, w)
      {
        InsertionTurn(contents, j, newData, w);
        var item := NewItem(newData[j], w);
        var i := 0;
        while i < |contents|
          invariant 0 <= i <= |contents|
          invariant forall m :: 0 <= m < i ==> contents[m].dateCreated >= item.dateCreated
        {
          if item.dateCreated > contents[i].dateCreated { break; }
          i := i + 1;
        }
        assert i == Position(contents, item.dateCreated);
        notes := notes + [Inserted(i, item)];
        contents := InsertAt(contents, i, item);
      }
      NothingNew(contents, w);
      assert newData[|newData|..] == [];
    }
  }
}
