/**
 The coupling of queue, engine, item and HTTP client that holds between events, and the proof
 that every event keeps it.
 */
module UploadInvariant {
  import opened Basics
  import opened UploadModel

  // The numbers lo, lo+1, .., hi-1.
  ghost predicate IsRange(q: seq<nat>, lo: nat, hi: nat) {
    lo <= hi && |q| == hi - lo && forall i :: 0 <= i < |q| ==> q[i] == lo + i
  }

  // How many of the first n items have the given status.
  function CountStatus(items: seq<Item>, n: nat, status: ItemStatus): (c: nat)
    requires n <= |items|
    ensures c <= n
  {
    if n == 0 then 0
    else CountStatus(items, n - 1, status) + (if items[n-1].status == status then 1 else 0)
  }

  lemma {:induction false} CountSame(a: seq<Item>, b: seq<Item>, n: nat, status: ItemStatus)
    requires n <= |a| && n <= |b|
    requires forall i :: 0 <= i < n ==> a[i].status == b[i].status
    ensures CountStatus(a, n, status) == CountStatus(b, n, status)
  {
    if n == 0 {
    } else {
      CountSame(a, b, n - 1, status);
    }
  }

  /* ---- the states an item can be in between events ---- */

  ghost predicate Pristine(it: Item) {
    it.status.Waiting? && it.http.None? && it.errorString.None? && !it.wired
  }

  // Being sent: the reply runs and everyone still listens; the connection timer runs until the first
  // progress.
  ghost predicate Live(it: Item) {
    && it.status.Sending? && it.http.Some? && it.wired
    && it.http.value.reply && it.http.value.deleteFile && it.http.value.net.Active?
    && it.http.value.state == if it.http.value.timer then ClientConnecting else ClientSending
  }

  // The request could not be created: the item is marked, but nobody was told.
  ghost predicate Stalled(it: Item) {
    && it.status.Error? && it.http.Some? && it.wired && it.errorString.None?
    && !it.http.value.reply && !it.http.value.timer && it.http.value.net.NoReply?
    && it.http.value.state.ClientInit?
  }

  // Reported to the engine; whatever its client still signals is heard by nobody.
  ghost predicate Done(it: Item) {
    if it.status.Finished? then
      && it.http.Some? && it.wired && !it.http.value.reply && !it.http.value.timer
      && (it.http.value.net.Closed? || it.http.value.net.NoReply?)
    else
      && (it.status.Error? || it.status.Cancelled?) && !it.wired
      && (it.status.Error? ==> it.http.Some?)
      && (it.http.Some? ==> !it.http.value.reply && !it.http.value.net.NoReply?
                            && !it.http.value.net.Active?)
  }

  // The server took the file.
  ghost predicate Shipped(it: Item) {
    it.status.Finished? && it.http.Some? && it.http.value.net.Closed?
  }

  ghost predicate InFlight(it: Item, state: EngineState) {
    || (state.Connecting? && Pristine(it))
    || (state.Connected? && (Live(it) || Stalled(it)))
  }

  // Exactly the shipped items have had their file removed, each once.
  ghost predicate RemovedExact(items: seq<Item>, removed: seq<nat>) {
    && (forall i, j :: 0 <= i < j < |removed| ==> removed[i] != removed[j])
    && (forall i :: 0 <= i < |removed| ==> removed[i] < |items|)
    && (forall k: nat :: k < |items| ==> (k in removed <==> Shipped(items[k])))
  }

  // Before the first file; only the error text may have been set.
  ghost predicate Idle(s: Sys) {
    && s.items == [] && s.queue.ids == [] && !s.queue.notified
    && s.engine.(errorMessage := None, texts := []) == Start(0).engine
    && s.log == Start(0).log
  }

  // Items before the current one are done, items after it untouched.
  ghost predicate Around(items: seq<Item>, c: nat) {
    && c < |items|
    && (forall i :: 0 <= i < c ==> Done(items[i]) && !items[i].status.Cancelled?)
    && (forall i :: c < i < |items| ==> Pristine(items[i]))
  }

  // The log shows items started and reported in order, and every shipped file removed.
  ghost predicate Logged(s: Sys, c: nat, completed: nat)
    requires c < |s.items|
  {
    && IsRange(s.log.started, 0, if s.items[c].http.Some? then c + 1 else c)
    && IsRange(s.log.completed, 0, completed)
    && RemovedExact(s.items, s.log.removed)
  }

  // What the engine has counted after n items, and that no failure went unnoticed.
  ghost predicate Counted(s: Sys, n: nat, sent: nat)
    requires n <= |s.items|
  {
    && sent == CountStatus(s.items, n, Finished)
    && (s.engine.error.NoError? ==> sent == n)
  }

  // What holds around the current item while a batch is under way, whatever that item's state.
  ghost predicate Frame(s: Sys) {
    && s.queue.notified && s.queue.nbrOfItems == |s.items| && s.engine.cur.Some?
    && var c := s.engine.cur.value;
    && Around(s.items, c)
    && IsRange(s.queue.ids, c + 1, |s.items|)
    && Counted(s, c, s.engine.sentFiles)
    && Logged(s, c, c) && s.log.verdicts == []
  }

  ghost predicate Busy(s: Sys) {
    Frame(s) && InFlight(s.items[s.engine.cur.value], s.engine.state)
  }

  // After finished() has been emitted: items behind the current one were dropped by clear().
  ghost predicate Over(s: Sys) {
    && !s.queue.notified && s.queue.ids == [] && s.queue.nbrOfItems == |s.items|
    && s.engine.cur.Some? && s.engine.sentFiles == 0
    && (s.engine.state.NoConnection? || s.engine.state.Closing?)
    && var c, n := s.engine.cur.value, |s.items|;
    && Around(s.items, c) && Done(s.items[c])
    && (c + 1 < n ==> s.items[c].status.Cancelled?)
    && |s.log.verdicts| == 1
    && s.log.verdicts[0].error == s.engine.error && s.log.verdicts[0].total == n
    && Counted(s, c + 1, s.log.verdicts[0].sent)
    && (s.engine.error.NoError? ==> c + 1 == n)
    && Logged(s, c, c + 1)
  }

  // An item is handed out and has not reported.
  ghost predicate UnderWay(s: Sys) {
    s.queue.notified && s.engine.cur.Some? && s.engine.cur.value < |s.items|
  }

  ghost predicate Inv(s: Sys)
    ensures Inv(s) ==> (UnderWay(s) <==> Busy(s))
  {
    Idle(s) || Busy(s) || Over(s)
  }

  /* ---- the current item reports ---- */

  // The state in which the current item's uploadFinished() is emitted.  A failed upload is only
  // ever reported while the session stands.
  ghost predicate Reporting(s: Sys) {
    && Frame(s) && Done(s.items[s.engine.cur.value])
    && (s.engine.state.Connecting? || s.engine.state.Connected? || s.engine.state.NoConnection?)
    && (s.items[s.engine.cur.value].status.Error? ==> !s.engine.state.NoConnection?)
  }

  // Between accounting for the current item and asking the queue for more.
  ghost predicate Accounted(s: Sys) {
    && s.queue.notified && s.queue.nbrOfItems == |s.items| && s.engine.cur.Some?
    && var c := s.engine.cur.value;
    && Around(s.items, c) && Done(s.items[c])
    && (if s.items[c].status.Cancelled? then s.queue.ids == []
        else IsRange(s.queue.ids, c + 1, |s.items|))
    && (s.engine.error.NoError? ==> !s.items[c].status.Cancelled?)
    && Counted(s, c + 1, s.engine.sentFiles)
    && Logged(s, c, c + 1) && s.log.verdicts == []
  }

  // The engine's error and error text after an item has reported: the first ones stay.
  ghost predicate ErrorsAfter(e: Engine, it: Item, f: Engine) {
    && f.error == (if e.error.NoError? && !it.status.Finished? then ProtocolError else e.error)
    && f.errorMessage == (if e.errorMessage.None? && !it.status.Finished? then it.errorString else e.errorMessage)
    && f.texts == e.texts + (if it.status.Finished? then [] else TextOf(it.errorString))
  }

  ghost predicate SameTexts(e: Engine, f: Engine) {
    f.errorMessage == e.errorMessage && f.texts == e.texts
  }

  lemma AccountSettles(s: Sys)
    requires WellFormed(s) && Reporting(s)
    ensures var c := s.engine.cur.value;
      var a := Account(s.(log := s.log.(completed := s.log.completed + [c])), c);
      && WellFormed(a) && Accounted(a) && a.items == s.items
      && a.engine.cur == s.engine.cur && a.log.removed == s.log.removed
      && ErrorsAfter(s.engine, s.items[c], a.engine)
  {
    hide Around, RemovedExact, Pristine;
  }

  // What handing out changes: the head of the queue becomes the current item, in flight.
  lemma HandedOut(s: Sys, env: Env)
    requires WellFormed(s) && s.queue.ids != [] && Pristine(s.items[s.queue.ids[0]])
    ensures var r, k := EmitNextItem(s, env), s.queue.ids[0];
      && r.engine == s.engine.(cur := Some(k), state := r.engine.state)
      && r.queue == s.queue.(ids := s.queue.ids[1..])
      && r.items == s.items[k := r.items[k]] && InFlight(r.items[k], r.engine.state)
      && !Done(r.items[k]) && !Shipped(r.items[k])
      && r.log == s.log.(started := if r.items[k].http.Some? then s.log.started + [k] else s.log.started)
  {
  }

  lemma NotShipped(it: Item)
    requires Pristine(it)
    ensures !Shipped(it)
  {
  }

  lemma WasStarted(it: Item)
    requires Done(it) && !it.status.Cancelled?
    ensures it.http.Some?
  {
  }

  // The queue hands out the next item.
  lemma HandOver(s: Sys, env: Env)
    requires WellFormed(s) && Accounted(s) && s.queue.ids != []
    ensures var r := EmitNextItem(s, env);
      && Busy(r) && !Over(r) && r.engine.cur == Some(s.engine.cur.value + 1)
      && r.engine.error == s.engine.error && SameTexts(s.engine, r.engine)
      && r.log.removed == s.log.removed
      && (forall i :: 0 <= i <= s.engine.cur.value ==> r.items[i] == s.items[i])
  {
    hide EmitNextItem, InFlight, Done, Shipped, Pristine;
    var c := s.engine.cur.value;
    var r := EmitNextItem(s, env);
    assert s.queue.ids[0] == c + 1;
    HandedOut(s, env);
    CountSame(s.items, r.items, c + 1, Finished);
    NotShipped(s.items[c + 1]);
    WasStarted(s.items[c]);
  }

  lemma WindUp(s: Sys)
    requires WellFormed(s) && Accounted(s) && s.queue.ids == []
    ensures var r := EngineQueueDone(s.(queue := s.queue.(notified := false)));
      && Over(r) && r.items == s.items && r.log.removed == s.log.removed
      && r.engine.error == s.engine.error && SameTexts(s.engine, r.engine)
      && r.engine.cur == s.engine.cur
  {
  }

  lemma ReportKeepsInv(s: Sys, env: Env)
    requires WellFormed(s) && Reporting(s)
    ensures var r := EngineUploadFinished(s, s.engine.cur.value, env);
      && (Busy(r) || Over(r))
      && (forall i :: 0 <= i <= s.engine.cur.value ==> r.items[i] == s.items[i])
      && r.engine.cur == (if Over(r) then s.engine.cur else Some(s.engine.cur.value + 1))
      && r.log.removed == s.log.removed
      && ErrorsAfter(s.engine, s.items[s.engine.cur.value], r.engine)
  {
    hide Account, EmitNextItem, EngineQueueDone, Accounted, Over, Busy;
    var c := s.engine.cur.value;
    AccountSettles(s);
    var a := Account(s.(log := s.log.(completed := s.log.completed + [c])), c);
    if a.queue.ids != [] {
      HandOver(a, env);
    } else {
      WindUp(a);
    }
  }

  /* ---- the ways the current item comes to report ---- */

  // What a report does to a batch: the current item is done with the given status, items before
  // it are as they were, and the error is the first one raised.
  ghost predicate Settles(s: Sys, r: Sys, status: ItemStatus)
    requires Frame(s) && |r.items| == |s.items|
  {
    var c := s.engine.cur.value;
    && (Busy(r) || Over(r))
    && r.engine.cur == (if Over(r) then s.engine.cur else Some(c + 1))
    && (forall i :: 0 <= i < c ==> r.items[i] == s.items[i])
    && Done(r.items[c]) && r.items[c].status == status
    && ErrorsAfter(s.engine, r.items[c], r.engine)
  }

  // Reporting replaces the current item by one that is done; its file is removed if it shipped.
  lemma SettleAs(s: Sys, it: Item, removed: seq<nat>, env: Env)
    requires WellFormed(s) && Frame(s)
    requires s.engine.state.Connecting? || s.engine.state.Connected? || s.engine.state.NoConnection?
    requires Done(it) && (it.status.Error? ==> !s.engine.state.NoConnection?)
    requires it.http.Some? == s.items[s.engine.cur.value].http.Some?
    requires !Shipped(s.items[s.engine.cur.value])
    requires removed == s.log.removed + if Shipped(it) then [s.engine.cur.value] else []
    ensures var c := s.engine.cur.value;
      var reporting := PutItem(s.(log := s.log.(removed := removed)), c, it);
      var r := EngineUploadFinished(reporting, c, env);
      Settles(s, r, it.status) && r.items[c] == it && r.log.removed == removed
  {
    hide EngineUploadFinished, Busy, Over;
    var c := s.engine.cur.value;
    var reporting := PutItem(s.(log := s.log.(removed := removed)), c, it);
    CountSame(s.items, reporting.items, c, Finished);
    assert Around(reporting.items, c);
    assert RemovedExact(reporting.items, removed);
    ReportKeepsInv(reporting, env);
  }

  // A client nobody listens to can change without anyone noticing.
  lemma SilentTouch(s: Sys, k: nat, client: Client)
    requires Busy(s) || Over(s)
    requires k < |s.items| && Done(s.items[k]) && s.items[k].http.Some? && !s.items[k].wired
    requires !client.reply && (client.net.Failed? || client.net.Closed?)
    ensures var r := PutClient(s, k, client);
      Busy(r) == Busy(s) && Over(r) == Over(s) && Done(r.items[k])
  {
    var r := PutClient(s, k, client);
    var c := s.engine.cur.value;
    CountSame(s.items, r.items, c + 1, Finished);
    CountSame(s.items, r.items, c, Finished);
    assert Around(r.items, c);
    assert RemovedExact(r.items, r.log.removed);
  }

  /* ---- cancelling the current item ---- */

  ghost predicate Running(it: Item) {
    it.wired && it.http.Some? && it.http.value.reply && it.http.value.net.Active?
  }

  // What is left of an item that was aborted, at the moment it reports.
  ghost function AbortedItem(it: Item): Item
    requires Running(it)
  {
    it.(http := Some(it.http.value.(state := ClientAborting, reply := false, net := Failed)),
        wired := false, errorString := Some(ABORT_MESSAGE),
        status := if it.status.Cancelled? then Cancelled else Error)
  }

  ghost function Quieten(s: Sys, k: nat): Sys
    requires k < |s.items| && s.items[k].http.Some?
  {
    PutClient(s, k, ClientOf(s, k).(state := ClientInit, reply := false, timer := false, net := Closed))
  }

  // An abort reports exactly once: the two calls of handleFinished() that follow are silent.
  lemma CancelIsOneReport(s: Sys, k: nat, env: Env)
    requires WellFormed(s) && k < |s.items| && Running(s.items[k])
    requires var reporting := PutItem(s, k, AbortedItem(s.items[k]));
      EngineUploadFinished(reporting, k, env).items[k] == reporting.items[k]
    ensures ClientCancel(s, k, env)
         == Quieten(EngineUploadFinished(PutItem(s, k, AbortedItem(s.items[k])), k, env), k)
  {
    hide EngineUploadFinished;
    var aborting := PutClient(s, k, ClientOf(s, k).(state := ClientAborting));
    var failed := PutClient(aborting, k, ClientOf(aborting, k).(net := Failed));
    var cleared := PutClient(failed, k, ClientOf(failed, k).(reply := false));
    var reporting := PutItem(s, k, AbortedItem(s.items[k]));
    var reported := EngineUploadFinished(reporting, k, env);
    assert PutItem(cleared, k, reporting.items[k]) == reporting;
    assert HandleError(failed, k, ABORT_MESSAGE, env) == reported;
    var quiet := Quieten(reported, k);
    assert HandleFinished(PutClient(reported, k, ClientOf(reported, k).(net := Closed)), k, env) == quiet;
    assert HandleFinished(quiet, k, env) == quiet;
  }

  ghost predicate Session(s: Sys) {
    s.engine.state.Connected? || s.engine.state.NoConnection?
  }

  // Aborting the running reply of the current item, by a cancel or by the connection timer.
  lemma CancelRunning(s: Sys, env: Env)
    requires WellFormed(s) && Frame(s) && Running(s.items[s.engine.cur.value]) && Session(s)
    requires var status := s.items[s.engine.cur.value].status;
      (status.Sending? && s.engine.state.Connected?) || status.Cancelled?
    ensures var status := s.items[s.engine.cur.value].status;
      var r := ClientCancel(s, s.engine.cur.value, env);
      && Settles(s, r, if status.Cancelled? then Cancelled else Error)
      && r.items[s.engine.cur.value].errorString == Some(ABORT_MESSAGE)
      && r.log.removed == s.log.removed
  {
    hide EngineUploadFinished, ClientCancel, Busy, Over;
    var c := s.engine.cur.value;
    var aborted := AbortedItem(s.items[c]);
    SettleAs(s, aborted, s.log.removed, env);
    assert PutItem(s, c, aborted) == PutItem(s.(log := s.log.(removed := s.log.removed)), c, aborted);
    CancelIsOneReport(s, c, env);
    var reported := EngineUploadFinished(PutItem(s, c, aborted), c, env);
    SilentTouch(reported, c, ClientOf(Quieten(reported, c), c));
  }

  // Cancelling a stalled item makes its client signal finished(): it comes out as sent.
  lemma CancelStalled(s: Sys, env: Env)
    requires WellFormed(s) && Frame(s) && Stalled(s.items[s.engine.cur.value]) && Session(s)
    ensures var c := s.engine.cur.value;
      var r := ItemCancel(s, c, env);
      && Settles(s, r, Finished) && r.log.removed == s.log.removed
      && r == EngineUploadFinished(PutItem(s, c, s.items[c].(status := Finished)), c, env)
  {
    hide EngineUploadFinished, Busy, Over;
    var c := s.engine.cur.value;
    var it := s.items[c];
    var finished := it.(status := Finished);
    SettleAs(s, finished, s.log.removed, env);
    var marked := PutItem(s, c, it.(status := Cancelled));
    var aborting := PutClient(marked, c, it.http.value.(state := ClientAborting));
    var settled := PutClient(aborting, c, ClientOf(aborting, c).(state := ClientInit));
    assert PutItem(settled, c, settled.items[c].(status := Finished))
        == PutItem(s.(log := s.log.(removed := s.log.removed)), c, finished);
    assert HandleFinished(aborting, c, env) == ItemEmitUploadFinished(settled, c, env);
  }

  lemma CancelWaiting(s: Sys, env: Env)
    requires WellFormed(s) && Frame(s) && Pristine(s.items[s.engine.cur.value])
    requires s.engine.state.Connecting? || s.engine.state.NoConnection?
    ensures var r := ItemCancel(s, s.engine.cur.value, env);
      && Settles(s, r, Cancelled) && r.log.removed == s.log.removed
      && r.items[s.engine.cur.value].errorString == None
  {
    hide EngineUploadFinished, Busy, Over;
    var c := s.engine.cur.value;
    var cancelled := s.items[c].(status := Cancelled);
    SettleAs(s, cancelled, s.log.removed, env);
    assert PutItem(s, c, cancelled) == PutItem(s.(log := s.log.(removed := s.log.removed)), c, cancelled);
  }

  // A cancelled item ends Cancelled, unless it had stalled.
  lemma CancelSettles(s: Sys, env: Env)
    requires WellFormed(s) && Frame(s)
    requires var it := s.items[s.engine.cur.value];
      || (Pristine(it) && (s.engine.state.Connecting? || s.engine.state.NoConnection?))
      || ((Live(it) || Stalled(it)) && Session(s))
    ensures var c := s.engine.cur.value;
      var r := ItemCancel(s, c, env);
      && Settles(s, r, if Stalled(s.items[c]) then Finished else Cancelled)
      && (!Stalled(s.items[c]) ==>
            r.items[c].errorString == if Live(s.items[c]) then Some(ABORT_MESSAGE) else None)
      && r.log.removed == s.log.removed
  {
    hide ClientCancel, EngineUploadFinished, Busy, Over;
    var c := s.engine.cur.value;
    var it := s.items[c];
    if Pristine(it) {
      CancelWaiting(s, env);
    } else if Stalled(it) {
      CancelStalled(s, env);
    } else {
      var marked := PutItem(s, c, it.(status := Cancelled));
      CountSame(s.items, marked.items, c, Finished);
      assert Around(marked.items, c) && RemovedExact(marked.items, s.log.removed);
      assert Frame(marked);
      CancelRunning(marked, env);
    }
  }
}
