/**
 One event of the upload pipeline in closed form: the whole next state, written down without any
 signal, slot or handler.  The chains of `UploadModel` are proved to compute exactly this, and what
 a hand-out, a progress and the end of a batch promise is read off it.
 */
module UploadSummary {
  import opened Basics
  import opened UploadModel
  import opened UploadInvariant
  import opened UploadSteps
  import opened UploadTheorems

  /* ---- the next state ---- */

  // A client that is done with its reply, whatever that reply signalled last.
  function Resting(c: Client, net: NetState): Client {
    Client(ClientInit, false, c.deleteFile, false, net)
  }

  // The item whose upload begins now.
  function Begun(it: Item, created: bool): Item {
    Item(it.file, if created then Sending else Error, it.errorString,
         Some(if created then Client(ClientConnecting, true, true, true, Active)
              else Client(ClientInit, false, true, false, NoReply)),
         true)
  }

  // Item k is handed out: it begins at once if the session is open, and waits for it otherwise.
  function HandedTo(s: Sys, k: nat, env: Env): (r: Sys)
    requires k < |s.items|
    ensures r.engine.cur == Some(k) && r.queue == s.queue && r.log.verdicts == s.log.verdicts
  {
    if env.sessionOpen then
      s.(items := s.items[k := Begun(s.items[k], env.requestCreated)],
         engine := s.engine.(cur := Some(k), state := Connected),
         log := s.log.(started := s.log.started + [k]))
    else
      s.(engine := s.engine.(cur := Some(k), state := Connecting))
  }

  // The batch ends, and the session is closed if it still stands.
  function Ended(s: Sys): Sys {
    s.(queue := Queue([], false, s.queue.nbrOfItems),
       engine := s.engine.(state := if s.engine.state.NoConnection? then NoConnection else Closing, sentFiles := 0),
       log := s.log.(verdicts := s.log.verdicts
                                 + [Verdict(s.engine.error, s.engine.sentFiles, s.queue.nbrOfItems)]))
  }

  // A text arrives: only the first one is kept.
  function Heard(e: Engine, text: Option<string>): Engine {
    match text
    case None => e
    case Some(t) => Engine(e.cur, e.state, e.error, if e.errorMessage.None? then text else e.errorMessage,
                           e.sentFiles, e.texts + [t])
  }

  // An error is raised: only the first one is kept.
  function Failing(e: Engine, error: ErrorType): Engine {
    Engine(e.cur, e.state, if e.error.NoError? then error else e.error, e.errorMessage, e.sentFiles, e.texts)
  }

  // The current item is done as `it`: it is counted, and the next one goes out or the batch ends.
  ghost function ReportedAs(s: Sys, it: Item, env: Env): Sys
    requires UnderWay(s)
  {
    var c := s.engine.cur.value;
    var counted := s.(
      items := s.items[c := it],
      engine := if it.status.Finished? then s.engine.(sentFiles := s.engine.sentFiles + 1)
                else Heard(Failing(s.engine, ProtocolError), it.errorString),
      log := s.log.(completed := s.log.completed + [c]));
    if it.status.Cancelled? || s.queue.ids == [] then Ended(counted)
    else if c + 1 < |s.items| then
      HandedTo(counted.(queue := s.queue.(ids := s.queue.ids[1..])), c + 1, env)
    else counted
  }

  // What a cancel makes of the current item: aborted if it is being sent; a stalled one comes out as
  // finished.
  function CutOff(it: Item): Item {
    match it.status
    case Sending =>
      if it.http.None? then it
      else Item(it.file, Cancelled, Some(ABORT_MESSAGE), Some(Resting(it.http.value, Closed)), false)
    case Error => it.(status := Finished)
    case _ => it.(status := Cancelled)
  }

  // What an upload error makes of it, with the client as it is then.
  function FailedItem(it: Item, text: string, client: Client): Item {
    Item(it.file, Error, Some(text), Some(client), false)
  }

  function WithClient(s: Sys, k: nat, client: Client): Sys
    requires k < |s.items|
  {
    s.(items := s.items[k := s.items[k].(http := Some(client))])
  }

  // The session is gone: the engine has no connection, and an item in flight is cut off.
  ghost function SessionLost(s: Sys, env: Env): Sys {
    var gone := s.(engine := s.engine.(state := NoConnection));
    if !UnderWay(s) then gone
    else
      var error := if s.engine.state.Connecting? then ConnectionNotAvailable else ConnectionClosed;
      ReportedAs(gone.(engine := Failing(gone.engine, error)), CutOff(s.items[s.engine.cur.value]), env)
  }

  ghost function Next(s: Sys, e: Event, env: Env): Sys
    requires WellFormed(s) && Enabled(s, e)
  {
    match e
    case Enqueue(file) =>
      var longer := s.(items := s.items + [Item(file, Waiting, None, None, false)]);
      if s.queue.notified then
        longer.(queue := Queue(s.queue.ids + [|s.items|], true, s.queue.nbrOfItems + 1))
      else
        HandedTo(longer.(queue := Queue([], true, 1)), |s.items|, env)
    case SessionOpened =>
      if s.engine.state.Connecting? then HandedTo(s, s.engine.cur.value, Env(true, env.requestCreated)) else s
    case SessionDisconnected => SessionLost(s, env)
    case NetworkError(message) => SessionLost(s.(engine := Heard(s.engine, Some(message))), env)
    case CancelAll =>
      if UnderWay(s) then ReportedAs(s, CutOff(s.items[s.engine.cur.value]), env) else s
    case ReplyError(k, message) =>
      var failed := ClientOf(s, k).(net := Failed, reply := false);
      if UnderWay(s) && s.engine.cur == Some(k) then ReportedAs(s, FailedItem(s.items[k], message, failed), env)
      else WithClient(s, k, failed)
    case ReplyFinished(k) =>
      var resting := Resting(ClientOf(s, k), Closed);
      if UnderWay(s) && s.engine.cur == Some(k) then
        ReportedAs(s.(log := s.log.(removed := s.log.removed + [k])),
                   s.items[k].(status := Finished, http := Some(resting)), env)
      else WithClient(s, k, resting)
    case UploadProgress(k) =>
      WithClient(s, k, Client(ClientSending, true, ClientOf(s, k).deleteFile, false, Active))
    case ConnectionTimeout(k) =>
      var c := ClientOf(s, k);
      if UnderWay(s) && s.engine.cur == Some(k) then
        ReportedAs(s, FailedItem(s.items[k], ABORT_MESSAGE, Resting(c, Closed)), env)
      else WithClient(s, k, Resting(c, c.net))
  }

  /* ---- the chains compute it ---- */

  lemma HandOutIs(s: Sys, k: nat, env: Env)
    requires WellFormed(s) && k < |s.items|
    ensures EngineUploadItem(s, k, env) == HandedTo(s, k, env)
  {
  }

  // What has to hold of the queue for the report of the current item to be read off.
  ghost predicate InTurn(s: Sys) {
    UnderWay(s) && IsRange(s.queue.ids, s.engine.cur.value + 1, |s.items|)
  }

  lemma ReportIs(s: Sys, it: Item, env: Env)
    requires WellFormed(s) && InTurn(s)
    requires it.status.Finished? || it.status.Cancelled? || (it.status.Error? && !s.engine.state.NoConnection?)
    ensures EngineUploadFinished(PutItem(s, s.engine.cur.value, it), s.engine.cur.value, env)
         == ReportedAs(s, it, env)
  {
    hide EngineUploadItem, HandedTo;
    var c := s.engine.cur.value;
    var put := PutItem(s, c, it);
    var a := Account(put.(log := put.log.(completed := put.log.completed + [c])), c);
    assert s.engine.texts + [] == s.engine.texts;
    assert SetErrorString(SetErrorType(s.engine, ProtocolError), it.errorString)
        == Heard(Failing(s.engine, ProtocolError), it.errorString);
    if !it.status.Cancelled? && s.queue.ids != [] {
      assert a.queue.ids[0] == c + 1;
      HandOutIs(a.(queue := a.queue.(ids := a.queue.ids[1..])), c + 1, env);
    }
  }

  lemma BusyInTurn(s: Sys)
    requires Busy(s)
    ensures InTurn(s)
  {
  }

  // The item in flight stays in place when it reports.
  lemma ReportKeepsPlace(s: Sys, it: Item, env: Env)
    requires UnderWay(s)
    ensures |ReportedAs(s, it, env).items| == |s.items|
    ensures ReportedAs(s, it, env).items[s.engine.cur.value] == it
  {
  }

  // Of a done item, only status and text matter to what comes after it.
  lemma SameButItem(s: Sys, a: Item, b: Item, env: Env)
    requires UnderWay(s) && a.status == b.status && a.errorString == b.errorString
    ensures var c, r := s.engine.cur.value, ReportedAs(s, a, env);
      |r.items| == |s.items| && r.(items := r.items[c := b]) == ReportedAs(s, b, env)
  {
    var c, ra, rb := s.engine.cur.value, ReportedAs(s, a, env), ReportedAs(s, b, env);
    assert ra.items[c := b] == rb.items;
  }

  // Aborting a running reply, by a cancel or by the timer.
  lemma AbortIs(s: Sys, env: Env)
    requires WellFormed(s) && InTurn(s) && Running(s.items[s.engine.cur.value])
    requires s.items[s.engine.cur.value].status.Cancelled? || !s.engine.state.NoConnection?
    ensures var c := s.engine.cur.value;
      var it := s.items[c];
      ClientCancel(s, c, env) == ReportedAs(s, Item(it.file, if it.status.Cancelled? then Cancelled else Error,
        Some(ABORT_MESSAGE), Some(Resting(it.http.value, Closed)), false), env)
  {
    hide EngineUploadFinished, ClientCancel, HandedTo;
    var c := s.engine.cur.value;
    var aborted := AbortedItem(s.items[c]);
    ReportIs(s, aborted, env);
    ReportKeepsPlace(s, aborted, env);
    CancelIsOneReport(s, c, env);
    SameButItem(s, aborted, Quieten(ReportedAs(s, aborted, env), c).items[c], env);
  }

  lemma SameStart(s: Sys, a: Item, b: Item, env: Env)
    requires UnderWay(s)
    ensures ReportedAs(PutItem(s, s.engine.cur.value, a), b, env) == ReportedAs(s, b, env)
  {
    var c := s.engine.cur.value;
    assert s.items[c := a][c := b] == s.items[c := b];
  }

  lemma StalledCancelIs(s: Sys, env: Env)
    requires WellFormed(s) && UnderWay(s) && Stalled(s.items[s.engine.cur.value])
    ensures var c := s.engine.cur.value;
      ItemCancel(s, c, env) == EngineUploadFinished(PutItem(s, c, CutOff(s.items[c])), c, env)
  {
    hide EngineUploadFinished;
    var c := s.engine.cur.value;
    var it := s.items[c];
    var marked := PutItem(s, c, it.(status := Cancelled));
    var aborting := PutClient(marked, c, it.http.value.(state := ClientAborting));
    var settled := PutClient(aborting, c, ClientOf(aborting, c).(state := ClientInit));
    assert HandleFinished(aborting, c, env) == ItemEmitUploadFinished(settled, c, env);
    assert PutItem(settled, c, settled.items[c].(status := Finished)) == PutItem(s, c, CutOff(it));
  }

  lemma CancelIs(s: Sys, env: Env)
    requires WellFormed(s) && InTurn(s)
    requires var it := s.items[s.engine.cur.value]; Pristine(it) || Live(it) || Stalled(it)
    ensures ItemCancel(s, s.engine.cur.value, env) == ReportedAs(s, CutOff(s.items[s.engine.cur.value]), env)
  {
    hide EngineUploadFinished, ClientCancel, ReportedAs;
    var c := s.engine.cur.value;
    var it := s.items[c];
    var marked := PutItem(s, c, it.(status := Cancelled));
    if Pristine(it) {
      ReportIs(s, CutOff(it), env);
    } else if Live(it) {
      AbortIs(marked, env);
      SameStart(s, it.(status := Cancelled), CutOff(it), env);
    } else {
      StalledCancelIs(s, env);
      ReportIs(s, CutOff(it), env);
    }
  }

  /* ---- one lemma for each event ---- */

  lemma LossIs(s: Sys, e: Event, env: Env)
    requires Inv(s) && WellFormed(s) && (e.SessionDisconnected? || e.NetworkError?)
    ensures Step(s, e, env) == Next(s, e, env)
  {
    hide ItemCancel, ReportedAs, Around, Counted, Logged;
    var told := Told(s, e);
    assert told.engine == if e.NetworkError? then Heard(s.engine, Some(e.message)) else s.engine;
    if UnderWay(s) {
      BusyInTurn(s);
      var error := if s.engine.state.Connecting? then ConnectionNotAvailable else ConnectionClosed;
      CancelIs(told.(engine := SetErrorType(told.engine.(state := NoConnection), error)), env);
    }
  }

  lemma CancelAllIs(s: Sys, env: Env)
    requires Inv(s) && WellFormed(s) && s.log.verdicts == []
    ensures Step(s, CancelAll, env) == Next(s, CancelAll, env)
  {
    hide ItemCancel, ReportedAs, Around, Counted, Logged;
    if UnderWay(s) {
      BusyInTurn(s);
      CancelIs(s, env);
    }
  }

  lemma ReplyErrorIs(s: Sys, k: nat, message: string, env: Env)
    requires Inv(s) && WellFormed(s) && Enabled(s, ReplyError(k, message))
    ensures Step(s, ReplyError(k, message), env) == Next(s, ReplyError(k, message), env)
  {
    hide EngineUploadFinished, ReportedAs, Around, Counted, Logged;
    if UnderWay(s) && s.engine.cur == Some(k) {
      BusyInTurn(s);
      var c := ClientOf(s, k);
      var failed := FailedItem(s.items[k], message, c.(net := Failed, reply := false));
      ReportIs(s, failed, env);
      var cleared := PutClient(PutClient(s, k, c.(net := Failed)), k, c.(net := Failed, reply := false));
      assert PutItem(cleared, k, failed) == PutItem(s, k, failed);
      assert ItemUploadError(cleared, k, message, env) == EngineUploadFinished(PutItem(cleared, k, failed), k, env);
    } else {
      OthersAreDone(s, k);
    }
  }

  lemma ReplyFinishedIs(s: Sys, k: nat, env: Env)
    requires Inv(s) && WellFormed(s) && Enabled(s, ReplyFinished(k))
    ensures Step(s, ReplyFinished(k), env) == Next(s, ReplyFinished(k), env)
  {
    hide EngineUploadFinished, ReportedAs, Around, Counted, Logged;
    var received := PutClient(s, k, ClientOf(s, k).(net := Closed));
    var resting := Resting(ClientOf(s, k), Closed);
    if UnderWay(s) && s.engine.cur == Some(k) {
      BusyInTurn(s);
      var unlinked := s.(log := s.log.(removed := s.log.removed + [k]));
      var sent := s.items[k].(status := Finished, http := Some(resting));
      ReportIs(unlinked, sent, env);
      var settled := PutClient(received.(log := unlinked.log), k, resting);
      assert HandleFinished(received, k, env) == ItemEmitUploadFinished(settled, k, env);
      assert PutItem(settled, k, settled.items[k].(status := Finished)) == PutItem(unlinked, k, sent);
    } else {
      OthersAreDone(s, k);
      assert HandleFinished(received, k, env) == WithClient(s, k, resting);
    }
  }

  lemma TimeoutIs(s: Sys, k: nat, env: Env)
    requires Inv(s) && WellFormed(s) && Enabled(s, ConnectionTimeout(k))
    ensures Step(s, ConnectionTimeout(k), env) == Next(s, ConnectionTimeout(k), env)
  {
    hide ClientCancel, ReportedAs, Around, Counted, Logged;
    if UnderWay(s) && s.engine.cur == Some(k) {
      BusyInTurn(s);
      AbortIs(s, env);
    } else {
      SilentTimeout(s, k, env);
    }
  }

  lemma ProgressIs(s: Sys, k: nat, env: Env)
    requires Inv(s) && WellFormed(s) && Enabled(s, UploadProgress(k))
    ensures UnderWay(s) && s.engine.cur == Some(k)
    ensures Step(s, UploadProgress(k), env) == Next(s, UploadProgress(k), env)
  {
    hide Around, Counted, Logged;
    if !(UnderWay(s) && s.engine.cur == Some(k)) { OthersAreDone(s, k); }
  }

  // The item count is raised after the hand-out, which does not look at it.
  lemma NumberedLater(s: Sys, k: nat, env: Env)
    requires k < |s.items|
    ensures var r := HandedTo(s, k, env);
      r.(queue := r.queue.(nbrOfItems := 1)) == HandedTo(s.(queue := s.queue.(nbrOfItems := 1)), k, env)
      && r.queue == s.queue
  {
  }

  lemma EnqueueIs(s: Sys, file: string, env: Env)
    requires Inv(s) && WellFormed(s) && s.log.verdicts == []
    ensures Step(s, Enqueue(file), env) == Next(s, Enqueue(file), env)
  {
    hide EngineUploadItem, HandedTo, Around, Counted, Logged;
    if !s.queue.notified {
      var longer := s.(items := s.items + [NewItem(file)], queue := Queue([], true, 0));
      HandOutIs(longer, |s.items|, env);
      NumberedLater(longer, |s.items|, env);
      assert (s.queue.ids + [|s.items|])[1..] == [];
    }
  }

  lemma SessionOpenedIs(s: Sys, env: Env)
    requires WellFormed(s)
    ensures Step(s, SessionOpened, env) == Next(s, SessionOpened, env)
  {
    if s.engine.state.Connecting? {
      HandOutIs(s, s.engine.cur.value, Env(true, env.requestCreated));
    }
  }

  // Every event, with its whole chain of signals, computes the closed form.
  lemma StepIsNext(s: Sys, e: Event, env: Env)
    requires Inv(s) && WellFormed(s) && Enabled(s, e)
    ensures Step(s, e, env) == Next(s, e, env)
  {
    hide Step, Next, Inv;
    match e
    case Enqueue(file) => EnqueueIs(s, file, env);
    case SessionOpened => SessionOpenedIs(s, env);
    case SessionDisconnected => LossIs(s, e, env);
    case NetworkError(_) => LossIs(s, e, env);
    case CancelAll => CancelAllIs(s, env);
    case ReplyError(k, message) => ReplyErrorIs(s, k, message, env);
    case ReplyFinished(k) => ReplyFinishedIs(s, k, env);
    case UploadProgress(k) => ProgressIs(s, k, env);
    case ConnectionTimeout(k) => TimeoutIs(s, k, env);
  }

  /* ---- a hand-out follows the answer of the session ---- */

  // Item k has just been handed out, under the given answers.
  ghost predicate OutAs(r: Sys, k: nat, env: Env) {
    && r.queue.notified && r.engine.cur == Some(k) && k < |r.items|
    && (r.engine.state.Connected? <==> env.sessionOpen)
    && (r.engine.state.Connecting? <==> !env.sessionOpen)
    && r.items[k].status == (if !env.sessionOpen then Waiting else if env.requestCreated then Sending else Error)
    && (k in r.log.started <==> env.sessionOpen)
  }

  lemma HandedIsOut(s: Sys, k: nat, env: Env)
    requires k < |s.items| && Pristine(s.items[k]) && s.queue.notified && k !in s.log.started
    ensures OutAs(HandedTo(s, k, env), k, env)
  {
  }

  lemma NextIsUntouched(s: Sys)
    requires Busy(s)
    ensures var k := s.engine.cur.value + 1;
      k !in s.log.started && (k < |s.items| ==> Pristine(s.items[k]))
  {
  }

  // Before the current item reports, as far as the hand-out after it is concerned.
  ghost predicate SameTurn(s: Sys, x: Sys) {
    x.items == s.items && x.engine.cur == s.engine.cur && x.queue == s.queue && x.log.started == s.log.started
  }

  lemma ReportHandsOut(s: Sys, x: Sys, it: Item, env: Env)
    requires Busy(s) && SameTurn(s, x)
    ensures UnderWay(x)
    ensures var r := ReportedAs(x, it, env);
      r.queue.notified ==> OutAs(r, s.engine.cur.value + 1, env) && r.engine.cur == Some(s.engine.cur.value + 1)
  {
    hide HandedTo, Pristine, Busy;
    BusyInTurn(s);
    NextIsUntouched(s);
    var c := s.engine.cur.value;
    if !it.status.Cancelled? && s.queue.ids != [] {
      var counted := x.(
        items := x.items[c := it],
        engine := if it.status.Finished? then x.engine.(sentFiles := x.engine.sentFiles + 1)
                  else Heard(Failing(x.engine, ProtocolError), it.errorString),
        log := x.log.(completed := x.log.completed + [c]),
        queue := x.queue.(ids := x.queue.ids[1..]));
      HandedIsOut(counted, c + 1, env);
    }
  }

  lemma FirstHandedOut(s: Sys, file: string, env: Env)
    requires Idle(s) && WellFormed(s)
    ensures var r := Next(s, Enqueue(file), env);
      OutAs(r, 0, env) && r.engine.cur == Some(0)
  {
    var longer := s.(items := s.items + [Item(file, Waiting, None, None, false)], queue := Queue([], true, 1));
    HandedIsOut(longer, 0, env);
  }

  lemma NotUnderWay(s: Sys)
    requires Inv(s) && !UnderWay(s)
    ensures !s.queue.notified && !s.engine.state.Connecting?
    ensures s.log.verdicts == [] ==> Idle(s)
  {
  }

  lemma CurrentWaits(s: Sys)
    requires Inv(s) && s.engine.state.Connecting?
    ensures s.engine.cur.Some? && s.engine.cur.value < |s.items| && s.queue.notified
    ensures Pristine(s.items[s.engine.cur.value]) && s.engine.cur.value !in s.log.started
  {
  }

  lemma HandedStarts(s: Sys, k: nat, env: Env)
    requires k < |s.items| && env.sessionOpen
    ensures HandedTo(s, k, env).log.started == s.log.started + [k]
  {
  }

  // Whatever event hands out the next item: it is started at once exactly if the session is open, and
  // is being sent exactly if its request could be created too; otherwise it waits for the session.
  lemma HandOutFollowsSession(s: Sys, e: Event, env: Env)
    requires Reachable(s) && WellFormed(s) && Enabled(s, e)
    ensures var r := Step(s, e, env);
      r.queue.notified && r.engine.cur != s.engine.cur ==> r.engine.cur.Some? && OutAs(r, r.engine.cur.value, env)
  {
    hide Step, OutAs, HandedTo, ReportedAs, Reachable, Busy, Idle, Over;
    ReachableInv(s);
    StepIsNext(s, e, env);
    if UnderWay(s) {
      forall x, it | SameTurn(s, x)
        ensures UnderWay(x)
        ensures var r := ReportedAs(x, it, env);
          r.queue.notified ==> OutAs(r, s.engine.cur.value + 1, env) && r.engine.cur == Some(s.engine.cur.value + 1)
      {
        ReportHandsOut(s, x, it, env);
      }
    } else {
      NotUnderWay(s);
      if e.Enqueue? { FirstHandedOut(s, e.file, env); }
    }
  }

  // A session that opens starts the item that waits for it, and nothing else.
  lemma OpenedSessionStarts(s: Sys, env: Env)
    requires Reachable(s) && WellFormed(s) && s.engine.state.Connecting?
    ensures s.engine.cur.Some?
    ensures OutAs(Step(s, SessionOpened, env), s.engine.cur.value, Env(true, env.requestCreated))
    ensures Step(s, SessionOpened, env).log.started == s.log.started + [s.engine.cur.value]
  {
    hide Step, OutAs, HandedTo, Reachable;
    ReachableInv(s);
    StepIsNext(s, SessionOpened, env);
    CurrentWaits(s);
    HandedIsOut(s, s.engine.cur.value, Env(true, env.requestCreated));
    HandedStarts(s, s.engine.cur.value, Env(true, env.requestCreated));
  }

  /* ---- the connection timer ---- */

  // What is known of item k, given whether a progress of it has been seen.
  ghost predicate TimerAsSeen(s: Sys, k: nat, seen: bool) {
    && (seen ==> HasClient(s, k) && !ClientOf(s, k).timer)
    && (k < |s.items| && s.items[k].status.Sending? ==> HasClient(s, k) && (ClientOf(s, k).timer <==> !seen))
  }

  ghost predicate Sees(e: Event, k: nat) {
    e == UploadProgress(k)
  }

  // An item that stays as it is, or begins.
  ghost predicate Moved(a: Item, b: Item) {
    b == a || (a.http.None? && exists created :: b == Begun(a, created))
  }

  lemma MovedNot(it: Item)
    ensures Moved(it, it)
  {
  }

  lemma MovedOn(it: Item, created: bool)
    requires it.http.None?
    ensures Moved(it, Begun(it, created))
  {
  }

  lemma ReportMoves(s: Sys, x: Sys, it: Item, env: Env)
    requires Busy(s) && SameTurn(s, x)
    ensures UnderWay(x)
    ensures var r := ReportedAs(x, it, env);
      && |r.items| == |s.items| && r.items[s.engine.cur.value] == it
      && forall k :: 0 <= k < |s.items| && k != s.engine.cur.value ==> Moved(s.items[k], r.items[k])
  {
    hide Busy, Moved;
    BusyInTurn(s);
    NextIsUntouched(s);
    var r := ReportedAs(x, it, env);
    forall k | 0 <= k < |s.items| && k != s.engine.cur.value ensures Moved(s.items[k], r.items[k]) {
      if r.items[k] == s.items[k] { MovedNot(s.items[k]); } else { MovedOn(s.items[k], env.requestCreated); }
    }
  }

  ghost predicate NoLongerSent(s: Sys, it: Item) {
    && UnderWay(s) && !it.status.Sending?
    && it.http.Some? == s.items[s.engine.cur.value].http.Some?
    && (it.http.Some? && it.http.value.timer ==> s.items[s.engine.cur.value].http.value.timer)
  }

  // Items other than the current one, or the one an event is about, stay as they are or begin.
  lemma ReportSeen(s: Sys, x: Sys, it: Item, env: Env, k: nat, seen: bool)
    requires Busy(s) && SameTurn(s, x) && NoLongerSent(s, it) && TimerAsSeen(s, k, seen)
    ensures UnderWay(x)
    ensures TimerAsSeen(ReportedAs(x, it, env), k, seen)
  {
    hide ReportedAs, Busy;
    ReportMoves(s, x, it, env);
    BusyInTurn(s);
    if k < |s.items| && k != s.engine.cur.value {
      assert Moved(s.items[k], ReportedAs(x, it, env).items[k]);
    }
  }

  // A progress is that of the item being sent, and leaves the others alone.
  lemma ProgressSeen(s: Sys, j: nat, env: Env, k: nat, seen: bool)
    requires Inv(s) && WellFormed(s) && Enabled(s, UploadProgress(j)) && TimerAsSeen(s, k, seen)
    ensures TimerAsSeen(Next(s, UploadProgress(j), env), k, seen || j == k)
  {
    hide Around, Counted, Logged;
    ProgressIs(s, j, env);
  }

  lemma HandedSeen(s: Sys, j: nat, env: Env, k: nat, seen: bool)
    requires j < |s.items| && s.items[j].http.None? && TimerAsSeen(s, k, seen)
    requires k == j ==> s.items[j].status.Waiting?
    ensures TimerAsSeen(HandedTo(s, j, env), k, seen)
  {
  }

  lemma SilentSeen(s: Sys, j: nat, client: Client, k: nat, seen: bool)
    requires HasClient(s, j) && !s.items[j].status.Sending? && TimerAsSeen(s, k, seen)
    requires client.timer ==> ClientOf(s, j).timer
    ensures TimerAsSeen(WithClient(s, j, client), k, seen)
  {
  }

  lemma EnqueueSeen(s: Sys, file: string, env: Env, k: nat, seen: bool)
    requires Inv(s) && WellFormed(s) && s.log.verdicts == [] && TimerAsSeen(s, k, seen)
    ensures TimerAsSeen(Next(s, Enqueue(file), env), k, seen)
  {
    hide HandedTo, Around, Counted, Logged;
    if !s.queue.notified {
      var longer := s.(items := s.items + [Item(file, Waiting, None, None, false)], queue := Queue([], true, 1));
      HandedSeen(longer, |s.items|, env, k, seen);
    }
  }

  // Whatever an item that is not in flight still hears.
  lemma LateSeen(s: Sys, e: Event, env: Env, k: nat, seen: bool)
    requires Inv(s) && WellFormed(s) && Enabled(s, e) && TimerAsSeen(s, k, seen)
    requires e.ReplyError? || e.ReplyFinished? || e.ConnectionTimeout?
    requires !(UnderWay(s) && s.engine.cur == Some(e.id))
    ensures TimerAsSeen(Next(s, e, env), k, seen)
  {
    hide TimerAsSeen, WithClient, Around, Counted, Logged;
    OthersAreDone(s, e.id);
    var c := ClientOf(s, e.id);
    SilentSeen(s, e.id, c.(net := Failed, reply := false), k, seen);
    SilentSeen(s, e.id, Resting(c, Closed), k, seen);
    SilentSeen(s, e.id, Resting(c, c.net), k, seen);
  }

  lemma CurrentHasClient(s: Sys)
    requires Inv(s) && UnderWay(s)
    ensures var it := s.items[s.engine.cur.value];
      && (it.status.Sending? ==> it.http.Some?) && !it.status.Finished? && !it.status.Cancelled?
      && (it.http.Some? && it.http.value.timer ==> it.status.Sending?)
  {
    hide Around, Counted, Logged;
  }

  lemma SameItemsSeen(s: Sys, x: Sys, k: nat, seen: bool)
    requires x.items == s.items && TimerAsSeen(s, k, seen)
    ensures TimerAsSeen(x, k, seen)
  {
  }

  lemma SeenStep(s: Sys, e: Event, env: Env, k: nat, seen: bool)
    requires Reachable(s) && WellFormed(s) && Enabled(s, e) && TimerAsSeen(s, k, seen)
    ensures TimerAsSeen(Step(s, e, env), k, seen || Sees(e, k))
  {
    hide Step, Reachable, TimerAsSeen, HandedTo, ReportedAs, WithClient, Busy, Over, Idle;
    ReachableInv(s);
    StepIsNext(s, e, env);
    if UnderWay(s) {
      forall x, it: Item | SameTurn(s, x) && NoLongerSent(s, it)
        ensures UnderWay(x)
        ensures TimerAsSeen(ReportedAs(x, it, env), k, seen)
      {
        ReportSeen(s, x, it, env, k, seen);
      }
      CurrentHasClient(s);
    } else {
      NotUnderWay(s);
    }
    forall x: Sys | x.items == s.items ensures TimerAsSeen(x, k, seen) {
      SameItemsSeen(s, x, k, seen);
    }
    match e
    case Enqueue(file) => EnqueueSeen(s, file, env, k, seen);
    case SessionOpened =>
      if s.engine.state.Connecting? {
        CurrentWaits(s);
        HandedSeen(s, s.engine.cur.value, Env(true, env.requestCreated), k, seen);
      }
    case UploadProgress(j) => ProgressSeen(s, j, env, k, seen);
    case ReplyError(j, _) => if !(UnderWay(s) && s.engine.cur == Some(j)) { LateSeen(s, e, env, k, seen); }
    case ReplyFinished(j) => if !(UnderWay(s) && s.engine.cur == Some(j)) { LateSeen(s, e, env, k, seen); }
    case ConnectionTimeout(j) => if !(UnderWay(s) && s.engine.cur == Some(j)) { LateSeen(s, e, env, k, seen); }
    case _ =>
  }

  lemma {:induction false} SeenAlongRun(s: Sys, run: seq<Action>, k: nat, seen: bool)
    requires Reachable(s) && WellFormed(s) && Legal(s, run) && TimerAsSeen(s, k, seen)
    ensures TimerAsSeen(Run(s, run), k, seen || exists i :: 0 <= i < |run| && Sees(run[i].event, k))
    decreases |run|
  {
    hide Step, Reachable, TimerAsSeen, Sees;
    if run == [] {
    } else {
      var e, env := run[0].event, run[0].env;
      SeenStep(s, e, env, k, seen);
      ReachableStep(s, e, env);
      SeenAlongRun(Step(s, e, env), run[1..], k, seen || Sees(e, k));
      assert (exists i :: 0 <= i < |run| && Sees(run[i].event, k))
          == (Sees(e, k) || exists i :: 0 <= i < |run[1..]| && Sees(run[1..][i].event, k)) by {
        if i :| 0 < i < |run| && Sees(run[i].event, k) { assert run[1..][i - 1] == run[i]; }
      }
    }
  }

  // Over every run from the start of a batch: the connection timer of an item being sent runs exactly
  // if no progress of that item has been seen.
  lemma TimerIff(total: nat, run: seq<Action>, k: nat)
    requires Legal(Start(total), run)
    requires var r := Run(Start(total), run); k < |r.items| && r.items[k].status.Sending?
    ensures var r := Run(Start(total), run);
      && HasClient(r, k)
      && (ClientOf(r, k).timer <==> forall i :: 0 <= i < |run| ==> !Sees(run[i].event, k))
      && (Enabled(r, ConnectionTimeout(k)) <==> ClientOf(r, k).timer)
  {
    hide Step, Run, Legal, Reachable, Sees;
    StartReachable(total);
    SeenAlongRun(Start(total), run, k, false);
  }

  // A progress is that of the item being sent; it stops the connection timer for good, so that no
  // timeout can fail the upload any more, and the client sends.
  lemma ProgressStopsTimer(s: Sys, k: nat, env: Env, run: seq<Action>)
    requires Reachable(s) && WellFormed(s) && Enabled(s, UploadProgress(k))
    requires Legal(Step(s, UploadProgress(k), env), run)
    ensures s.queue.notified && s.engine.cur == Some(k)
    ensures var r := Step(s, UploadProgress(k), env);
      HasClient(r, k) && ClientOf(r, k) == ClientOf(s, k).(timer := false, state := ClientSending)
    ensures !Enabled(Run(Step(s, UploadProgress(k), env), run), ConnectionTimeout(k))
  {
    hide Step, Run, Legal, Reachable, Around, Counted, Logged;
    ReachableInv(s);
    StepIsNext(s, UploadProgress(k), env);
    ProgressIs(s, k, env);
    ReachableStep(s, UploadProgress(k), env);
    SeenAlongRun(Step(s, UploadProgress(k), env), run, k, true);
  }

  /* ---- how a batch ends ---- */

  // The engine ends a batch Closing exactly if the session still stood; after that only the loss of
  // the session is noted.
  lemma EndsClosingIff(s: Sys, e: Event, env: Env)
    requires Reachable(s) && WellFormed(s) && Enabled(s, e) && Step(s, e, env).log.verdicts != []
    ensures var lost := e.SessionDisconnected? || e.NetworkError?;
      Step(s, e, env).engine.state
      == if lost then NoConnection else if s.log.verdicts == [] then Closing else s.engine.state
  {
    hide Step, Reachable, HandedTo, Around, Counted, Logged;
    ReachableInv(s);
    StepIsNext(s, e, env);
  }
}
