/**
 What each event does to a batch, in terms of the current item only.  The summary is a reference
 for the signal chains of `UploadModel`: `Outcome` says which event ends the current item and how.
 */
module UploadSteps {
  import opened Basics
  import opened UploadModel
  import opened UploadInvariant

  // How the current item ends by event e, if it does.
  ghost function Outcome(s: Sys, e: Event): Option<ItemStatus> {
    if !UnderWay(s) then None
    else
      var it := s.items[s.engine.cur.value];
      match e
      case CancelAll | SessionDisconnected | NetworkError(_) =>
        Some(if Stalled(it) then Finished else Cancelled)
      case ReplyError(k, _) => if k == s.engine.cur.value then Some(Error) else None
      case ConnectionTimeout(k) => if k == s.engine.cur.value then Some(Error) else None
      case ReplyFinished(k) => if k == s.engine.cur.value then Some(Finished) else None
      case _ => None
  }

  // The error the engine records before the current item hears of a lost session.
  ghost function ErrorBefore(s: Sys, e: Event): ErrorType {
    if (e.SessionDisconnected? || e.NetworkError?) && UnderWay(s) && s.engine.error.NoError? then
      if s.engine.state.Connecting? then ConnectionNotAvailable else ConnectionClosed
    else s.engine.error
  }

  // The error text of the current item when event e ends it: what its reply said, if it had one.
  ghost function ItemText(s: Sys, e: Event): Option<string>
    requires UnderWay(s)
  {
    match e
    case ReplyError(_, message) => Some(message)
    case ConnectionTimeout(_) => Some(ABORT_MESSAGE)
    case _ => if Live(s.items[s.engine.cur.value]) then Some(ABORT_MESSAGE) else None
  }

  // The batch as it is when the current item hears of the event.
  ghost function Noted(s: Sys, e: Event): Sys {
    var told := if e.NetworkError? then SetErrorString(s.engine, Some(e.message)) else s.engine;
    s.(engine := told.(error := ErrorBefore(s, e)))
  }

  // Nothing is reported: done items stay done, and all counts stay.
  ghost predicate Quiet(s: Sys, r: Sys) {
    && |s.items| <= |r.items|
    && (forall i :: 0 <= i < |s.items| ==> r.items[i].file == s.items[i].file)
    && (forall i :: 0 <= i < |s.items| && Done(s.items[i]) ==>
          Done(r.items[i]) && r.items[i].status == s.items[i].status)
    && r.engine.sentFiles == s.engine.sentFiles && r.engine.error == s.engine.error
    && r.log.completed == s.log.completed && r.log.removed == s.log.removed
    && r.log.verdicts == s.log.verdicts
  }

  // The effect of one event: nothing is reported, or the current item is, once.
  ghost predicate Effect(s: Sys, e: Event, r: Sys)
    requires Inv(s)
  {
    && Inv(r)
    && match Outcome(s, e)
       case None =>
         && Quiet(s, r) && SameTexts(Noted(s, e).engine, r.engine)
         && |r.items| == |s.items| + (if e.Enqueue? then 1 else 0)
         && (Busy(s) ==> Busy(r) && r.engine.cur == s.engine.cur)
         && (Busy(s) && Stalled(s.items[s.engine.cur.value]) ==> Stalled(r.items[s.engine.cur.value]))
         && (Over(s) ==> Over(r) && r.log.started == s.log.started)
       case Some(status) =>
         && |r.items| == |s.items|
         && (forall i :: 0 <= i < |s.items| ==> r.items[i].file == s.items[i].file)
         && Settles(Noted(s, e), r, status)
         && (!status.Finished? ==> r.items[s.engine.cur.value].errorString == ItemText(s, e))
         && r.log.removed == s.log.removed + if e.ReplyFinished? then [s.engine.cur.value] else []
  }

  // The engine's state and error text play no part in the frame, and an error can only be raised.
  lemma FrameIgnores(s: Sys, engine: Engine)
    requires Frame(s)
    requires engine.cur == s.engine.cur && engine.sentFiles == s.engine.sentFiles
    requires engine.error == s.engine.error || !engine.error.NoError?
    ensures Frame(s.(engine := engine))
  {
  }

  // Touching the current item while it stays in flight.
  lemma StillInFlight(s: Sys, it: Item, engine: Engine)
    requires Busy(s)
    requires it.file == s.items[s.engine.cur.value].file && !Done(it)
    requires engine == s.engine.(state := engine.state) && InFlight(it, engine.state)
    requires it.http.Some? == s.items[s.engine.cur.value].http.Some?
    ensures var r := PutItem(s, s.engine.cur.value, it).(engine := engine);
      Busy(r) && Quiet(s, r)
  {
    var r := PutItem(s, s.engine.cur.value, it).(engine := engine);
    CountSame(s.items, r.items, s.engine.cur.value, Finished);
    assert Around(r.items, s.engine.cur.value) && RemovedExact(r.items, r.log.removed);
  }

  // A client that is not the current item's belongs to an item that is done and unheard.
  lemma OthersAreDone(s: Sys, k: nat)
    requires Inv(s) && HasClient(s, k) && !(Busy(s) && k == s.engine.cur.value)
    ensures (Busy(s) || Over(s)) && Done(s.items[k])
  {
  }

  lemma SilentEffect(s: Sys, k: nat, client: Client)
    requires Inv(s) && HasClient(s, k) && !(Busy(s) && k == s.engine.cur.value)
    requires !s.items[k].wired && !client.reply && (client.net.Failed? || client.net.Closed?)
    ensures var r := PutClient(s, k, client);
      Inv(r) && Quiet(s, r) && (Busy(s) ==> Busy(r))
  {
    OthersAreDone(s, k);
    SilentTouch(s, k, client);
  }

  /* ---- one lemma for each event ---- */

  lemma NewIsPristine(file: string)
    ensures Pristine(NewItem(file)) && !Shipped(NewItem(file)) && !Done(NewItem(file))
  {
  }

  lemma EnqueueBusy(s: Sys, file: string, env: Env)
    requires Busy(s) && WellFormed(s)
    ensures var r := QueueEnqueue(s, file, env);
      Busy(r) && !Idle(r) && Quiet(s, r) && r.items == s.items + [NewItem(file)] && r.engine == s.engine
  {
    hide EmitNextItem, Done, Shipped;
    var r := QueueEnqueue(s, file, env);
    CountSame(s.items, r.items, s.engine.cur.value, Finished);
    assert Around(r.items, s.engine.cur.value);
    assert !Shipped(NewItem(file)) by { NewIsPristine(file); }
    assert RemovedExact(r.items, r.log.removed);
  }

  lemma EnqueueIdle(s: Sys, file: string, env: Env)
    requires Idle(s) && WellFormed(s)
    ensures var r := QueueEnqueue(s, file, env);
      && Busy(r) && Quiet(s, r) && |r.items| == 1 && r.items[0].file == file
      && SameTexts(s.engine, r.engine)
  {
    var r := QueueEnqueue(s, file, env);
    assert r.engine.cur == Some(0) && Around(r.items, 0);
  }

  lemma EnqueueEffect(s: Sys, file: string, env: Env)
    requires Inv(s) && WellFormed(s) && s.log.verdicts == []
    ensures var r := QueueEnqueue(s, file, env);
      && Effect(s, Enqueue(file), r)
      && Busy(r) && |r.items| == |s.items| + 1 && r.items[|s.items|].file == file
  {
    hide QueueEnqueue;
    if Busy(s) { EnqueueBusy(s, file, env); } else { EnqueueIdle(s, file, env); }
  }

  lemma StartCurrent(s: Sys, env: Env)
    requires Busy(s) && WellFormed(s) && s.engine.state.Connecting?
    ensures var r := EngineSessionOpened(s, env);
      Busy(r) && Quiet(s, r) && r.engine.cur == s.engine.cur && SameTexts(s.engine, r.engine)
  {
    var r := EngineSessionOpened(s, env);
    CountSame(s.items, r.items, s.engine.cur.value, Finished);
    assert Around(r.items, s.engine.cur.value) && RemovedExact(r.items, r.log.removed);
  }

  lemma SessionOpenedEffect(s: Sys, env: Env)
    requires Inv(s) && WellFormed(s)
    ensures Effect(s, SessionOpened, EngineSessionOpened(s, env))
  {
    hide StartUpload;
    if s.engine.state.Connecting? { StartCurrent(s, env); }
  }

  lemma CancelAllEffect(s: Sys, env: Env)
    requires Inv(s) && WellFormed(s) && s.log.verdicts == []
    ensures Effect(s, CancelAll, EngineCancelAll(s, env))
  {
    hide ItemCancel;
    if Busy(s) {
      CancelSettles(s, env);
      assert Noted(s, CancelAll) == s;
    }
  }

  // The batch as it is when the engine hears of a lost session, with or without an error text.
  ghost function Told(s: Sys, e: Event): Sys {
    if e.NetworkError? then s.(engine := SetErrorString(s.engine, Some(e.message))) else s
  }

  lemma BusyLossEffect(s: Sys, e: Event, env: Env)
    requires Busy(s) && WellFormed(s) && (e.SessionDisconnected? || e.NetworkError?)
    ensures Effect(s, e, EngineSessionDisconnected(Told(s, e), env))
  {
    hide ItemCancel, Over, Idle, Around, Counted, Logged, IsRange;
    var lost := Told(s, e).engine.(state := NoConnection, error := ErrorBefore(s, e));
    FrameIgnores(s, lost);
    CancelSettles(s.(engine := lost), env);
  }

  lemma IdleLossEffect(s: Sys, e: Event, env: Env)
    requires Inv(s) && !Busy(s) && WellFormed(s) && (e.SessionDisconnected? || e.NetworkError?)
    ensures Effect(s, e, EngineSessionDisconnected(Told(s, e), env))
  {
    hide ItemCancel;
  }

  lemma LossEffect(s: Sys, e: Event, env: Env)
    requires Inv(s) && WellFormed(s) && (e.SessionDisconnected? || e.NetworkError?)
    ensures Effect(s, e, Step(s, e, env))
  {
    hide EngineSessionDisconnected;
    if Busy(s) { BusyLossEffect(s, e, env); } else { IdleLossEffect(s, e, env); }
  }

  lemma ProgressEffect(s: Sys, k: nat)
    requires Inv(s) && WellFormed(s) && Enabled(s, UploadProgress(k))
    ensures Effect(s, UploadProgress(k), HandleUploadProgress(s, k))
  {
    if !(Busy(s) && k == s.engine.cur.value) {
      OthersAreDone(s, k);
    } else {
      StillInFlight(s, HandleUploadProgress(s, k).items[k], s.engine);
    }
  }

  lemma SilentTimeout(s: Sys, k: nat, env: Env)
    requires Inv(s) && WellFormed(s) && Enabled(s, ConnectionTimeout(k))
    requires !(Busy(s) && k == s.engine.cur.value)
    ensures var quiet := ClientOf(s, k).(state := ClientInit, timer := false);
      && ClientCancel(s, k, env) == PutClient(s, k, quiet)
      && Done(s.items[k]) && !s.items[k].wired && !quiet.reply && (quiet.net.Failed? || quiet.net.Closed?)
  {
    hide EngineUploadFinished, Around, Counted, Logged;
    OthersAreDone(s, k);
    var aborting := PutClient(s, k, ClientOf(s, k).(state := ClientAborting));
    assert HandleFinished(aborting, k, env)
        == PutClient(s, k, ClientOf(s, k).(state := ClientInit, timer := false));
  }

  lemma TimeoutEffect(s: Sys, k: nat, env: Env)
    requires Inv(s) && WellFormed(s) && Enabled(s, ConnectionTimeout(k))
    ensures Effect(s, ConnectionTimeout(k), ClientCancel(s, k, env))
  {
    hide ClientCancel, Around, Counted, Logged;
    if Busy(s) && k == s.engine.cur.value {
      CancelRunning(s, env);
      assert Noted(s, ConnectionTimeout(k)) == s;
    } else {
      SilentTimeout(s, k, env);
      SilentEffect(s, k, ClientOf(s, k).(state := ClientInit, timer := false));
    }
  }

  lemma ReplyErrorEffect(s: Sys, k: nat, message: string, env: Env)
    requires Inv(s) && WellFormed(s) && Enabled(s, ReplyError(k, message))
    ensures Effect(s, ReplyError(k, message), Step(s, ReplyError(k, message), env))
  {
    hide EngineUploadFinished, Around, Counted, Logged;
    if !(Busy(s) && k == s.engine.cur.value) {
      OthersAreDone(s, k);
    } else {
      var it := s.items[k];
      var failed := it.(http := Some(it.http.value.(net := Failed, reply := false)), wired := false,
                        errorString := Some(message), status := Error);
      SettleAs(s, failed, s.log.removed, env);
      assert PutItem(s, k, failed) == PutItem(s.(log := s.log.(removed := s.log.removed)), k, failed);
      var cleared := PutClient(PutClient(s, k, it.http.value.(net := Failed)), k, failed.http.value);
      assert PutItem(cleared, k, failed) == PutItem(s, k, failed);
      assert ItemUploadError(cleared, k, message, env) == EngineUploadFinished(PutItem(cleared, k, failed), k, env);
      assert Noted(s, ReplyError(k, message)) == s;
    }
  }

  lemma ReplyFinishedEffect(s: Sys, k: nat, env: Env)
    requires Inv(s) && WellFormed(s) && Enabled(s, ReplyFinished(k))
    ensures Effect(s, ReplyFinished(k), Step(s, ReplyFinished(k), env))
  {
    hide EngineUploadFinished, Around, Counted, Logged;
    var closed := ClientOf(s, k).(net := Closed);
    var quiet := closed.(timer := false, reply := false, state := ClientInit);
    var received := PutClient(s, k, closed);
    if !(Busy(s) && k == s.engine.cur.value) {
      OthersAreDone(s, k);
      SilentEffect(s, k, quiet);
      assert HandleFinished(received, k, env) == PutClient(s, k, quiet);
    } else {
      var sent := s.items[k].(http := Some(quiet), status := Finished);
      var removed := s.log.removed + [k];
      SettleAs(s, sent, removed, env);
      var unlinked := received.(log := received.log.(removed := removed));
      var settled := PutClient(unlinked, k, quiet);
      assert HandleFinished(received, k, env) == ItemEmitUploadFinished(settled, k, env);
      assert PutItem(settled, k, settled.items[k].(status := Finished))
          == PutItem(s.(log := s.log.(removed := removed)), k, sent);
      assert Noted(s, ReplyFinished(k)) == s;
    }
  }

  // Every event keeps the invariant, and its whole effect on the batch is `Effect`.
  lemma StepEffect(s: Sys, e: Event, env: Env)
    requires Inv(s) && WellFormed(s) && Enabled(s, e)
    ensures Effect(s, e, Step(s, e, env))
  {
    hide Effect, Inv, EngineSessionOpened, EngineCancelAll, EngineConnectionError, EngineSessionDisconnected,
      QueueEnqueue, ClientCancel, HandleUploadProgress, HandleError, HandleFinished;
    match e
    case Enqueue(file) => EnqueueEffect(s, file, env);
    case SessionOpened => SessionOpenedEffect(s, env);
    case SessionDisconnected => LossEffect(s, e, env);
    case NetworkError(_) => LossEffect(s, e, env);
    case CancelAll => CancelAllEffect(s, env);
    case ReplyError(k, message) => ReplyErrorEffect(s, k, message, env);
    case ReplyFinished(k) => ReplyFinishedEffect(s, k, env);
    case UploadProgress(k) => ProgressEffect(s, k);
    case ConnectionTimeout(k) => TimeoutEffect(s, k, env);
  }

  lemma EffectInv(s: Sys, e: Event, r: Sys)
    requires Inv(s) && Effect(s, e, r)
    ensures Inv(r)
  {
  }
}
