/**
 Which error finished() and lastError() tell: the first one raised, and the first text supplied,
 over every run, although one lost connection makes several handlers try to set both.
 */
module UploadErrors {
  import opened Basics
  import opened UploadModel
  import opened UploadInvariant
  import opened UploadSteps
  import opened UploadTheorems
  import opened UploadVerdict

  ghost predicate Current(s: Sys, k: nat) {
    s.queue.notified && s.engine.cur == Some(k)
  }

  // The error that an event is about.
  ghost function Raised(s: Sys, e: Event): ErrorType
    requires WellFormed(s)
  {
    match e
    case SessionDisconnected | NetworkError(_) =>
      if s.engine.state.Connecting? then ConnectionNotAvailable
      else if s.engine.state.Connected? then ConnectionClosed
      else NoError
    case CancelAll =>
      if s.queue.notified && s.engine.cur.Some? && !s.items[s.engine.cur.value].status.Error? then ProtocolError
      else NoError
    case ReplyError(k, _) => if Current(s, k) then ProtocolError else NoError
    case ConnectionTimeout(k) => if Current(s, k) then ProtocolError else NoError
    case _ => NoError
  }

  ghost predicate BeingSent(s: Sys)
    requires WellFormed(s)
  {
    s.queue.notified && s.engine.cur.Some? && s.items[s.engine.cur.value].status.Sending?
  }

  // The texts that come with it, in order: from the network, and from the reply that failed or had
  // to be aborted.
  ghost function Supplied(s: Sys, e: Event): seq<string>
    requires WellFormed(s)
  {
    var aborted := if BeingSent(s) then [ABORT_MESSAGE] else [];
    match e
    case NetworkError(message) => [message] + aborted
    case SessionDisconnected | CancelAll => aborted
    case ReplyError(k, message) => if Current(s, k) then [message] else []
    case ConnectionTimeout(k) => if Current(s, k) then [ABORT_MESSAGE] else []
    case _ => []
  }

  ghost function FirstRaised(s: Sys, run: seq<Action>): ErrorType
    requires WellFormed(s) && Legal(s, run)
    decreases |run|
  {
    if run == [] then NoError
    else if !Raised(s, run[0].event).NoError? then Raised(s, run[0].event)
    else FirstRaised(Step(s, run[0].event, run[0].env), run[1..])
  }

  ghost function AllSupplied(s: Sys, run: seq<Action>): seq<string>
    requires WellFormed(s) && Legal(s, run)
    decreases |run|
  {
    if run == [] then []
    else Supplied(s, run[0].event) + AllSupplied(Step(s, run[0].event, run[0].env), run[1..])
  }

  function First(texts: seq<string>): Option<string> {
    if texts == [] then None else Some(texts[0])
  }

  function Last(texts: seq<string>): Option<string> {
    if texts == [] then None else Some(texts[|texts| - 1])
  }

  // What an item in flight can be told by, and that without one there is no connection.
  lemma CurrentShape(s: Sys)
    requires Inv(s)
    ensures s.queue.notified ==> UnderWay(s)
    ensures s.queue.notified <==> s.engine.state.Connecting? || s.engine.state.Connected?
    ensures UnderWay(s) ==>
      var it := s.items[s.engine.cur.value];
      && (Live(it) <==> it.status.Sending?) && (Stalled(it) <==> it.status.Error?)
  {
    hide Around, Counted, Logged;
  }

  // An event hands exactly these texts to setErrorString(), and raises exactly this error first.
  lemma StepErrors(s: Sys, e: Event, env: Env)
    requires WellFormed(s) && Inv(s) && Enabled(s, e)
    ensures var r := Step(s, e, env);
      && r.engine.error == (if s.engine.error.NoError? then Raised(s, e) else s.engine.error)
      && r.engine.texts == s.engine.texts + Supplied(s, e)
      && r.engine.errorMessage
         == (if s.engine.errorMessage.None? then First(Supplied(s, e)) else s.engine.errorMessage)
  {
    hide Step, Inv, Busy, Over, Done, Live, Stalled;
    CurrentShape(s);
    StepEffect(s, e, env);
  }

  lemma {:induction false} ErrorsAlongRun(s: Sys, run: seq<Action>)
    requires WellFormed(s) && Inv(s) && Legal(s, run)
    ensures var r := Run(s, run);
      && r.engine.error == (if s.engine.error.NoError? then FirstRaised(s, run) else s.engine.error)
    decreases |run|
  {
    hide Step, Inv, Raised, Supplied, Effect;
    if run == [] {
    } else {
      var t := Step(s, run[0].event, run[0].env);
      StepEffect(s, run[0].event, run[0].env);
      EffectInv(s, run[0].event, t);
      StepErrors(s, run[0].event, run[0].env);
      ErrorsAlongRun(t, run[1..]);
    }
  }

  lemma {:induction false} TextsAlongRun(s: Sys, run: seq<Action>)
    requires WellFormed(s) && Inv(s) && Legal(s, run)
    ensures var r := Run(s, run);
      && r.engine.texts == s.engine.texts + AllSupplied(s, run)
      && r.engine.errorMessage
         == (if s.engine.errorMessage.None? then First(AllSupplied(s, run)) else s.engine.errorMessage)
    decreases |run|
  {
    hide Step, Inv, Raised, Supplied, Effect;
    if run == [] {
    } else {
      var e, t := run[0].event, Step(s, run[0].event, run[0].env);
      StepEffect(s, e, run[0].env);
      EffectInv(s, e, t);
      StepErrors(s, e, run[0].env);
      TextsAlongRun(t, run[1..]);
      assert AllSupplied(s, run) == Supplied(s, e) + AllSupplied(t, run[1..]);
    }
  }

  // At any point of a batch lastError() is the first text that was handed to setErrorString(), and
  // the error that finished() announces is the first one raised.
  lemma FirstErrorWins(total: nat, run: seq<Action>)
    requires Legal(Start(total), run)
    ensures var r := Run(Start(total), run);
      && r.engine.error == FirstRaised(Start(total), run)
      && r.engine.texts == AllSupplied(Start(total), run) && r.engine.errorMessage == First(r.engine.texts)
      && (r.log.verdicts != [] ==> r.log.verdicts[0].error == FirstRaised(Start(total), run))
  {
    hide Step, Around, Counted, Logged;
    StartInv(total);
    ErrorsAlongRun(Start(total), run);
    TextsAlongRun(Start(total), run);
    RunKeepsInv(Start(total), run);
  }

  /* ---- lastError() is not the last one ---- */

  // lastError() is not the last text that was handed to setErrorString().
  ghost predicate Stale(s: Sys) {
    s.engine.errorMessage != Last(s.engine.texts)
  }

  // The last text an event brings, if it brings any.
  ghost function LastText(s: Sys, e: Event): string
    requires WellFormed(s)
  {
    match e
    case NetworkError(message) => if BeingSent(s) then ABORT_MESSAGE else message
    case ReplyError(_, message) => message
    case _ => ABORT_MESSAGE
  }

  // Another text was there before, or the network error comes while an item is being sent: then the
  // aborted item brings a second text.
  ghost predicate DropsLast(s: Sys, e: Event)
    requires WellFormed(s)
  {
    match s.engine.errorMessage
    case Some(text) => text != LastText(s, e)
    case None => e.NetworkError? && BeingSent(s) && e.message != ABORT_MESSAGE
  }

  // An event that brings a text leaves lastError() stale exactly under that condition, and any other
  // event leaves it as it was.
  lemma TextReturnedIff(s: Sys, e: Event, env: Env)
    requires Reachable(s) && WellFormed(s) && Enabled(s, e)
    ensures Stale(Step(s, e, env)) <==> if Supplied(s, e) == [] then Stale(s) else DropsLast(s, e)
  {
    hide Step, Reachable;
    ReachableInv(s);
    StepErrors(s, e, env);
  }

  // The same along a run: the last event that brings a text decides.
  ghost predicate EndsStale(stale: bool, s: Sys, run: seq<Action>)
    requires WellFormed(s) && Legal(s, run)
    decreases |run|
  {
    if run == [] then stale
    else
      var e := run[0].event;
      EndsStale(if Supplied(s, e) == [] then stale else DropsLast(s, e), Step(s, e, run[0].env), run[1..])
  }

  lemma {:induction false} StaleAlongRun(s: Sys, run: seq<Action>)
    requires Reachable(s) && WellFormed(s) && Legal(s, run)
    ensures Stale(Run(s, run)) <==> EndsStale(Stale(s), s, run)
    decreases |run|
  {
    hide Step, Reachable, Stale, DropsLast, Supplied;
    if run == [] {
    } else {
      var e, env := run[0].event, run[0].env;
      TextReturnedIff(s, e, env);
      ReachableStep(s, e, env);
      StaleAlongRun(Step(s, e, env), run[1..]);
    }
  }

  // lastError() is the last text of a batch exactly if the last event that brought one did not drop it.
  lemma LastErrorIff(total: nat, run: seq<Action>)
    requires Legal(Start(total), run)
    ensures Run(Start(total), run).engine.errorMessage == Last(Run(Start(total), run).engine.texts)
            <==> !EndsStale(false, Start(total), run)
  {
    hide EndsStale, Run, Legal, Reachable;
    StartReachable(total);
    StaleAlongRun(Start(total), run);
  }

  lemma LostWhileSending(s: Sys, file: string, message: string)
    requires WellFormed(s) && FirstOut(s, file) && s.engine.state.Connected? && Live(s.items[0])
    ensures var r := Step(s, NetworkError(message), CLOSED);
      && r.log.verdicts == [Verdict(ConnectionClosed, 0, 1)]
      && r.engine.errorMessage == Some(message) && r.engine.texts == [message, ABORT_MESSAGE]
  {
    hide Step, Logged;
    StepEffect(s, NetworkError(message), CLOSED);
    StepErrors(s, NetworkError(message), CLOSED);
    var r := Step(s, NetworkError(message), CLOSED);
    assert CountStatus(r.items, 1, Finished) == CountStatus(r.items, 0, Finished);
  }

  // One network error while a file is being sent brings two texts, and the first of them stays.
  lemma LastErrorIsStale(file: string, message: string)
    requires message != ABORT_MESSAGE
    ensures var run := Opening(file, true) + [Action(NetworkError(message), CLOSED)];
      && Legal(Start(0), run)
      && var r := Run(Start(0), run);
      && r.log.verdicts == [Verdict(ConnectionClosed, 0, 1)] && Stale(r)
      && r.engine.errorMessage == Some(message) && r.engine.texts == [message, ABORT_MESSAGE]
  {
    hide Step, Run, Legal, Busy, Reachable, FirstOut, Live;
    Opened(file, true);
    LostWhileSending(Run(Start(0), Opening(file, true)), file, message);
    RunSnoc(Start(0), Opening(file, true), NetworkError(message), CLOSED);
  }

  /* ---- when every request can be created ---- */

  ghost predicate AllCreated(run: seq<Action>) {
    forall i :: 0 <= i < |run| ==> run[i].env.requestCreated
  }

  lemma {:induction false} NeverStalls(s: Sys, run: seq<Action>)
    requires WellFormed(s) && Requested(s.items) && Legal(s, run) && AllCreated(run)
    ensures StalledHits(s, run) == 0 && !EverLosesStalled(s, run)
    decreases |run|
  {
    hide Step, Around, Counted, Logged;
    if run == [] {
    } else {
      NeverStalls(Step(s, run[0].event, run[0].env), run[1..]);
    }
  }

  // If every file can be read and its request created, finished() reports NoError exactly if all
  // files were sent, and the files removed are as many as it announces.
  lemma VerdictAgrees(total: nat, run: seq<Action>)
    requires Legal(Start(total), run) && AllCreated(run)
    requires Run(Start(total), run).log.verdicts != []
    ensures var r := Run(Start(total), run);
      && (r.log.verdicts[0].error.NoError? <==> r.log.verdicts[0].sent == r.log.verdicts[0].total)
      && r.log.verdicts[0].sent == |r.log.removed|
  {
    hide Step, EverLosesStalled, StalledHits;
    NeverStalls(Start(total), run);
    VerdictExact(total, run);
    RemovedExactlySent(total, run);
  }
}
