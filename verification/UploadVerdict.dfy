/**
 What finished(error, sent, total) tells about a batch, when it is wrong, and how a batch gets there.
 */
module UploadVerdict {
  import opened Basics
  import opened UploadModel
  import opened UploadInvariant
  import opened UploadSteps
  import opened UploadTheorems

  /* ---- the verdict agrees with the counts ---- */

  ghost predicate AllSent(s: Sys) {
    forall i :: 0 <= i < |s.items| && Done(s.items[i]) ==> s.items[i].status.Finished?
  }

  // The session is lost while the current item is stalled.
  ghost predicate LosesStalled(s: Sys, e: Event) {
    HitsStalled(s, e) && !e.CancelAll?
  }

  ghost predicate EverLosesStalled(s: Sys, run: seq<Action>)
    requires WellFormed(s) && Legal(s, run)
    decreases |run|
  {
    run != [] && (LosesStalled(s, run[0].event)
                  || EverLosesStalled(Step(s, run[0].event, run[0].env), run[1..]))
  }

  lemma {:induction false} CountFull(items: seq<Item>, n: nat, status: ItemStatus)
    requires n <= |items| && CountStatus(items, n, status) == n
    ensures forall i :: 0 <= i < n ==> items[i].status == status
  {
    if n == 0 {
    } else {
      CountFull(items, n - 1, status);
    }
  }

  // No error recorded means that no item has failed or been cancelled.
  lemma NoErrorMeansAllSent(s: Sys)
    requires Inv(s) && s.engine.error.NoError?
    ensures AllSent(s)
  {
    if Busy(s) {
      CountFull(s.items, s.engine.cur.value, Finished);
      forall i: nat | i < |s.items| && Done(s.items[i]) ensures s.items[i].status.Finished? {
        DoneIsNotCurrent(s, i);
      }
    } else if Over(s) {
      CountFull(s.items, s.engine.cur.value + 1, Finished);
    }
  }

  lemma StepError(s: Sys, e: Event, env: Env)
    requires WellFormed(s) && Inv(s) && Enabled(s, e) && s.engine.error.NoError?
    ensures var r := Step(s, e, env);
      r.engine.error.NoError? <==> AllSent(r) && !LosesStalled(s, e)
  {
    hide Step, Around, Counted, Logged, Done;
    StepEffect(s, e, env);
    var r := Step(s, e, env);
    EffectInv(s, e, r);
    if r.engine.error.NoError? {
      NoErrorMeansAllSent(r);
    } else if Outcome(s, e).Some? && !Outcome(s, e).value.Finished? {
      assert Done(r.items[s.engine.cur.value]);
    }
  }

  lemma {:induction false} ErrorAlongRun(s: Sys, run: seq<Action>)
    requires WellFormed(s) && Inv(s) && Legal(s, run) && s.engine.error.NoError?
    ensures var r := Run(s, run);
      r.engine.error.NoError? <==> AllSent(r) && !EverLosesStalled(s, run)
    decreases |run|
  {
    hide Step, Inv, Over, Done, LosesStalled, Outcome;
    if run == [] {
      NoErrorMeansAllSent(s);
    } else {
      var t := Step(s, run[0].event, run[0].env);
      StepEffect(s, run[0].event, run[0].env);
      EffectInv(s, run[0].event, t);
      StepError(s, run[0].event, run[0].env);
      if t.engine.error.NoError? {
        ErrorAlongRun(t, run[1..]);
      } else if !AllSent(t) {
        RunRemembers(t, run[1..]);
        var i :| 0 <= i < |t.items| && Done(t.items[i]) && !t.items[i].status.Finished?;
        assert Done(Run(s, run).items[i]);
      }
    }
  }

  lemma AllSentMeansTotal(s: Sys)
    requires Over(s)
    ensures AllSent(s) <==> s.log.verdicts[0].sent == s.log.verdicts[0].total
  {
    var c := s.engine.cur.value;
    if AllSent(s) {
      CountTail(s.items, 0, c + 1, Cancelled);
      assert s.items[c].status.Finished? && c + 1 == |s.items|;
      CountAll(s.items, c + 1);
      CountNone(s.items, c + 1, Waiting);
      CountNone(s.items, c + 1, Sending);
      CountNone(s.items, c + 1, Error);
      CountNone(s.items, c + 1, Cancelled);
    } else if CountStatus(s.items, c + 1, Finished) == |s.items| {
      CountFull(s.items, c + 1, Finished);
    }
  }

  // finished() reports NoError exactly if everything handed in was counted as sent and the session
  // was never lost while an item had stalled.
  lemma VerdictExact(total: nat, run: seq<Action>)
    requires Legal(Start(total), run) && Run(Start(total), run).log.verdicts != []
    ensures var v := Run(Start(total), run).log.verdicts[0];
      v.error.NoError? <==> v.sent == v.total && !EverLosesStalled(Start(total), run)
  {
    hide Step, Around;
    var r := Run(Start(total), run);
    StartInv(total);
    RunKeepsInv(Start(total), run);
    ErrorAlongRun(Start(total), run);
    AllSentMeansTotal(r);
  }

  // The files removed by the end of a batch are as many as finished() announces as sent exactly if
  // no cancel and no lost session ever hit a stalled item.
  lemma RemovedExactlySent(total: nat, run: seq<Action>)
    requires Legal(Start(total), run) && Run(Start(total), run).log.verdicts != []
    ensures |Run(Start(total), run).log.removed| == Run(Start(total), run).log.verdicts[0].sent
            <==> StalledHits(Start(total), run) == 0
  {
    hide Step;
    StartInv(total);
    SentAgainstRemoved(Start(total), run);
  }

  /* ---- the two ways in which finished() is wrong ---- */

  const CLOSED := Env(false, true)
  const OPEN := Env(true, true)

  // One file is handed out while the session is closed, and then the session opens; the file may be
  // unreadable.
  function Opening(file: string, readable: bool): seq<Action> {
    [Action(Enqueue(file), CLOSED), Action(SessionOpened, Env(true, readable))]
  }

  // A first file on its way.
  ghost predicate FirstOut(s: Sys, file: string) {
    && Busy(s) && s.engine.cur == Some(0) && |s.items| == 1 && s.items[0].file == file
    && s.engine.sentFiles == 0 && s.engine.error.NoError? && s.engine.errorMessage.None? && s.engine.texts == []
    && s.log.removed == [] && s.log.verdicts == []
  }

  lemma FirstWaits(file: string)
    ensures var s := Step(Start(0), Enqueue(file), CLOSED);
      FirstOut(s, file) && s.engine.state.Connecting?
  {
    EnqueueIdle(Start(0), file, CLOSED);
  }

  lemma FirstStarts(s: Sys, file: string, readable: bool)
    requires WellFormed(s) && FirstOut(s, file) && s.engine.state.Connecting?
    ensures var r := Step(s, SessionOpened, Env(true, readable));
      && FirstOut(r, file) && r.engine.state.Connected?
      && if readable then Live(r.items[0]) else Stalled(r.items[0])
  {
    hide Frame;
    StartCurrent(s, Env(true, readable));
  }

  lemma Opened(file: string, readable: bool)
    ensures Legal(Start(0), Opening(file, readable))
    ensures var s := Run(Start(0), Opening(file, readable));
      && Reachable(s) && FirstOut(s, file) && s.engine.state.Connected?
      && if readable then Live(s.items[0]) else Stalled(s.items[0])
  {
    hide Step, FirstOut, Live, Stalled;
    var first := Action(Enqueue(file), CLOSED);
    FirstWaits(file);
    RunSnoc(Start(0), [], first.event, first.env);
    assert [] + [first] == [first];
    var s := Run(Start(0), [first]);
    FirstStarts(s, file, readable);
    RunSnoc(Start(0), [first], SessionOpened, Env(true, readable));
    assert [first] + [Action(SessionOpened, Env(true, readable))] == Opening(file, readable);
  }

  lemma StalledEnds(s: Sys, file: string, e: Event, env: Env)
    requires WellFormed(s) && FirstOut(s, file) && s.engine.state.Connected? && Stalled(s.items[0])
    requires e.CancelAll? || e.SessionDisconnected?
    ensures var r := Step(s, e, env);
      && r.log.removed == []
      && r.log.verdicts == [Verdict(if e.CancelAll? then NoError else ConnectionClosed, 1, 1)]
  {
    hide Step, Around;
    StepEffect(s, e, env);
    StepSent(s, e, env);
  }

  // A cancelled batch whose only file could not be read is announced as a full success.
  lemma CancelledStallCountsAsSent(file: string)
    ensures var run := Opening(file, false) + [Action(CancelAll, OPEN)];
      && Legal(Start(0), run)
      && Run(Start(0), run).log.verdicts == [Verdict(NoError, 1, 1)] && Run(Start(0), run).log.removed == []
  {
    hide Step, Run, Legal, Busy, Reachable;
    Opened(file, false);
    StalledEnds(Run(Start(0), Opening(file, false)), file, CancelAll, OPEN);
    RunSnoc(Start(0), Opening(file, false), CancelAll, OPEN);
  }

  // A session lost at that point is announced as an error with nothing missing.
  lemma LostStallFailsWithNothingMissing(file: string)
    ensures var run := Opening(file, false) + [Action(SessionDisconnected, CLOSED)];
      && Legal(Start(0), run)
      && Run(Start(0), run).log.verdicts == [Verdict(ConnectionClosed, 1, 1)] && Run(Start(0), run).log.removed == []
  {
    hide Step, Run, Legal, Busy, Reachable;
    Opened(file, false);
    StalledEnds(Run(Start(0), Opening(file, false)), file, SessionDisconnected, CLOSED);
    RunSnoc(Start(0), Opening(file, false), SessionDisconnected, CLOSED);
  }

  /* ---- stalling, cancelling, finishing ---- */

  // A stalled item stays where it is until it is cancelled or the session is lost.
  lemma StallPersists(s: Sys, e: Event, env: Env)
    requires Reachable(s) && WellFormed(s) && Enabled(s, e)
    requires s.queue.notified && s.engine.cur.Some? && Stalled(s.items[s.engine.cur.value])
    requires !(e.CancelAll? || e.SessionDisconnected? || e.NetworkError?)
    ensures var r := Step(s, e, env);
      && r.queue.notified && r.engine.cur == s.engine.cur && Stalled(r.items[s.engine.cur.value])
      && r.log.completed == s.log.completed && r.log.verdicts == []
  {
    hide Step, Around, Counted, Logged;
    ReachableInv(s);
    StepEffect(s, e, env);
  }

  // A cancel or a lost session ends the batch at once, exactly if the current item has not stalled or
  // is the last one; it ends the item Cancelled exactly if that has not stalled.  Otherwise the stalled
  // item counts as sent, and the next one is handed out.
  lemma CancelEndsBatchIff(s: Sys, e: Event, env: Env)
    requires Reachable(s) && WellFormed(s) && Enabled(s, e) && s.queue.notified
    requires e.CancelAll? || e.SessionDisconnected? || e.NetworkError?
    ensures s.engine.cur.Some?
    ensures var c, r := s.engine.cur.value, Step(s, e, env);
      && c < |r.items|
      && (!r.queue.notified <==> !Stalled(s.items[c]) || s.queue.ids == [])
      && (r.items[c].status.Cancelled? <==> !Stalled(s.items[c]))
      && r.engine.cur == Some(if r.queue.notified then c + 1 else c)
      && (r.log.verdicts == [] <==> r.queue.notified)
  {
    hide Step, Counted, Logged;
    ReachableInv(s);
    StepEffect(s, e, env);
    EffectInv(s, e, Step(s, e, env));
    assert |s.queue.ids| == |s.items| - (s.engine.cur.value + 1);
  }

  lemma StartedUpToCurrent(s: Sys)
    requires Reachable(s) && s.log.verdicts != []
    ensures Over(s) && s.engine.cur.value < |s.items| && Done(s.items[s.engine.cur.value])
    ensures |s.log.started| <= s.engine.cur.value + 1
  {
    hide Around, Counted;
    ReachableInv(s);
  }

  // Once a batch has ended, nothing is started in any run.
  lemma NothingStartsAfterwards(s: Sys, run: seq<Action>)
    requires Reachable(s) && WellFormed(s) && Legal(s, run) && s.log.verdicts != []
    ensures Run(s, run).log.started == s.log.started && Run(s, run).log.verdicts == s.log.verdicts
  {
    hide Step, Run, Around, Counted, Logged;
    ReachableInv(s);
    RunRemembers(s, run);
  }

  // Then nothing is started afterwards in any run, and what the cancel made of the item stays.
  lemma CancelEndsBatch(s: Sys, e: Event, env: Env, run: seq<Action>)
    requires Reachable(s) && WellFormed(s) && Enabled(s, e) && s.queue.notified
    requires e.CancelAll? || e.SessionDisconnected? || e.NetworkError?
    requires s.engine.cur.Some? && (!Stalled(s.items[s.engine.cur.value]) || s.queue.ids == [])
    requires Legal(Step(s, e, env), run)
    ensures var c := s.engine.cur.value;
      var r := Run(Step(s, e, env), run);
      && c < |r.items| && |r.log.verdicts| == 1
      && (r.items[c].status.Cancelled? <==> !Stalled(s.items[c]))
      && r.log.started == Step(s, e, env).log.started && |r.log.started| <= c + 1
  {
    hide Step, Run, Around, Counted, Logged, Reachable;
    CancelEndsBatchIff(s, e, env);
    ReachableStep(s, e, env);
    var t := Step(s, e, env);
    NothingStartsAfterwards(t, run);
    OneVerdict(t);
    StartedUpToCurrent(t);
    ReachableInv(t);
    RunRemembers(t, run);
  }

  lemma StalledQueue(s: Sys, unreadable: string, file: string, env: Env)
    requires WellFormed(s) && FirstOut(s, unreadable) && Stalled(s.items[0])
    ensures var r := Step(s, Enqueue(file), env);
      && Busy(r) && r.engine == s.engine && r.items == s.items + [NewItem(file)] && r.log.verdicts == []
  {
    hide QueueEnqueue;
    EnqueueBusy(s, file, env);
  }

  lemma CancelStartsNext(s: Sys)
    requires WellFormed(s) && Busy(s) && s.engine.cur == Some(0) && s.engine.error.NoError?
    requires |s.items| == 2 && Stalled(s.items[0])
    ensures var r := Step(s, CancelAll, OPEN);
      && r.queue.notified && r.log.started == [0, 1] && r.log.verdicts == []
      && |r.items| == 2 && r.items[1].status.Sending? && r.engine.error.NoError?
  {
    hide ItemCancel, Around, Counted;
    CancelStalled(s, OPEN);
    var reporting := PutItem(s, 0, s.items[0].(status := Finished));
    assert s.queue.ids == [1] && s.log.started == [0];
    assert QueueItemFinished(Account(reporting.(log := reporting.log.(completed := reporting.log.completed + [0])), 0), OPEN)
        == EngineCancelAll(s, OPEN);
  }

  // A user who cancels while an unreadable file is stalled gets the next file sent.
  lemma CancelGoesOn(unreadable: string, readable: string, env: Env)
    ensures var run := Opening(unreadable, false) + [Action(Enqueue(readable), env)] + [Action(CancelAll, OPEN)];
      && Legal(Start(0), run)
      && var r := Run(Start(0), run);
      && r.queue.notified && r.log.started == [0, 1] && r.log.verdicts == []
      && |r.items| == 2 && r.items[1].status.Sending? && r.engine.error.NoError?
  {
    hide Step, Run, Legal, Busy, Reachable, Stalled;
    var opening := Opening(unreadable, false);
    Opened(unreadable, false);
    var s := Run(Start(0), opening);
    StalledQueue(s, unreadable, readable, env);
    RunSnoc(Start(0), opening, Enqueue(readable), env);
    var t := Step(s, Enqueue(readable), env);
    CancelStartsNext(t);
    RunSnoc(Start(0), opening + [Action(Enqueue(readable), env)], CancelAll, OPEN);
  }

  // How far the batch is from its end.
  ghost function Load(s: Sys): nat {
    |s.queue.ids| + if s.queue.notified then 1 else 0
  }

  // The load drops exactly when an item reports, only new files raise it, and finished() has been
  // emitted, once, exactly when files were handed in and none is left.
  lemma Progress(s: Sys, e: Event, env: Env)
    requires Reachable(s) && WellFormed(s) && Enabled(s, e)
    ensures var r := Step(s, e, env);
      && (Load(r) < Load(s) <==> |r.log.completed| == |s.log.completed| + 1)
      && (Load(r) > Load(s) ==> e.Enqueue?)
      && (s.log.verdicts != [] || (s.items != [] && Load(s) == 0) ==> |s.log.verdicts| == 1 && Load(s) == 0)
  {
    hide Step, Counted, RemovedExact;
    ReachableInv(s);
    StepEffect(s, e, env);
    EffectInv(s, e, Step(s, e, env));
  }

  /* ---- a batch can always be finished ---- */

  lemma QueueLength(s: Sys)
    requires Busy(s)
    ensures |s.queue.ids| == |s.items| - (s.engine.cur.value + 1)
    ensures s.queue.ids != [] ==> !Unsent(s.items[s.engine.cur.value + 1])
  {
    hide Done, Counted, Logged;
  }

  lemma SendCurrent(s: Sys)
    requires WellFormed(s) && Busy(s) && Live(s.items[s.engine.cur.value])
    ensures var c := s.engine.cur.value;
      && Enabled(s, ReplyFinished(c))
      && var r := Step(s, ReplyFinished(c), OPEN);
      && (if s.queue.ids == [] then Over(r)
          else Busy(r) && |r.queue.ids| == |s.queue.ids| - 1 && !Stalled(r.items[r.engine.cur.value]))
      && Sent(r) == Sent(s) + 1 && r.engine.error == s.engine.error
  {
    hide Step, Around, Counted, Logged;
    var c := s.engine.cur.value;
    var r := Step(s, ReplyFinished(c), OPEN);
    StepEffect(s, ReplyFinished(c), OPEN);
    StepSent(s, ReplyFinished(c), OPEN);
    QueueLength(s);
    if Busy(r) { QueueLength(r); }
  }

  lemma OpenCurrent(s: Sys)
    requires WellFormed(s) && Busy(s) && s.engine.state.Connecting?
    ensures var r := Step(s, SessionOpened, OPEN);
      && Busy(r) && r.engine == s.engine.(state := Connected) && r.queue == s.queue
      && Sent(r) == Sent(s) && !Stalled(r.items[r.engine.cur.value])
  {
    hide Around, Counted, Logged;
    StartCurrent(s, OPEN);
  }

  lemma RunCons(s: Sys, e: Event, env: Env, run: seq<Action>)
    requires WellFormed(s) && Enabled(s, e) && Legal(Step(s, e, env), run)
    ensures Legal(s, [Action(e, env)] + run)
    ensures Run(s, [Action(e, env)] + run) == Run(Step(s, e, env), run)
  {
    hide Step, Enabled;
    var longer := [Action(e, env)] + run;
    assert longer[1..] == run;
  }

  // A batch whose current item has not stalled can be brought to its end by opening the session and
  // by replies alone, and then everything that was left has been sent.
  lemma {:induction false} CanFinish(s: Sys) returns (run: seq<Action>)
    requires WellFormed(s) && Busy(s) && !Stalled(s.items[s.engine.cur.value])
    ensures Legal(s, run)
    ensures forall i :: 0 <= i < |run| ==> run[i].event.SessionOpened? || run[i].event.ReplyFinished?
    ensures var r := Run(s, run);
      Over(r) && Sent(r) == Sent(s) + 1 + |s.queue.ids| && r.engine.error == s.engine.error
    decreases |s.queue.ids|, if s.engine.state.Connecting? then 1 else 0
  {
    hide Step, Over, Frame, Sent, Stalled, Live;
    var c := s.engine.cur.value;
    var e: Event;
    var rest: seq<Action> := [];
    if s.engine.state.Connecting? {
      e := SessionOpened;
      OpenCurrent(s);
      rest := CanFinish(Step(s, e, OPEN));
    } else {
      e := ReplyFinished(c);
      SendCurrent(s);
      if s.queue.ids != [] { rest := CanFinish(Step(s, e, OPEN)); }
    }
    run := [Action(e, OPEN)] + rest;
    RunCons(s, e, OPEN, rest);
  }

  // Nobody cancels, no session is lost and no file is added.
  ghost predicate Undisturbed(run: seq<Action>) {
    forall i :: 0 <= i < |run| ==>
      && !run[i].event.CancelAll? && !run[i].event.SessionDisconnected? && !run[i].event.NetworkError?
      && !run[i].event.Enqueue?
  }

  lemma NotOver(s: Sys)
    requires Reachable(s) && s.queue.notified
    ensures Busy(s) && s.log.verdicts == []
  {
    ReachableInv(s);
  }

  lemma RepliesDisturbNobody(run: seq<Action>)
    requires forall i :: 0 <= i < |run| ==> run[i].event.SessionOpened? || run[i].event.ReplyFinished?
    ensures Undisturbed(run)
  {
  }

  lemma {:induction false} StallBlocks(s: Sys, run: seq<Action>)
    requires Reachable(s) && WellFormed(s) && s.queue.notified
    requires s.engine.cur.Some? && Stalled(s.items[s.engine.cur.value])
    requires Legal(s, run) && Undisturbed(run)
    ensures Run(s, run).log.verdicts == []
    decreases |run|
  {
    hide Step, Reachable, Stalled;
    if run == [] {
      NotOver(s);
    } else {
      var e, env := run[0].event, run[0].env;
      StallPersists(s, e, env);
      ReachableStep(s, e, env);
      StallBlocks(Step(s, e, env), run[1..]);
    }
  }

  // Left undisturbed, a batch under way can still end exactly if its current item has not stalled.
  lemma CanFinishIff(s: Sys)
    requires Reachable(s) && WellFormed(s) && s.queue.notified
    ensures s.engine.cur.Some?
    ensures !Stalled(s.items[s.engine.cur.value]) <==>
      exists run :: Undisturbed(run) && Legal(s, run) && Run(s, run).log.verdicts != []
  {
    hide Reachable, Stalled, Run, Legal, Undisturbed;
    NotOver(s);
    if Stalled(s.items[s.engine.cur.value]) {
      forall run | Undisturbed(run) && Legal(s, run) ensures Run(s, run).log.verdicts == [] {
        StallBlocks(s, run);
      }
    } else {
      var run := CanFinish(s);
      assert Undisturbed(run) by { RepliesDisturbNobody(run); }
      assert Legal(s, run) && Run(s, run).log.verdicts != [];
    }
  }
}
