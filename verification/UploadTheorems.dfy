/**
 Safety and progress of the upload pipeline over whole runs: every sequence of enabled events, with
 any answers from the environment.
 */
module UploadTheorems {
  import opened Basics
  import opened UploadModel
  import opened UploadInvariant
  import opened UploadSteps

  lemma {:induction false} RunKeepsInv(s: Sys, run: seq<Action>)
    requires WellFormed(s) && Inv(s) && Legal(s, run)
    ensures Inv(Run(s, run))
    decreases |run|
  {
    hide Step;
    if run == [] {
    } else {
      StepEffect(s, run[0].event, run[0].env);
      RunKeepsInv(Step(s, run[0].event, run[0].env), run[1..]);
    }
  }

  ghost predicate Reachable(s: Sys) {
    exists total: nat, run :: Legal(Start(total), run) && Run(Start(total), run) == s
  }

  lemma StartInv(total: nat)
    ensures WellFormed(Start(total)) && Inv(Start(total))
  {
  }

  lemma StartReachable(total: nat)
    ensures Reachable(Start(total))
  {
    assert Legal(Start(total), []) && Run(Start(total), []) == Start(total);
  }

  lemma ReachableInv(s: Sys)
    requires Reachable(s)
    ensures Inv(s)
  {
    hide Step, Inv;
    var total: nat, run :| Legal(Start(total), run) && Run(Start(total), run) == s;
    StartInv(total);
    RunKeepsInv(Start(total), run);
  }

  lemma {:induction false} RunSnoc(s: Sys, run: seq<Action>, e: Event, env: Env)
    requires WellFormed(s) && Legal(s, run) && Enabled(Run(s, run), e)
    ensures Legal(s, run + [Action(e, env)]) && Run(s, run + [Action(e, env)]) == Step(Run(s, run), e, env)
    decreases |run|
  {
    hide Step, Enabled;
    var longer := run + [Action(e, env)];
    if run == [] {
      assert longer[1..] == [];
    } else {
      RunSnoc(Step(s, run[0].event, run[0].env), run[1..], e, env);
      assert longer[0] == run[0] && longer[1..] == run[1..] + [Action(e, env)];
    }
  }

  lemma ReachableStep(s: Sys, e: Event, env: Env)
    requires Reachable(s) && WellFormed(s) && Enabled(s, e)
    ensures Reachable(Step(s, e, env))
  {
    hide Step, Enabled;
    var total: nat, run :| Legal(Start(total), run) && Run(Start(total), run) == s;
    RunSnoc(Start(total), run, e, env);
  }

  /* ---- coupling ---- */

  // Between events, the queue considers itself notified exactly while the engine connects or is
  // connected; then one item is handed out, and it is waiting for the session, being sent, or
  // stalled because its request could not be created.  The connection timer of an item being sent
  // runs exactly until the first progress.
  lemma Coupling(s: Sys)
    requires Reachable(s)
    ensures s.queue.notified <==> s.engine.state.Connecting? || s.engine.state.Connected?
    ensures s.queue.notified ==>
      (&& s.engine.cur.Some? && s.engine.cur.value < |s.items|
       && var it := s.items[s.engine.cur.value];
       && (s.engine.state.Connecting? ==> it.status.Waiting? && it.http.None?)
       && (s.engine.state.Connected? ==> it.http.Some? && it.wired)
       && (s.engine.state.Connected? && it.status.Sending? ==>
             && it.http.value.reply && it.http.value.net.Active?
             && it.http.value.state == if it.http.value.timer then ClientConnecting else ClientSending)
       && (s.engine.state.Connected? && !it.status.Sending? ==> Stalled(it)))
    ensures !s.queue.notified ==>
      (s.queue.ids == [] && (s.engine.state.NoConnection? || s.engine.state.Closing?))
  {
    ReachableInv(s);
  }

  /* ---- conservation ---- */

  lemma {:induction false} CountAll(items: seq<Item>, n: nat)
    requires n <= |items|
    ensures CountStatus(items, n, Waiting) + CountStatus(items, n, Sending) + CountStatus(items, n, Error)
          + CountStatus(items, n, Finished) + CountStatus(items, n, Cancelled) == n
  {
    if n == 0 {
    } else {
      CountAll(items, n - 1);
    }
  }

  lemma {:induction false} CountNone(items: seq<Item>, n: nat, status: ItemStatus)
    requires n <= |items|
    requires forall i :: 0 <= i < n ==> items[i].status != status
    ensures CountStatus(items, n, status) == 0
  {
    if n == 0 {
    } else {
      CountNone(items, n - 1, status);
    }
  }

  lemma {:induction false} CountTail(items: seq<Item>, m: nat, n: nat, status: ItemStatus)
    requires m <= n <= |items|
    requires forall i :: m <= i < n ==> items[i].status != status
    ensures CountStatus(items, n, status) == CountStatus(items, m, status)
  {
    if m == n {
    } else {
      CountTail(items, m, n - 1, status);
    }
  }

  // While a batch is under way, every file handed in is sent, failed, queued, or the one in flight.
  lemma ConservationUnderWay(s: Sys)
    requires Reachable(s) && s.queue.notified
    ensures s.engine.cur.Some? && s.engine.cur.value < |s.items|
    ensures s.queue.nbrOfItems == |s.items|
         == s.engine.sentFiles + CountStatus(s.items, s.engine.cur.value, Error) + |s.queue.ids| + 1
  {
    ReachableInv(s);
    var c := s.engine.cur.value;
    CountAll(s.items, c);
    CountNone(s.items, c, Waiting);
    CountNone(s.items, c, Sending);
    CountNone(s.items, c, Cancelled);
  }

  lemma AtEnd(s: Sys)
    requires Over(s)
    ensures forall i :: 0 <= i < |s.items| ==>
      !s.items[i].status.Sending? && (i > s.engine.cur.value ==> s.items[i].status.Waiting?)
    ensures forall i :: 0 <= i < |s.items| && s.items[i].status.Waiting? ==> i > s.engine.cur.value
  {
  }

  // What finished() announces: the total is every file handed in, and it splits into those sent,
  // failed, cancelled and dropped unstarted.
  lemma ConservationAtEnd(s: Sys)
    requires Reachable(s) && s.log.verdicts != []
    ensures var n := |s.items|;
      && |s.log.verdicts| == 1
      && var v := s.log.verdicts[0];
      && v.total == n == v.sent + CountStatus(s.items, n, Error) + CountStatus(s.items, n, Cancelled)
                       + CountStatus(s.items, n, Waiting)
      && v.sent == CountStatus(s.items, n, Finished) <= v.total
      && (forall i :: 0 <= i < n && s.items[i].status.Waiting? ==> i !in s.log.started)
  {
    hide Done, RemovedExact;
    ReachableInv(s);
    AtEnd(s);
    var n, c := |s.items|, s.engine.cur.value;
    CountAll(s.items, n);
    CountNone(s.items, n, Sending);
    CountTail(s.items, c + 1, n, Finished);
  }

  // finished() is emitted at most once, with the engine's error, when the queue has become silent.
  lemma OneVerdict(s: Sys)
    requires Reachable(s) && s.log.verdicts != []
    ensures |s.log.verdicts| == 1 && s.log.verdicts[0].error == s.engine.error && !s.queue.notified
  {
    hide Around, Counted, Logged;
    ReachableInv(s);
  }

  /* ---- exactly-once completion, order ---- */

  lemma RangeMembers(q: seq<nat>, n: nat)
    requires IsRange(q, 0, n)
    ensures forall i: nat :: i in q <==> i < n
  {
    forall i: nat | i < n ensures i in q { assert q[i] == i; }
  }

  // Items are started in the order they were handed in, each once; each reports at most once, in
  // the same order, and exactly when it is done; at most one item is started and not done.
  lemma FifoExactlyOnce(s: Sys)
    requires Reachable(s)
    ensures IsRange(s.log.started, 0, |s.log.started|) && |s.log.started| <= |s.items|
    ensures IsRange(s.log.completed, 0, |s.log.completed|)
    ensures forall i: nat :: i < |s.items| ==> (i in s.log.completed <==> Done(s.items[i]))
    ensures |s.log.started| <= |s.log.completed| + 1
    ensures s.log.verdicts != [] ==> |s.log.started| <= |s.log.completed|
  {
    hide Counted, RemovedExact;
    ReachableInv(s);
    if !Idle(s) {
      var c := s.engine.cur.value;
      RangeMembers(s.log.completed, |s.log.completed|);
      assert forall i: nat :: i < |s.items| && i > c ==> Pristine(s.items[i]);
    }
  }

  // What one event leaves of the past: done items stay done as they are, and files stay removed.
  ghost predicate Remembers(s: Sys, r: Sys) {
    && |s.items| <= |r.items|
    && (forall i :: 0 <= i < |s.items| ==> r.items[i].file == s.items[i].file)
    && (forall i :: 0 <= i < |s.items| && Done(s.items[i]) ==>
          && Done(r.items[i]) && r.items[i].status == s.items[i].status
          && (i in r.log.removed <==> i in s.log.removed))
    && (Over(s) ==> Over(r) && r.log.verdicts == s.log.verdicts && r.log.started == s.log.started
                    && r.log.removed == s.log.removed)
  }

  lemma DoneIsNotCurrent(s: Sys, i: nat)
    requires Busy(s) && i < |s.items| && Done(s.items[i])
    ensures i < s.engine.cur.value
  {
    hide Counted, Logged, IsRange;
  }

  lemma OutcomeIsUnderWay(s: Sys, e: Event)
    requires Inv(s) && Outcome(s, e).Some?
    ensures Busy(s) && !Over(s)
  {
    hide Around, Counted, Logged;
  }

  lemma StepRemembers(s: Sys, e: Event, env: Env)
    requires WellFormed(s) && Inv(s) && Enabled(s, e)
    ensures Remembers(s, Step(s, e, env))
  {
    hide Step, Inv, Busy, Over, Done, ErrorsAfter, SameTexts, Outcome;
    StepEffect(s, e, env);
    if Outcome(s, e).Some? {
      OutcomeIsUnderWay(s, e);
      forall i | 0 <= i < |s.items| && Done(s.items[i])
        ensures i < s.engine.cur.value
      {
        DoneIsNotCurrent(s, i);
      }
    }
  }

  lemma {:induction false} RunRemembers(s: Sys, run: seq<Action>)
    requires WellFormed(s) && Inv(s) && Legal(s, run)
    ensures Remembers(s, Run(s, run))
    decreases |run|
  {
    hide Step, Inv, Over, Done;
    if run == [] {
    } else {
      var r := Step(s, run[0].event, run[0].env);
      StepEffect(s, run[0].event, run[0].env);
      EffectInv(s, run[0].event, r);
      StepRemembers(s, run[0].event, run[0].env);
      RunRemembers(r, run[1..]);
    }
  }

  /* ---- no report is lost ---- */

  // An item that has ended in any other way than a finished reply never has its file removed.
  lemma KeptForever(s: Sys, k: nat, run: seq<Action>)
    requires WellFormed(s) && Inv(s) && Legal(s, run)
    requires k < |s.items| && Done(s.items[k]) && k !in s.log.removed
    ensures k !in Run(s, run).log.removed
  {
    RunRemembers(s, run);
  }

  // Upload errors, timeouts, cancels and lost sessions keep the file of the item they hit, for good.
  lemma FailureKeepsFile(s: Sys, e: Event, env: Env, run: seq<Action>)
    requires Reachable(s) && WellFormed(s) && Enabled(s, e) && Legal(Step(s, e, env), run)
    requires s.queue.notified
    requires match e
             case ReplyError(k, _) => s.engine.cur == Some(k)
             case ConnectionTimeout(k) => s.engine.cur == Some(k)
             case CancelAll | SessionDisconnected | NetworkError(_) => true
             case _ => false
    ensures s.engine.cur.Some?
    ensures s.engine.cur.value !in Run(Step(s, e, env), run).log.removed
  {
    hide Step, Run, Around, Counted;
    ReachableInv(s);
    StepEffect(s, e, env);
    var r := Step(s, e, env);
    var c := s.engine.cur.value;
    EffectInv(s, e, r);
    KeptForever(r, c, run);
  }

  // Removal is asked for at most once for each file, and exactly for the items the server has taken.
  lemma RemovedOnce(s: Sys)
    requires Reachable(s)
    ensures Distinct(s.log.removed)
    ensures forall k: nat :: k in s.log.removed <==> k < |s.items| && Shipped(s.items[k])
    ensures forall k: nat :: k < |s.items| && Shipped(s.items[k]) ==> s.items[k].status.Finished?
  {
    hide Around, Counted;
    ReachableInv(s);
  }

  // The file of an item is removed by the finished signal of its running reply and by nothing else.
  lemma RemovedOnlyWhenReplyFinished(s: Sys, e: Event, env: Env)
    requires Reachable(s) && WellFormed(s) && Enabled(s, e)
    ensures var r := Step(s, e, env);
      if e.ReplyFinished? && s.queue.notified && s.engine.cur == Some(e.id)
      then r.log.removed == s.log.removed + [e.id] && s.items[e.id].status.Sending?
           && ClientOf(s, e.id).reply && ClientOf(s, e.id).net.Active?
      else r.log.removed == s.log.removed
  {
    hide Step, Around, Counted;
    ReachableInv(s);
    StepEffect(s, e, env);
  }

  /* ---- what the numbers mean: sent against removed ---- */

  ghost function Sent(s: Sys): nat {
    if s.log.verdicts == [] then s.engine.sentFiles else s.log.verdicts[0].sent
  }

  // A cancel or a lost session that hits a stalled item.
  ghost predicate HitsStalled(s: Sys, e: Event) {
    && (e.CancelAll? || e.SessionDisconnected? || e.NetworkError?)
    && UnderWay(s) && Stalled(s.items[s.engine.cur.value])
  }

  ghost function StalledHits(s: Sys, run: seq<Action>): nat
    requires WellFormed(s) && Legal(s, run)
    decreases |run|
  {
    if run == [] then 0
    else (if HitsStalled(s, run[0].event) then 1 else 0)
         + StalledHits(Step(s, run[0].event, run[0].env), run[1..])
  }

  lemma SettlesSent(s: Sys, r: Sys, status: ItemStatus)
    requires Busy(s) && |r.items| == |s.items| && Settles(s, r, status)
    ensures Sent(r) == Sent(s) + if status.Finished? then 1 else 0
  {
    CountSame(s.items, r.items, s.engine.cur.value, Finished);
  }

  lemma StepSent(s: Sys, e: Event, env: Env)
    requires WellFormed(s) && Inv(s) && Enabled(s, e)
    ensures var r := Step(s, e, env);
      Sent(r) - |r.log.removed| == Sent(s) - |s.log.removed| + if HitsStalled(s, e) then 1 else 0
  {
    hide Step, Around, Counted, Logged;
    StepEffect(s, e, env);
    if Outcome(s, e).Some? {
      var noted := Noted(s, e);
      FrameIgnores(s, noted.engine);
      SettlesSent(noted, Step(s, e, env), Outcome(s, e).value);
    }
  }

  // The number announced as sent exceeds the number of removed files by exactly the number of
  // cancels and lost sessions that hit an item whose request could not be created.
  lemma {:induction false} SentAgainstRemoved(s: Sys, run: seq<Action>)
    requires WellFormed(s) && Inv(s) && Legal(s, run)
    ensures var r := Run(s, run);
      Sent(r) - |r.log.removed| == Sent(s) - |s.log.removed| + StalledHits(s, run)
    decreases |run|
  {
    hide Step, Inv, HitsStalled;
    if run == [] {
    } else {
      StepEffect(s, run[0].event, run[0].env);
      EffectInv(s, run[0].event, Step(s, run[0].event, run[0].env));
      StepSent(s, run[0].event, run[0].env);
      SentAgainstRemoved(Step(s, run[0].event, run[0].env), run[1..]);
    }
  }
}
