/**
 The auto uploader feeds lists of files into the pipeline, each file once per session.
 */
module AutoUploader {
  import opened Basics
  import opened UploadModel
  import opened UploadInvariant
  import opened UploadSteps
  import opened UploadTheorems
  import opened UploadPipeline

  /* ---- the session-wide list of files, on values ---- */

  // One request: names not seen in the session are added, in their order.
  function Merge(added: seq<string>, request: seq<string>): (r: seq<string>)
    ensures added <= r
    decreases |request|
  {
    if request == [] then added
    else Merge(if request[0] in added then added else added + [request[0]], request[1..])
  }

  // All requests of a session.
  function MergeAll(requests: seq<seq<string>>): seq<string>
    decreases |requests|
  {
    if requests == [] then [] else Merge(MergeAll(requests[..|requests| - 1]), requests[|requests| - 1])
  }

  function Concat(requests: seq<seq<string>>): seq<string>
    decreases |requests|
  {
    if requests == [] then [] else Concat(requests[..|requests| - 1]) + requests[|requests| - 1]
  }

  // The names of a list, each at the place where it first occurs.
  function FirstOccurrences(s: seq<string>): seq<string>
    decreases |s|
  {
    if s == [] then []
    else
      var rest := FirstOccurrences(s[..|s| - 1]);
      if s[|s| - 1] in s[..|s| - 1] then rest else rest + [s[|s| - 1]]
  }

  lemma {:induction false} FirstOccurrencesMembers(s: seq<string>)
    ensures forall x :: x in FirstOccurrences(s) <==> x in s
    ensures Distinct(FirstOccurrences(s))
    decreases |s|
  {
    if s == [] {
    } else {
      var init, last := s[..|s| - 1], s[|s| - 1];
      FirstOccurrencesMembers(init);
      assert s == init + [last];
    }
  }

  lemma FirstOccurrencesSnoc(done: seq<string>, x: string)
    ensures var first := FirstOccurrences(done);
      FirstOccurrences(done + [x]) == if x in first then first else first + [x]
  {
    assert (done + [x])[..|done|] == done;
    FirstOccurrencesMembers(done);
  }

  lemma {:induction false} MergeExtends(done: seq<string>, request: seq<string>)
    ensures Merge(FirstOccurrences(done), request) == FirstOccurrences(done + request)
    decreases |request|
  {
    hide FirstOccurrences;
    if request == [] {
      assert done + request == done;
    } else {
      FirstOccurrencesSnoc(done, request[0]);
      MergeExtends(done + [request[0]], request[1..]);
      assert done + [request[0]] + request[1..] == done + request;
    }
  }

  // However the names are split into requests, the session holds each name once, in the order in
  // which it was first asked for.
  lemma {:induction false} SessionIsFirstOccurrences(requests: seq<seq<string>>)
    ensures MergeAll(requests) == FirstOccurrences(Concat(requests))
    decreases |requests|
  {
    if requests == [] {
    } else {
      var before := requests[..|requests| - 1];
      SessionIsFirstOccurrences(before);
      MergeExtends(Concat(before), requests[|requests| - 1]);
    }
  }

  /* ---- files of a batch ---- */

  ghost function Files(items: seq<Item>): (r: seq<string>)
    ensures |r| == |items|
    ensures forall i :: 0 <= i < |items| ==> r[i] == items[i].file
  {
    seq(|items|, i requires 0 <= i < |items| => items[i].file)
  }

  ghost predicate StartsInside(s: Sys) {
    forall i :: 0 <= i < |s.log.started| ==> s.log.started[i] < |s.items|
  }

  // The files whose upload has been started, in that order.
  ghost function StartedFiles(s: Sys): (r: seq<string>)
    requires StartsInside(s)
    ensures |r| == |s.log.started|
    ensures forall i :: 0 <= i < |r| ==> r[i] == s.items[s.log.started[i]].file
  {
    seq(|s.log.started|, i requires 0 <= i < |s.log.started| => s.items[s.log.started[i]].file)
  }

  // Within a batch they are the first ones handed in.
  lemma StartedIsPrefix(s: Sys)
    requires Reachable(s)
    ensures |s.log.started| <= |s.items| && StartsInside(s)
    ensures StartedFiles(s) == Files(s.items)[..|s.log.started|]
  {
    hide Reachable;
    FifoExactlyOnce(s);
  }

  lemma FileEnqueued(s: Sys, file: string, env: Env)
    requires Inv(s) && WellFormed(s) && s.log.verdicts == []
    ensures var r := Step(s, Enqueue(file), env);
      Files(r.items) == Files(s.items) + [file] && r.log.verdicts == []
  {
    hide QueueEnqueue, Around, Counted;
    EnqueueEffect(s, file, env);
  }

  lemma FilesKept(s: Sys, e: Event, env: Env)
    requires Inv(s) && WellFormed(s) && Enabled(s, e) && !e.Enqueue?
    ensures Files(Step(s, e, env).items) == Files(s.items)
    ensures Step(s, e, env).log.verdicts != [] ==>
      Step(s, e, env).queue.ids == [] && !Step(s, e, env).queue.notified
  {
    hide Step, Around, Counted, Logged;
    StepEffect(s, e, env);
    EffectInv(s, e, Step(s, e, env));
  }

  lemma FilesGrow(s: Sys, e: Event, env: Env)
    requires Reachable(s) && WellFormed(s) && Enabled(s, e)
    ensures Files(s.items) <= Files(Step(s, e, env).items)
  {
    hide Step, Reachable, Inv;
    ReachableInv(s);
    if e.Enqueue? { FileEnqueued(s, e.file, env); } else { FilesKept(s, e, env); }
  }

  lemma StartedGrow(s: Sys, e: Event, env: Env)
    requires Reachable(s) && WellFormed(s) && Enabled(s, e)
    ensures StartsInside(s) && StartsInside(Step(s, e, env))
    ensures StartedFiles(s) <= StartedFiles(Step(s, e, env))
  {
    hide Step, Reachable, StartsInside, Enabled, Grows;
    var r := Step(s, e, env);
    ReachableStep(s, e, env);
    StartedIsPrefix(s);
    StartedIsPrefix(r);
    FilesGrow(s, e, env);
    assert s.log.started <= r.log.started;
  }

  /* ---- the object ---- */

  class Uploader {
    const queue: UploadQueue
    var activated: bool
    var addedFiles: seq<string>
    var pipeline: Pipeline?                // the queue with the engine of the current batch
    ghost var accepted: seq<seq<string>>   // the requests that were not refused
    ghost var earlier: seq<string>         // files of the batches before
    ghost var startedBefore: seq<string>   // those of them whose upload was started
    ghost var Repr: set<object>

    // What also holds in the middle of a request.
    ghost predicate Consistent()
      reads this`activated, this`addedFiles, this`pipeline, this`earlier, this`startedBefore, this`Repr, Repr
      ensures Consistent() ==> this !in Repr
    {
      && this !in Repr && queue in Repr
      && Distinct(addedFiles) && Subsequence(startedBefore, earlier)
      && (if activated then
            && pipeline in Repr && pipeline.Repr <= Repr && pipeline.queue == queue
            && pipeline.Valid() && Reachable(pipeline.model) && pipeline.model.log.verdicts == []
            && addedFiles == earlier + Files(pipeline.model.items)
          else
            queue.uploadQueue == [] && !queue.notified && addedFiles == earlier)
    }

    ghost predicate Valid()
      reads this, Repr
    {
      Consistent() && addedFiles == MergeAll(accepted)
    }

    // All files of the session whose upload was started, in that order.
    ghost function Started(): seq<string>
      requires Consistent()
      reads this`activated, this`addedFiles, this`pipeline, this`earlier, this`startedBefore, this`Repr, Repr
    {
      if activated then
        StartedIsPrefix(pipeline.model);
        startedBefore + StartedFiles(pipeline.model)
      else startedBefore
    }

    // Over any sequence of requests and events: the session holds each accepted name once, in the
    // order in which it was first asked for, and the uploads started are some of these, in the same
    // order and each at most once.
    lemma SessionStarts()
      requires Valid()
      ensures addedFiles == FirstOccurrences(Concat(accepted))
      ensures Subsequence(Started(), addedFiles) && Distinct(Started())
    {
      hide Subsequence, Distinct, MergeAll, FirstOccurrences, Concat, Reachable;
      SessionIsFirstOccurrences(accepted);
      StartedAreAdded();
      SubsequenceDistinct(Started(), addedFiles);
    }

    lemma StartedAreAdded()
      requires Consistent()
      ensures Subsequence(Started(), addedFiles)
    {
      hide Subsequence, Distinct, Reachable;
      if activated {
        var s := pipeline.model;
        StartedIsPrefix(s);
        SubsequenceAppend(startedBefore, earlier, Files(s.items), |s.log.started|);
      }
    }

    constructor ()
      ensures Valid() && !activated && addedFiles == [] && accepted == [] && Started() == [] && fresh(Repr)
    {
      queue := new UploadQueue();
      activated, addedFiles, pipeline, accepted, earlier, startedBefore := false, [], null, [], [], [];
      Repr := {queue};
    }

    // A new engine for a new batch.
    method Activate()
      requires Consistent()
      modifies this
      ensures Consistent() && activated && fresh(Repr - old(Repr))
      ensures addedFiles == old(addedFiles) && accepted == old(accepted) && Started() == old(Started())
      ensures if old(activated) then pipeline == old(pipeline)
              else fresh(pipeline) && pipeline.model == Start(queue.nbrOfItems)
    {
      hide Pipeline.Valid, Reachable, Subsequence;
      if !activated {
        pipeline := new Pipeline(queue);
        Repr := Repr + {pipeline} + pipeline.Repr;
        assert Files(pipeline.model.items) == [];
        assert StartedFiles(pipeline.model) == [];
        activated := true;
      }
    }

    // One new name goes into the queue and on the list.
    method Add(filename: string, env: Env)
      requires Consistent() && activated && filename !in addedFiles
      modifies this, Repr
      ensures Consistent() && activated && fresh(Repr - old(Repr))
      ensures addedFiles == old(addedFiles) + [filename] && accepted == old(accepted)
      ensures pipeline == old(pipeline) && old(Started()) <= Started()
      ensures Enabled(old(pipeline.model), Enqueue(filename))
      ensures pipeline.model == Step(old(pipeline.model), Enqueue(filename), env)
    {
      hide Pipeline.Valid, Inv, Effect, Step, QueueEnqueue, Reachable, Subsequence;
      ReachableInv(pipeline.model);
      FileEnqueued(pipeline.model, filename, env);
      StartedGrow(pipeline.model, Enqueue(filename), env);
      pipeline.Deliver(Enqueue(filename), env);
      Repr := Repr + pipeline.Repr;
      addedFiles := addedFiles + [filename];
    }

    // The environment during a request is one answer per file.
    method UploadFiles(fileList: seq<string>, obeyRestrictions: bool, networkUsable: bool, savePower: bool,
                       envs: seq<Env>) returns (ok: bool)
      requires Valid() && |envs| == |fileList|
      modifies this, Repr
      ensures Valid() && fresh(Repr - old(Repr)) && old(Started()) <= Started()
      ensures ok <==> fileList != [] && !(obeyRestrictions && (!networkUsable || savePower))
      ensures accepted == if ok then old(accepted) + [fileList] else old(accepted)
      ensures activated == (old(activated) || fileList != [])
    {
      hide Uploader.Consistent, MergeAll, Uploader.Started;
      if fileList == [] { return false; }
      Activate();
      if obeyRestrictions && !networkUsable { return false; }
      if obeyRestrictions && savePower { return false; }
      for i := 0 to |fileList|
        invariant Consistent() && activated && fresh(Repr - old(Repr)) && old(Started()) <= Started()
        invariant accepted == old(accepted)
        invariant Merge(addedFiles, fileList[i..]) == Merge(old(addedFiles), fileList)
      {
        if fileList[i] !in addedFiles { Add(fileList[i], envs[i]); }
        assert fileList[i..][1..] == fileList[i + 1..];
      }
      Accept(fileList);
      ok := true;
    }

    // Only the list of accepted requests grows.
    ghost method Accept(fileList: seq<string>)
      requires Consistent() && addedFiles == Merge(MergeAll(accepted), fileList)
      modifies this`accepted
      ensures Valid() && accepted == old(accepted) + [fileList] && Started() == old(Started())
    {
      hide Uploader.Consistent, Uploader.Started, Merge;
      assert (accepted + [fileList])[..|accepted|] == accepted;
      accepted := accepted + [fileList];
    }

    // Any other event of the environment; finished() makes the uploader forget the engine.
    method Deliver(e: Event, env: Env)
      requires Valid() && activated && !e.Enqueue? && Enabled(pipeline.model, e)
      modifies this, Repr
      ensures Valid() && fresh(Repr - old(Repr)) && old(Started()) <= Started()
      ensures addedFiles == old(addedFiles) && accepted == old(accepted)
      ensures pipeline == old(pipeline) && (activated <==> pipeline.finishedSignals == [])
      ensures pipeline.model == Step(old(pipeline.model), e, env)
    {
      hide Inv, Effect, Step, Enabled, Reachable, Subsequence, MergeAll, Pipeline.Valid;
      ReachableInv(pipeline.model);
      FilesKept(pipeline.model, e, env);
      StartedGrow(pipeline.model, e, env);
      ReachableStep(pipeline.model, e, env);
      StartedIsPrefix(Step(pipeline.model, e, env));
      ghost var started := startedBefore + StartedFiles(Step(pipeline.model, e, env));
      SubsequenceAppend(startedBefore, earlier, Files(Step(pipeline.model, e, env).items),
                        |Step(pipeline.model, e, env).log.started|);
      pipeline.Deliver(e, env);
      Repr := Repr + pipeline.Repr;
      if pipeline.finishedSignals != [] {
        activated := false;
        earlier := addedFiles;
        startedBefore := started;
      }
    }
  }
}
