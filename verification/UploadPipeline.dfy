/**
 The four objects of the upload pipeline, with the fields their methods update in place.

 `Pipeline` wires them together and stands for the outside world: the files given to removeFile(),
 and the finished() signals sent.  Its ghost `model` is tied to all real fields by `Valid()`, and
 each method below changes it by the function of the same name in `UploadModel`.
 */
module UploadPipeline {
  import opened Basics
  import opened UploadModel
  import opened UploadInvariant
  import opened UploadSteps
  import opened UploadTheorems

  class Pipeline {
    const queue: UploadQueue
    const engine: UploadEngine
    var items: seq<UploadItem>           // every item of the batch; the queue is their parent
    var removals: seq<string>            // the files given to removeFile(), whether or not that succeeds
    var finishedSignals: seq<Verdict>
    ghost var model: Sys
    ghost var Repr: set<object>

    // Everything the pipeline owns.
    ghost predicate Owns()
      reads this, Repr
    {
      && queue in Repr && engine in Repr && this !in Repr
      && (forall i :: 0 <= i < |items| ==> items[i] in Repr)
      && (forall i :: 0 <= i < |items| && items[i].http != null ==> items[i].http in Repr)
    }

    // The model's items are the objects, in order, and no two objects share a client.
    ghost predicate ItemsCoupled()
      requires Owns()
      reads this, Repr
    {
      && |items| == |model.items|
      && (forall i :: 0 <= i < |items| ==> items[i].id == i)
      && (forall i :: 0 <= i < |items| && items[i].http != null ==> items[i].http.owner == items[i])
      && (forall i :: 0 <= i < |items| ==> items[i].View() == model.items[i])
    }

    ghost predicate Holds(item: UploadItem)
      reads this, Repr
    {
      item in Repr && item.id < |items| && items[item.id] == item
    }

    // The queue holds items that have not been started, each once.
    ghost predicate QueueCoupled()
      requires Owns()
      reads this, Repr
    {
      var q := queue.uploadQueue;
      && |q| == |model.queue.ids|
      && (forall j :: 0 <= j < |q| ==> Holds(q[j]) && q[j].id == model.queue.ids[j] && q[j].http == null)
      && (forall i, j :: 0 <= i < j < |q| ==> q[i] != q[j])
      && queue.notified == model.queue.notified && queue.nbrOfItems == model.queue.nbrOfItems
    }

    // An engine that connects has a current item that has not been started.
    ghost predicate EngineCoupled()
      requires Owns()
      reads this, Repr
    {
      && engine.View() == model.engine
      && (engine.currentItem != null ==> Holds(engine.currentItem))
      && (engine.state.Connecting? || engine.state.Connected? ==> engine.currentItem != null)
      && (engine.state.Connecting? ==>
            engine.currentItem.http == null && engine.currentItem !in queue.uploadQueue)
    }

    ghost predicate WorldCoupled()
      reads this, Repr
    {
      && finishedSignals == model.log.verdicts
      && |removals| == |model.log.removed|
      && (forall j :: 0 <= j < |removals| ==>
            model.log.removed[j] < |items| && removals[j] == items[model.log.removed[j]].file)
    }

    ghost predicate Valid()
      reads this, Repr
      ensures Valid() ==> WellFormed(model) && |items| == |model.items|
      ensures Valid() ==> this !in Repr && queue in Repr && engine in Repr && model.engine == engine.View()
      ensures Valid() ==>
        && model.queue.notified == queue.notified && model.queue.nbrOfItems == queue.nbrOfItems
        && |model.queue.ids| == |queue.uploadQueue|
    {
      Owns() && ItemsCoupled() && QueueCoupled() && EngineCoupled() && WorldCoupled()
    }

    // A new engine on a queue that has run empty.
    constructor (queue: UploadQueue)
      requires queue.uploadQueue == [] && !queue.notified
      ensures Valid() && model == Start(queue.nbrOfItems) && fresh(Repr - {queue}) && this.queue == queue
      ensures Reachable(model)
    {
      StartReachable(queue.nbrOfItems);
      this.queue := queue;
      engine := new UploadEngine();
      items, removals, finishedSignals := [], [], [];
      model := Start(queue.nbrOfItems);
      new;
      Repr := {queue, engine};
    }

    // What every slot leaves alone: the list of items, and the client of an item that has one.
    twostate predicate After()
      reads this, Repr
    {
      && items == old(items) && old(Repr) <= Repr && fresh(Repr - old(Repr))
      && (forall item: UploadItem :: item in old(Repr) && old(item.http) != null ==>
            item.http == old(item.http))
    }

    // Nothing but the fields of o has changed in the pipeline.
    twostate predicate OnlyTouched(o: object)
      reads this, Repr
    {
      && items == old(items) && Repr == old(Repr)
      && removals == old(removals) && finishedSignals == old(finishedSignals)
      && (forall x :: x in old(Repr) && x != o ==> unchanged(x))
    }

    twostate lemma ClientTouched(c: HttpClient)
      requires old(Valid()) && old(Holds(c.owner)) && old(c.owner.http) == c && OnlyTouched(c)
      requires model == PutClient(old(model), c.owner.id, c.View())
      ensures Valid() && After()
    {
      assert forall i :: 0 <= i < |items| ==> unchanged(items[i]);
      assert Owns();
      assert forall i :: 0 <= i < |items| && i != c.owner.id ==> items[i].View() == old(items[i].View());
    }

    twostate lemma ItemTouched(item: UploadItem)
      requires old(Valid()) && old(Holds(item)) && OnlyTouched(item) && item.http == old(item.http)
      requires model == PutItem(old(model), item.id, item.View())
      ensures Valid() && After()
    {
      assert forall i :: 0 <= i < |items| && i != item.id ==> unchanged(items[i]);
      assert Owns();
      assert forall i :: 0 <= i < |items| && i != item.id ==> items[i].View() == old(items[i].View());
    }

    // An item that is neither queued nor awaited gets its client.
    twostate lemma ItemStarted(item: UploadItem, new client: HttpClient)
      requires old(Valid()) && old(Holds(item)) && old(item.http) == null
      requires old(item !in queue.uploadQueue && !engine.state.Connecting?)
      requires items == old(items) && fresh(client) && Repr == old(Repr) + {client}
      requires removals == old(removals) && finishedSignals == old(finishedSignals)
      requires forall x :: x in old(Repr) && x != item ==> unchanged(x)
      requires item.http == client && client.owner == item
      requires model == PutItem(old(model), item.id, item.View()).(
        log := old(model).log.(started := old(model).log.started + [item.id]))
      ensures Valid() && After()
    {
      assert forall i :: 0 <= i < |items| && i != item.id ==> unchanged(items[i]);
      assert Owns();
      assert forall i :: 0 <= i < |items| && i != item.id ==> items[i].View() == old(items[i].View());
      assert forall j :: 0 <= j < |queue.uploadQueue| ==> queue.uploadQueue[j] != item;
    }

    twostate lemma EngineTouched()
      requires old(Valid()) && OnlyTouched(engine)
      requires model == old(model).(engine := engine.View())
      requires engine.currentItem != null ==> Holds(engine.currentItem)
      requires engine.state.Connecting? || engine.state.Connected? ==> engine.currentItem != null
      requires engine.state.Connecting? ==>
        engine.currentItem.http == null && engine.currentItem !in queue.uploadQueue
      ensures Valid() && After()
    {
      ItemsUntouched(engine);
    }

    // Only what the log says about starts, reports and verdicts has changed.
    twostate lemma LogTouched()
      requires old(Valid()) && items == old(items) && Repr == old(Repr) && removals == old(removals)
      requires forall x :: x in old(Repr) ==> unchanged(x)
      requires model == old(model).(log := model.log) && model.log.removed == old(model).log.removed
      requires finishedSignals == model.log.verdicts
      ensures Valid() && After()
    {
      ItemsUntouched(queue);
    }

    // The queue may only shrink here.
    twostate lemma QueueTouched(n: nat)
      requires old(Valid()) && OnlyTouched(queue) && n <= |old(queue.uploadQueue)|
      requires queue.uploadQueue == old(queue.uploadQueue)[n..]
      requires model == old(model).(queue := Queue(
        old(model).queue.ids[n..], queue.notified, queue.nbrOfItems))
      ensures Valid() && After()
    {
      ItemsUntouched(queue);
      assert forall x :: x in queue.uploadQueue ==> x in old(queue.uploadQueue);
    }

    // A new item has become the last one, of the pipeline and of the queue.
    twostate predicate Appended(new item: UploadItem)
      reads this, Repr, queue, item, item.http
    {
      && fresh(item) && item.id == |old(items)| && item.View() == NewItem(item.file) && item.http == null
      && items == old(items) + [item] && Repr == old(Repr) + {item}
      && removals == old(removals) && finishedSignals == old(finishedSignals)
      && queue.uploadQueue == old(queue.uploadQueue) + [item]
      && queue.notified == old(queue.notified) && queue.nbrOfItems == old(queue.nbrOfItems)
      && (forall x :: x in old(Repr) && x != queue ==> unchanged(x))
      && model == old(model).(
           items := old(model).items + [NewItem(item.file)],
           queue := old(model).queue.(ids := old(model).queue.ids + [item.id]))
    }

    twostate lemma ItemsAppended(new item: UploadItem)
      requires old(Valid()) && Appended(item)
      ensures Owns() && ItemsCoupled() && (forall i :: 0 <= i < |old(items)| ==> unchanged(old(items)[i]))
    {
      assert forall i :: 0 <= i < |old(items)| ==> unchanged(old(items)[i]);
      assert forall i :: 0 <= i < |old(items)| ==> items[i].View() == old(items[i].View());
    }

    twostate lemma QueueAppended(new item: UploadItem)
      requires old(Valid()) && Appended(item)
      ensures Valid()
    {
      hide ItemsCoupled;
      ItemsAppended(item);
      assert forall x :: x in old(queue.uploadQueue) ==> x in old(items) && unchanged(x);
    }

    twostate lemma ItemsUntouched(o: object)
      requires old(Valid()) && items == old(items) && Repr == old(Repr) && (o == queue || o == engine)
      requires forall x :: x in old(Repr) && x != o ==> unchanged(x)
      requires model.items == old(model).items
      ensures Owns() && ItemsCoupled() && After()
      ensures forall i :: 0 <= i < |items| ==> unchanged(items[i])
    {
      assert forall i :: 0 <= i < |items| ==> unchanged(items[i]);
      assert forall i :: 0 <= i < |items| ==> items[i].View() == old(items[i].View());
    }

    lemma ClientAttached(k: nat)
      requires Valid() && HasClient(model, k)
      ensures items[k].id == k && items[k].http != null && items[k].http.owner == items[k]
      ensures items[k].http.Attached(this) && ClientOf(model, k) == items[k].http.View()
    {
    }

    // The environment delivers one event; everything connected to it runs before this returns.
    method Deliver(e: Event, env: Env)
      requires Valid() && Reachable(model) && Enabled(model, e)
      modifies this, Repr
      ensures Valid() && fresh(Repr - old(Repr))
      ensures model == Step(old(model), e, env) && Reachable(model)
      ensures finishedSignals == model.log.verdicts
    {
      hide Owns, ItemsCoupled, QueueCoupled, EngineCoupled, WellFormed, Grows,
        UploadModel.HandleError, UploadModel.HandleFinished, ClientCancel, QueueEnqueue,
        EngineSessionOpened, EngineSessionDisconnected, EngineConnectionError, EngineCancelAll,
        UploadModel.HandleUploadProgress, Reachable;
      ReachableStep(model, e, env);
      match e {
        case Enqueue(file) => queue.Enqueue(this, file, env);
        case SessionOpened => engine.SessionOpened(this, env);
        case SessionDisconnected => engine.SessionDisconnected(this, env);
        case NetworkError(message) => engine.ConnectionError(this, message, env);
        case CancelAll => engine.CancelAll(this, env);
        case ReplyError(k, message) =>
          ClientAttached(k);
          items[k].http.ReplySignals(this, Failed);
          items[k].http.HandleError(this, message, env);
        case ReplyFinished(k) =>
          ClientAttached(k);
          items[k].http.ReplySignals(this, Closed);
          items[k].http.HandleFinished(this, env);
        case UploadProgress(k) =>
          ClientAttached(k);
          items[k].http.HandleUploadProgress(this);
        case ConnectionTimeout(k) =>
          ClientAttached(k);
          items[k].http.Cancel(this, env);
      }
    }

    // CReporterUtils::removeFile(), whose result nobody looks at
    method RemoveFile(item: UploadItem)
      requires item.In(this)
      modifies this
      ensures item.In(this) && After() && Repr == old(Repr)
      ensures model == old(model).(log := old(model).log.(removed := old(model).log.removed + [item.id]))
    {
      removals := removals + [item.file];
      model := model.(log := model.log.(removed := model.log.removed + [item.id]));
    }

    ghost function Views(): (views: seq<Item>)
      requires Valid()
      reads this, Repr
      ensures views == model.items
    {
      seq(|items|, i requires Owns() && 0 <= i < |items| reads this, Repr => items[i].View())
    }

    // What is proved of the transition system, told by the fields of the objects, after any events.
    lemma Promises()
      requires Valid() && Reachable(model)
      ensures queue.notified <==> engine.state.Connecting? || engine.state.Connected?
      ensures if queue.notified then
          && engine.currentItem != null && engine.currentItem.id < |items|
          && queue.nbrOfItems == |items| == engine.sentFiles + CountStatus(Views(), engine.currentItem.id, Error)
                                            + |queue.uploadQueue| + 1
        else
          queue.uploadQueue == []
      ensures finishedSignals != [] ==>
        && |finishedSignals| == 1 && finishedSignals[0].error == engine.error && !queue.notified
        && finishedSignals[0].total == |items|
        && finishedSignals[0].sent == CountStatus(Views(), |items|, Finished)
    {
      hide Reachable, Done, Over, Busy, Idle, IsRange, Shipped, Stalled;
      Coupling(model);
      if queue.notified { ConservationUnderWay(model); }
      if finishedSignals != [] {
        OneVerdict(model);
        ConservationAtEnd(model);
      }
    }

    // Removal is asked for only for files of finished items.
    lemma RemovedAreFinished(j: nat)
      requires Valid() && Reachable(model) && j < |removals|
      ensures exists i :: 0 <= i < |items| && removals[j] == items[i].file && items[i].status.Finished?
    {
      hide Reachable, Shipped;
      RemovedOnce(model);
      var k := model.log.removed[j];
      assert k in model.log.removed;
      assert items[k].View() == model.items[k];
      assert items[k].status.Finished?;
    }
  }

  class HttpClient {
    const owner: UploadItem
    var state: ClientState
    var reply: bool        // whether the client holds its reply pointer
    var deleteFile: bool
    var timer: bool
    var net: NetState      // what the network reply itself has signalled

    constructor (owner: UploadItem)
      ensures this.owner == owner && View() == Client(ClientNone, false, false, false, NoReply)
    {
      this.owner := owner;
      state, reply, deleteFile, timer, net := ClientNone, false, false, false, NoReply;
    }

    ghost function View(): Client
      reads this
    {
      Client(state, reply, deleteFile, timer, net)
    }

    // Being the client of an item of the pipeline.
    ghost predicate Attached(p: Pipeline)
      reads p, p.Repr
      ensures Attached(p) ==> WellFormed(p.model) && owner.id < |p.model.items|
      ensures Attached(p) ==> p.model.items[owner.id].http == Some(View())
      ensures Attached(p) ==> this in p.Repr && owner.In(p)
    {
      owner.In(p) && owner.http == this
    }

    method InitSession()
      modifies this
      ensures View() == old(View()).(state := ClientInit, deleteFile := true)
    {
      deleteFile := true;
      state := ClientInit;
    }

    // Only a client in state Init sends a request.
    method Upload(env: Env) returns (created: bool)
      modifies this
      ensures created <==> old(state).ClientInit? && env.requestCreated
      ensures View() == if created then Client(ClientConnecting, true, old(deleteFile), true, Active) else old(View())
    {
      if !state.ClientInit? { return false; }
      if !env.requestCreated { return false; }
      reply, net := true, Active;
      timer := true;
      state := ClientConnecting;
      created := true;
    }

    method HandleError(p: Pipeline, message: string, env: Env)
      requires Attached(p)
      modifies p, p.Repr
      ensures Attached(p) && p.After()
      ensures p.model == UploadModel.HandleError(old(p.model), owner.id, message, env)
    {
      hide ItemUploadError, Pipeline.Valid, Pipeline.Owns;
      if reply && net.Failed? {
        reply := false;
        p.model := PutClient(p.model, owner.id, View());
        p.ClientTouched(this);
        if owner.wired { owner.UploadError(p, message, env); }
      }
    }

    method HandleFinished(p: Pipeline, env: Env)
      requires Attached(p)
      modifies p, p.Repr
      ensures Attached(p) && p.After()
      ensures p.model == UploadModel.HandleFinished(old(p.model), owner.id, env)
    {
      hide ItemEmitUploadFinished, Pipeline.Valid, Pipeline.Owns;
      if reply && deleteFile { p.RemoveFile(owner); }
      label L:
      timer := false;
      reply := false;
      state := ClientInit;
      p.model := PutClient(p.model, owner.id, View());
      p.ClientTouched@L(this);
      if owner.wired { owner.EmitUploadFinished(p, env); }
    }

    // The network reply changes by itself, just before it signals.
    method ReplySignals(p: Pipeline, net: NetState)
      requires Attached(p)
      modifies p, p.Repr
      ensures Attached(p) && p.After()
      ensures p.model == PutClient(old(p.model), owner.id, ClientOf(old(p.model), owner.id).(net := net))
    {
      hide Pipeline.Valid, Pipeline.Owns;
      this.net := net;
      p.model := PutClient(p.model, owner.id, View());
      p.ClientTouched(this);
    }

    method StateChange(p: Pipeline, nextState: ClientState)
      requires Attached(p)
      modifies p, p.Repr
      ensures Attached(p) && p.After()
      ensures p.model == PutClient(old(p.model), owner.id, ClientOf(old(p.model), owner.id).(state := nextState))
    {
      hide Pipeline.Valid, Pipeline.Owns;
      state := nextState;
      p.model := PutClient(p.model, owner.id, View());
      p.ClientTouched(this);
    }

    // QNetworkReply::abort()
    method Abort(p: Pipeline, env: Env)
      requires Attached(p)
      modifies p, p.Repr
      ensures Attached(p) && p.After()
      ensures p.model == UploadModel.Abort(old(p.model), owner.id, env)
    {
      hide UploadModel.HandleError, UploadModel.HandleFinished, WellFormed, Grows, Pipeline.Valid, Pipeline.Owns;
      if net.Active? {
        ReplySignals(p, Failed);
        HandleError(p, ABORT_MESSAGE, env);
        ReplySignals(p, Closed);
        HandleFinished(p, env);
      }
    }

    method ForgetReply(p: Pipeline)
      requires Attached(p)
      modifies p, p.Repr
      ensures Attached(p) && p.After()
      ensures p.model == PutClient(old(p.model), owner.id, ClientOf(old(p.model), owner.id).(reply := false))
    {
      hide Pipeline.Valid, Pipeline.Owns;
      reply := false;
      p.model := PutClient(p.model, owner.id, View());
      p.ClientTouched(this);
    }

    method Cancel(p: Pipeline, env: Env)
      requires Attached(p)
      modifies p, p.Repr
      ensures Attached(p) && p.After()
      ensures p.model == ClientCancel(old(p.model), owner.id, env)
    {
      hide UploadModel.Abort, UploadModel.HandleFinished, WellFormed, Grows, Pipeline.Valid, Pipeline.Owns;
      StateChange(p, ClientAborting);
      if reply {
        Abort(p, env);
        ForgetReply(p);
      }
      HandleFinished(p, env);
    }

    method HandleUploadProgress(p: Pipeline)
      requires Attached(p)
      modifies p, p.Repr
      ensures Attached(p) && p.After()
      ensures p.model == UploadModel.HandleUploadProgress(old(p.model), owner.id)
    {
      hide Pipeline.Valid, Pipeline.Owns;
      timer := false;
      if reply && !state.ClientSending? { state := ClientSending; }
      p.model := PutClient(p.model, owner.id, View());
      p.ClientTouched(this);
    }
  }

  class UploadItem {
    ghost const id: nat
    const file: string
    var status: ItemStatus
    var errorString: Option<string>
    var http: HttpClient?
    var wired: bool        // whether the item's slots are connected to its client

    constructor (file: string, ghost id: nat)
      ensures this.id == id && this.file == file && http == null && View() == NewItem(file)
    {
      this.id, this.file := id, file;
      status, errorString, http, wired := Waiting, None, null, false;
    }

    ghost function View(): Item
      reads this, http
    {
      Item(file, status, errorString, if http == null then None else Some(http.View()), wired)
    }

    ghost predicate In(p: Pipeline)
      reads p, p.Repr
      ensures In(p) ==> WellFormed(p.model) && id < |p.model.items| && p.model.items[id] == View()
    {
      p.Valid() && p.Holds(this)
    }

    method UploadError(p: Pipeline, message: string, env: Env)
      requires In(p)
      modifies p, p.Repr
      ensures In(p) && p.After()
      ensures p.model == ItemUploadError(old(p.model), id, message, env)
    {
      hide EngineUploadFinished, Pipeline.Valid, Pipeline.Owns;
      wired := false;
      errorString := Some(message);
      if !status.Cancelled? { status := Error; }
      p.model := PutItem(p.model, id, View());
      p.ItemTouched(this);
      p.engine.UploadFinished(p, this, env);
    }

    method EmitUploadFinished(p: Pipeline, env: Env)
      requires In(p)
      modifies p, p.Repr
      ensures In(p) && p.After()
      ensures p.model == ItemEmitUploadFinished(old(p.model), id, env)
    {
      hide EngineUploadFinished, Pipeline.Valid, Pipeline.Owns;
      status := Finished;
      p.model := PutItem(p.model, id, View());
      p.ItemTouched(this);
      p.engine.UploadFinished(p, this, env);
    }

    method Cancel(p: Pipeline, env: Env)
      requires In(p) && (http != null ==> http.Attached(p) && http.owner == this)
      modifies p, p.Repr
      ensures In(p) && p.After()
      ensures p.model == ItemCancel(old(p.model), id, env)
    {
      hide ClientCancel, EngineUploadFinished, Pipeline.Valid, Pipeline.Owns;
      var previousStatus := status;
      status := Cancelled;
      p.model := PutItem(p.model, id, View());
      p.ItemTouched(this);
      if http != null { http.Cancel(p, env); }
      if previousStatus.Waiting? { p.engine.UploadFinished(p, this, env); }
    }

    method StartUpload(p: Pipeline, env: Env) returns (ok: bool)
      requires In(p) && http == null && this !in p.queue.uploadQueue && !p.engine.state.Connecting?
      modifies p, p.Repr
      ensures In(p) && p.After()
      ensures ok == env.requestCreated
      ensures p.model == UploadModel.StartUpload(old(p.model), id, env)
    {
      hide Pipeline.Valid, Pipeline.Owns;
      var client := new HttpClient(this);
      client.InitSession();
      ok := client.Upload(env);
      http := client;
      wired := true;
      status := if ok then Sending else Error;
      p.Repr := p.Repr + {client};
      p.model := UploadModel.StartUpload(p.model, id, env);
      p.ItemStarted(this, client);
    }
  }

  class UploadQueue {
    var uploadQueue: seq<UploadItem>
    var notified: bool
    var nbrOfItems: nat

    constructor ()
      ensures uploadQueue == [] && !notified && nbrOfItems == 0
    {
      uploadQueue, notified, nbrOfItems := [], false, 0;
    }

    method Enqueue(p: Pipeline, file: string, env: Env)
      requires p.Valid() && p.queue == this
      modifies p, p.Repr
      ensures p.Valid() && fresh(p.Repr - old(p.Repr))
      ensures p.model == QueueEnqueue(old(p.model), file, env)
    {
      hide UploadModel.EmitNextItem, Pipeline.Valid, Pipeline.Owns;
      Append(p, file);
      if !notified {
        label L:
        nbrOfItems := 0;
        notified := true;
        p.model := p.model.(queue := p.model.queue.(nbrOfItems := 0, notified := true));
        p.QueueTouched@L(0);
        EmitNextItem(p, env);
      }
      label M:
      nbrOfItems := nbrOfItems + 1;
      p.model := p.model.(queue := p.model.queue.(nbrOfItems := nbrOfItems));
      p.QueueTouched@M(0);
    }

    // A new item becomes a child of the queue and its last element.
    method Append(p: Pipeline, file: string)
      requires p.Valid() && p.queue == this
      modifies p, p.Repr
      ensures p.Valid() && fresh(p.Repr - old(p.Repr))
      ensures uploadQueue != [] && notified == old(notified) && nbrOfItems == old(nbrOfItems)
      ensures p.model == old(p.model).(
        items := old(p.model).items + [NewItem(file)],
        queue := old(p.model).queue.(ids := old(p.model).queue.ids + [|old(p.model).items|]))
    {
      hide Pipeline.Valid;
      var item := new UploadItem(file, |p.items|);
      p.items := p.items + [item];
      p.Repr := p.Repr + {item};
      uploadQueue := uploadQueue + [item];
      p.model := p.model.(items := p.model.items + [NewItem(file)],
                          queue := p.model.queue.(ids := p.model.queue.ids + [item.id]));
      p.QueueAppended(item);
    }

    method ItemFinished(p: Pipeline, env: Env)
      requires p.Valid() && p.queue == this
      modifies p, p.Repr
      ensures p.Valid() && p.After()
      ensures p.model == QueueItemFinished(old(p.model), env)
    {
      hide UploadModel.EmitNextItem, EngineQueueDone, Pipeline.Owns, Pipeline.ItemsCoupled;
      if uploadQueue == [] {
        notified := false;
        p.model := p.model.(queue := p.model.queue.(notified := false));
        p.QueueTouched(0);
        p.engine.QueueDone(p);
      } else {
        EmitNextItem(p, env);
      }
    }

    method Clear(p: Pipeline)
      requires p.Valid() && p.queue == this
      modifies p, this
      ensures p.Valid() && p.After() && p.Repr == old(p.Repr)
      ensures p.model == old(p.model).(queue := old(p.model).queue.(ids := []))
    {
      uploadQueue := [];
      p.model := p.model.(queue := p.model.queue.(ids := []));
      p.QueueTouched(|old(uploadQueue)|);
    }

    method EmitNextItem(p: Pipeline, env: Env)
      requires p.Valid() && p.queue == this && uploadQueue != []
      modifies p, p.Repr
      ensures p.Valid() && p.After()
      ensures p.model == UploadModel.EmitNextItem(old(p.model), env)
    {
      hide EngineUploadItem;
      var item := uploadQueue[0];
      uploadQueue := uploadQueue[1..];
      p.model := p.model.(queue := p.model.queue.(ids := p.model.queue.ids[1..]));
      p.QueueTouched(1);
      p.engine.UploadItem(p, item, env);
    }
  }

  class UploadEngine {
    var currentItem: UploadItem?
    var state: EngineState
    var error: ErrorType
    var errorMessage: Option<string>
    var sentFiles: nat
    ghost var texts: seq<string>   // every text handed to SetErrorString()

    constructor ()
      ensures View() == Start(0).engine
    {
      currentItem, state, error, errorMessage, sentFiles, texts := null, NoConnection, NoError, None, 0, [];
    }

    ghost function View(): Engine
      reads this
    {
      Engine(if currentItem == null then None else Some(currentItem.id),
             state, error, errorMessage, sentFiles, texts)
    }

    method SetErrorString(message: Option<string>)
      modifies this
      ensures View() == UploadModel.SetErrorString(old(View()), message) && currentItem == old(currentItem)
    {
      if errorMessage.None? { errorMessage := message; }
      texts := texts + TextOf(message);
    }

    method SetErrorType(error: ErrorType)
      modifies this
      ensures View() == UploadModel.SetErrorType(old(View()), error) && currentItem == old(currentItem)
    {
      if this.error.NoError? { this.error := error; }
    }

    method UploadItem(p: Pipeline, item: UploadItem, env: Env)
      requires item.In(p) && p.engine == this && item.http == null && item !in p.queue.uploadQueue
      modifies p, p.Repr
      ensures p.Valid() && p.After()
      ensures p.model == EngineUploadItem(old(p.model), item.id, env)
    {
      hide UploadModel.StartUpload, Pipeline.Valid, Pipeline.Owns;
      currentItem := item;
      state := Connecting;
      if env.sessionOpen { state := Connected; }
      p.model := p.model.(engine := View());
      p.EngineTouched();
      if env.sessionOpen {
        var _ := item.StartUpload(p, env);
      }
    }

    method QueueDone(p: Pipeline)
      requires p.Valid() && p.engine == this
      modifies p, this
      ensures p.Valid() && p.After() && p.Repr == old(p.Repr)
      ensures p.model == EngineQueueDone(old(p.model))
    {
      if !state.NoConnection? { state := Closing; }
      p.model := p.model.(engine := View());
      p.EngineTouched();
      EmitFinished(p);
    }

    method EmitFinished(p: Pipeline)
      requires p.Valid() && p.engine == this
      modifies p, this
      ensures p.Valid() && p.After() && p.Repr == old(p.Repr)
      ensures var m := old(p.model);
        p.model == m.(
          engine := m.engine.(sentFiles := 0),
          log := m.log.(verdicts := m.log.verdicts
                                    + [Verdict(m.engine.error, m.engine.sentFiles, m.queue.nbrOfItems)]))
    {
      hide WellFormed, Pipeline.Owns, Pipeline.ItemsCoupled;
      var sent := sentFiles;
      sentFiles := 0;
      p.model := p.model.(engine := View());
      p.EngineTouched();
      label L:
      p.finishedSignals := p.finishedSignals + [Verdict(error, sent, p.queue.nbrOfItems)];
      p.model := p.model.(log := p.model.log.(verdicts := p.finishedSignals));
      p.LogTouched@L();
    }

    // UploadFinished() up to the point where the item is marked done.
    method Account(p: Pipeline, item: UploadItem)
      requires item.In(p) && p.engine == this
      modifies p, p.Repr
      ensures item.In(p) && p.After()
      ensures p.model == UploadModel.Account(old(p.model), item.id)
    {
      hide WellFormed, Grows, Pipeline.Owns, Pipeline.ItemsCoupled, Pipeline.QueueCoupled, Pipeline.WorldCoupled;
      if item.status.Error? && !state.NoConnection? {
        SetErrorType(ProtocolError);
        SetErrorString(item.errorString);
        p.model := p.model.(engine := View());
        p.EngineTouched();
      } else if item.status.Error? || item.status.Cancelled? {
        SetErrorType(ProtocolError);
        SetErrorString(item.errorString);
        if !state.NoConnection? { state := Aborting; }
        p.model := p.model.(engine := View());
        p.EngineTouched();
        p.queue.Clear(p);
      } else {
        sentFiles := sentFiles + 1;
        p.model := p.model.(engine := View());
        p.EngineTouched();
      }
    }

    method UploadFinished(p: Pipeline, item: UploadItem, env: Env)
      requires item.In(p) && p.engine == this
      modifies p, p.Repr
      ensures item.In(p) && p.After()
      ensures p.model == EngineUploadFinished(old(p.model), item.id, env)
    {
      hide UploadModel.Account, QueueItemFinished, WellFormed, Grows, Pipeline.Owns;
      p.model := p.model.(log := p.model.log.(completed := p.model.log.completed + [item.id]));
      p.LogTouched();
      Account(p, item);
      p.queue.ItemFinished(p, env);
    }

    method SessionOpened(p: Pipeline, env: Env)
      requires p.Valid() && p.engine == this
      modifies p, p.Repr
      ensures p.Valid() && p.After()
      ensures p.model == EngineSessionOpened(old(p.model), env)
    {
      hide UploadModel.StartUpload;
      if state.Connecting? {
        state := Connected;
        p.model := p.model.(engine := View());
        p.EngineTouched();
        var _ := currentItem.StartUpload(p, env);
      }
    }

    method SessionDisconnected(p: Pipeline, env: Env)
      requires p.Valid() && p.engine == this
      modifies p, p.Repr
      ensures p.Valid() && p.After()
      ensures p.model == EngineSessionDisconnected(old(p.model), env)
    {
      hide ItemCancel;
      var oldState := state;
      state := NoConnection;
      if oldState.Connecting? || oldState.Connected? {
        SetErrorType(if oldState.Connecting? then ConnectionNotAvailable else ConnectionClosed);
        p.model := p.model.(engine := View());
        p.EngineTouched();
        currentItem.Cancel(p, env);
      } else {
        p.model := p.model.(engine := View());
        p.EngineTouched();
      }
    }

    method ConnectionError(p: Pipeline, message: string, env: Env)
      requires p.Valid() && p.engine == this
      modifies p, p.Repr
      ensures p.Valid() && p.After()
      ensures p.model == EngineConnectionError(old(p.model), message, env)
    {
      hide EngineSessionDisconnected;
      SetErrorString(Some(message));
      p.model := p.model.(engine := View());
      p.EngineTouched();
      SessionDisconnected(p, env);
    }

    method CancelAll(p: Pipeline, env: Env)
      requires p.Valid() && p.engine == this
      modifies p, p.Repr
      ensures p.Valid() && p.After()
      ensures p.model == EngineCancelAll(old(p.model), env)
    {
      hide ItemCancel;
      if currentItem != null { currentItem.Cancel(p, env); }
    }
  }
}
