/**
 The upload pipeline as a transition system.

 Four objects call each other synchronously through signals: the queue hands out one item at a
 time, the engine gates it on a network session, the item owns an HTTP client, and the client
 watches one network reply.  A `Sys` is the state of all of them for one batch (one engine).
 Every function below is one slot or method of the program; a signal is the call of the slot
 connected to it.  The fields `started`, `completed` and `removed` are histories.
 */
module UploadModel {
  import opened Basics

  // Life of an item in the queue.
  datatype ItemStatus = Waiting | Sending | Error | Finished | Cancelled

  datatype ClientState = ClientNone | ClientInit | ClientConnecting | ClientSending | ClientAborting

  // What the network reply itself has signalled so far, whether or not the client still points at it.
  datatype NetState = NoReply | Active | Failed | Closed

  // `reply` says that the client still holds its reply pointer.
  datatype Client = Client(state: ClientState, reply: bool, deleteFile: bool, timer: bool, net: NetState)

  // `wired` says that the item still listens to its client's signals.
  datatype Item = Item(file: string, status: ItemStatus, errorString: Option<string>,
                       http: Option<Client>, wired: bool)

  datatype EngineState = NoConnection | Connecting | Connected | Closing | Aborting

  datatype ErrorType = NoError | ProtocolError | ConnectionNotAvailable | ConnectionClosed

  // Arguments of the engine's finished() signal.
  datatype Verdict = Verdict(error: ErrorType, sent: nat, total: nat)

  // An item is named by its place in `Sys.items`, the batch in the order of enqueueing.
  datatype Queue = Queue(ids: seq<nat>, notified: bool, nbrOfItems: nat)

  // `texts` is a history: every text that was handed to setErrorString().
  datatype Engine = Engine(cur: Option<nat>, state: EngineState, error: ErrorType,
                           errorMessage: Option<string>, sentFiles: nat, texts: seq<string>)

  // Which items were started, which reported to the engine, for whose files removeFile() was called,
  // and what finished() said, each in order.
  datatype Log = Log(started: seq<nat>, completed: seq<nat>, removed: seq<nat>, verdicts: seq<Verdict>)

  datatype Sys = Sys(items: seq<Item>, queue: Queue, engine: Engine, log: Log)

  // What the environment answers during one event: whether the session is already open,
  // and whether the request for an upload can be created.
  datatype Env = Env(sessionOpen: bool, requestCreated: bool)

  datatype Event =
    | Enqueue(file: string)
    | SessionOpened
    | SessionDisconnected
    | NetworkError(message: string)
    | CancelAll
    | ReplyError(id: nat, message: string)
    | ReplyFinished(id: nat)
    | UploadProgress(id: nat)
    | ConnectionTimeout(id: nat)

  // The text the network library gives an aborted reply.
  const ABORT_MESSAGE := "Operation canceled"

  // A new engine on an empty queue; the queue may still count the items of the batch before.
  function Start(total: nat): Sys {
    Sys([], Queue([], false, total), Engine(None, NoConnection, NoError, None, 0, []), Log([], [], [], []))
  }

  // References stay inside the batch, and a live connection state has a current item.
  ghost predicate WellFormed(s: Sys) {
    && (forall i :: 0 <= i < |s.queue.ids| ==> s.queue.ids[i] < |s.items|)
    && (s.engine.cur.Some? ==> s.engine.cur.value < |s.items|)
    && (s.engine.state.Connecting? || s.engine.state.Connected? ==> s.engine.cur.Some?)
  }

  // The first error and the first error text are the ones that stay.
  ghost predicate FirstErrorKept(e: Engine, f: Engine) {
    && (!e.error.NoError? ==> f.error == e.error)
    && (e.errorMessage.Some? ==> f.errorMessage == e.errorMessage)
  }

  // The item has a client whose request was never created.
  ghost predicate Unsent(it: Item) {
    it.http.Some? && it.http.value.net.NoReply?
  }

  ghost predicate Requested(items: seq<Item>) {
    forall i :: 0 <= i < |items| ==> !Unsent(items[i])
  }

  // A client without a reply is there after an event only if it was there before, unless the
  // environment did not create a request.
  ghost predicate UnsentBefore(s: Sys, r: Sys, env: Env) {
    env.requestCreated ==>
      forall i :: 0 <= i < |r.items| && Unsent(r.items[i]) ==> i < |s.items| && Unsent(s.items[i])
  }

  // Items are not renamed and do not lose their client, and a client without a reply comes about only
  // where the environment does not create the request.
  ghost predicate ItemGrows(a: Item, b: Item, created: bool) {
    && b.file == a.file
    && (a.http.Some? ==> b.http.Some?)
    && (created && Unsent(b) ==> Unsent(a))
  }

  // Slots neither add nor remove items, and keep the first error and the items started so far.
  ghost predicate Grows(s: Sys, r: Sys, created: bool) {
    && WellFormed(r) && FirstErrorKept(s.engine, r.engine) && s.log.started <= r.log.started
    && |r.items| == |s.items|
    && (forall i :: 0 <= i < |s.items| ==> ItemGrows(s.items[i], r.items[i], created))
  }

  function PutItem(s: Sys, k: nat, item: Item): Sys
    requires k < |s.items|
  {
    s.(items := s.items[k := item])
  }

  function PutClient(s: Sys, k: nat, client: Client): Sys
    requires k < |s.items|
  {
    PutItem(s, k, s.items[k].(http := Some(client)))
  }

  function ClientOf(s: Sys, k: nat): Client
    requires k < |s.items| && s.items[k].http.Some?
  {
    s.items[k].http.value
  }

  function TextOf(message: Option<string>): seq<string> {
    if message.Some? then [message.value] else []
  }

  function SetErrorString(e: Engine, message: Option<string>): Engine {
    e.(errorMessage := if e.errorMessage.None? then message else e.errorMessage, texts := e.texts + TextOf(message))
  }

  function SetErrorType(e: Engine, error: ErrorType): Engine {
    if e.error.NoError? then e.(error := error) else e
  }

  /* ---- starting an item ---- */

  // The client right after initSession() and upload().
  function NewClient(created: bool): Client {
    if created then Client(ClientConnecting, true, true, true, Active)
    else Client(ClientInit, false, true, false, NoReply)
  }

  function StartUpload(s: Sys, k: nat, env: Env): (r: Sys)
    requires WellFormed(s) && k < |s.items|
    ensures Grows(s, r, env.requestCreated)
  {
    var status := if env.requestCreated then Sending else Error;
    PutItem(s, k, s.items[k].(http := Some(NewClient(env.requestCreated)), wired := true, status := status))
    .(log := s.log.(started := s.log.started + [k]))
  }

  function EngineUploadItem(s: Sys, k: nat, env: Env): (r: Sys)
    requires WellFormed(s) && k < |s.items|
    ensures Grows(s, r, env.requestCreated)
  {
    var engine := s.engine.(cur := Some(k), state := Connecting);
    if !env.sessionOpen then s.(engine := engine)
    else StartUpload(s.(engine := engine.(state := Connected)), k, env)
  }

  /* ---- finishing an item ---- */

  function EngineQueueDone(s: Sys): (r: Sys)
    requires WellFormed(s)
    ensures Grows(s, r, true)
  {
    var e := s.engine;
    s.(engine := e.(state := if e.state.NoConnection? then NoConnection else Closing, sentFiles := 0),
       log := s.log.(verdicts := s.log.verdicts + [Verdict(e.error, e.sentFiles, s.queue.nbrOfItems)]))
  }

  function EmitNextItem(s: Sys, env: Env): (r: Sys)
    requires WellFormed(s) && s.queue.ids != []
    ensures Grows(s, r, env.requestCreated)
  {
    EngineUploadItem(s.(queue := s.queue.(ids := s.queue.ids[1..])), s.queue.ids[0], env)
  }

  function QueueItemFinished(s: Sys, env: Env): (r: Sys)
    requires WellFormed(s)
    ensures Grows(s, r, env.requestCreated)
  {
    if s.queue.ids == [] then EngineQueueDone(s.(queue := s.queue.(notified := false)))
    else EmitNextItem(s, env)
  }

  // What the engine makes of an item that has reported: it goes on after an upload error,
  // empties the queue after a cancel, and counts everything else as sent.
  function Account(s: Sys, k: nat): (r: Sys)
    requires WellFormed(s) && k < |s.items|
    ensures Grows(s, r, true)
  {
    var item := s.items[k];
    var e := s.engine;
    var failed := SetErrorString(SetErrorType(e, ProtocolError), item.errorString);
    if item.status.Error? && !e.state.NoConnection? then s.(engine := failed)
    else if item.status.Error? || item.status.Cancelled? then
      s.(engine := failed.(state := if e.state.NoConnection? then NoConnection else Aborting),
         queue := s.queue.(ids := []))
    else s.(engine := e.(sentFiles := e.sentFiles + 1))
  }

  // The item's uploadFinished() signal.
  function EngineUploadFinished(s: Sys, k: nat, env: Env): (r: Sys)
    requires WellFormed(s) && k < |s.items|
    ensures Grows(s, r, env.requestCreated)
  {
    QueueItemFinished(Account(s.(log := s.log.(completed := s.log.completed + [k])), k), env)
  }

  function ItemUploadError(s: Sys, k: nat, message: string, env: Env): (r: Sys)
    requires WellFormed(s) && k < |s.items|
    ensures Grows(s, r, env.requestCreated)
  {
    var item := s.items[k];
    var status := if item.status.Cancelled? then Cancelled else Error;
    EngineUploadFinished(
      PutItem(s, k, item.(wired := false, errorString := Some(message), status := status)), k, env)
  }

  function ItemEmitUploadFinished(s: Sys, k: nat, env: Env): (r: Sys)
    requires WellFormed(s) && k < |s.items|
    ensures Grows(s, r, env.requestCreated)
  {
    EngineUploadFinished(PutItem(s, k, s.items[k].(status := Finished)), k, env)
  }

  /* ---- the HTTP client ---- */

  function HandleError(s: Sys, k: nat, message: string, env: Env): (r: Sys)
    requires WellFormed(s) && k < |s.items| && s.items[k].http.Some?
    ensures Grows(s, r, env.requestCreated)
  {
    var c := ClientOf(s, k);
    if !(c.reply && c.net.Failed?) then s
    else
      var cleared := PutClient(s, k, c.(reply := false));
      if s.items[k].wired then ItemUploadError(cleared, k, message, env) else cleared
  }

  function HandleFinished(s: Sys, k: nat, env: Env): (r: Sys)
    requires WellFormed(s) && k < |s.items| && s.items[k].http.Some?
    ensures Grows(s, r, env.requestCreated)
  {
    var c := ClientOf(s, k);
    var unlinked := if c.reply && c.deleteFile then s.(log := s.log.(removed := s.log.removed + [k])) else s;
    var settled := PutClient(unlinked, k, c.(timer := false, reply := false, state := ClientInit));
    if s.items[k].wired then ItemEmitUploadFinished(settled, k, env) else settled
  }

  // Aborting a running reply makes it signal error and then finished before abort() returns.
  function Abort(s: Sys, k: nat, env: Env): (r: Sys)
    requires WellFormed(s) && k < |s.items| && s.items[k].http.Some?
    ensures Grows(s, r, env.requestCreated)
  {
    if !ClientOf(s, k).net.Active? then s
    else
      var failed := PutClient(s, k, ClientOf(s, k).(net := Failed));
      assert Grows(s, failed, true);
      var a := HandleError(failed, k, ABORT_MESSAGE, env);
      assert Grows(s, a, env.requestCreated);
      var closed := PutClient(a, k, ClientOf(a, k).(net := Closed));
      assert Grows(s, closed, env.requestCreated);
      HandleFinished(closed, k, env)
  }

  function ClientCancel(s: Sys, k: nat, env: Env): (r: Sys)
    requires WellFormed(s) && k < |s.items| && s.items[k].http.Some?
    ensures Grows(s, r, env.requestCreated)
  {
    var aborting := PutClient(s, k, ClientOf(s, k).(state := ClientAborting));
    assert Grows(s, aborting, true);
    if !ClientOf(s, k).reply then HandleFinished(aborting, k, env)
    else
      var aborted := Abort(aborting, k, env);
      assert Grows(s, aborted, env.requestCreated);
      var cleared := PutClient(aborted, k, ClientOf(aborted, k).(reply := false));
      assert Grows(s, cleared, env.requestCreated);
      HandleFinished(cleared, k, env)
  }

  function HandleUploadProgress(s: Sys, k: nat): (r: Sys)
    requires WellFormed(s) && k < |s.items| && s.items[k].http.Some?
    ensures Grows(s, r, true)
  {
    var c := ClientOf(s, k).(timer := false);
    PutClient(s, k, if c.reply then c.(state := ClientSending) else c)
  }

  /* ---- cancelling ---- */

  function ItemCancel(s: Sys, k: nat, env: Env): (r: Sys)
    requires WellFormed(s) && k < |s.items|
    ensures Grows(s, r, env.requestCreated)
  {
    var item := s.items[k];
    var marked := PutItem(s, k, item.(status := Cancelled));
    var stopped := if item.http.Some? then ClientCancel(marked, k, env) else marked;
    if item.status.Waiting? then EngineUploadFinished(stopped, k, env) else stopped
  }

  function EngineSessionOpened(s: Sys, env: Env): (r: Sys)
    requires WellFormed(s)
    ensures Grows(s, r, env.requestCreated)
  {
    if s.engine.state.Connecting?
    then StartUpload(s.(engine := s.engine.(state := Connected)), s.engine.cur.value, env)
    else s
  }

  function EngineSessionDisconnected(s: Sys, env: Env): (r: Sys)
    requires WellFormed(s)
    ensures Grows(s, r, env.requestCreated)
  {
    var lost := s.engine.(state := NoConnection);
    match s.engine.state
    case Connecting =>
      ItemCancel(s.(engine := SetErrorType(lost, ConnectionNotAvailable)), lost.cur.value, env)
    case Connected =>
      ItemCancel(s.(engine := SetErrorType(lost, ConnectionClosed)), lost.cur.value, env)
    case _ => s.(engine := lost)
  }

  function EngineConnectionError(s: Sys, message: string, env: Env): (r: Sys)
    requires WellFormed(s)
    ensures Grows(s, r, env.requestCreated)
  {
    EngineSessionDisconnected(s.(engine := SetErrorString(s.engine, Some(message))), env)
  }

  function EngineCancelAll(s: Sys, env: Env): (r: Sys)
    requires WellFormed(s)
    ensures Grows(s, r, env.requestCreated)
  {
    if s.engine.cur.Some? then ItemCancel(s, s.engine.cur.value, env) else s
  }

  /* ---- feeding the queue ---- */

  function NewItem(file: string): Item {
    Item(file, Waiting, None, None, false)
  }

  function QueueEnqueue(s: Sys, file: string, env: Env): (r: Sys)
    requires WellFormed(s)
    ensures WellFormed(r) && FirstErrorKept(s.engine, r.engine) && s.log.started <= r.log.started
    ensures |r.items| == |s.items| + 1 && UnsentBefore(s, r, env)
  {
    var q := s.queue.(ids := s.queue.ids + [|s.items|]);
    var appended := s.(items := s.items + [NewItem(file)]);
    var handed := if q.notified then appended.(queue := q)
                  else EmitNextItem(appended.(queue := q.(nbrOfItems := 0, notified := true)), env);
    handed.(queue := handed.queue.(nbrOfItems := handed.queue.nbrOfItems + 1))
  }

  /* ---- events ---- */

  ghost predicate HasClient(s: Sys, k: nat) {
    k < |s.items| && s.items[k].http.Some?
  }

  // When the environment can deliver an event.  A batch takes files and can be cancelled until
  // it has finished; a reply signals only while it runs, error before finished; a timer fires
  // only while it runs.  Replies of items that are already done are not excluded.
  ghost predicate Enabled(s: Sys, e: Event) {
    match e
    case Enqueue(_) => s.log.verdicts == []
    case CancelAll => s.log.verdicts == []
    case ReplyError(k, _) => HasClient(s, k) && ClientOf(s, k).net.Active?
    case ReplyFinished(k) => HasClient(s, k) && (ClientOf(s, k).net.Active? || ClientOf(s, k).net.Failed?)
    case UploadProgress(k) => HasClient(s, k) && ClientOf(s, k).net.Active?
    case ConnectionTimeout(k) => HasClient(s, k) && ClientOf(s, k).timer
    case _ => true
  }

  // One event with its whole synchronous chain of signals.
  ghost function Step(s: Sys, e: Event, env: Env): (r: Sys)
    requires WellFormed(s) && Enabled(s, e)
    ensures WellFormed(r) && FirstErrorKept(s.engine, r.engine) && s.log.started <= r.log.started
    ensures UnsentBefore(s, r, env)
  {
    match e
    case Enqueue(file) => QueueEnqueue(s, file, env)
    case SessionOpened => EngineSessionOpened(s, env)
    case SessionDisconnected => EngineSessionDisconnected(s, env)
    case NetworkError(message) => EngineConnectionError(s, message, env)
    case CancelAll => EngineCancelAll(s, env)
    case ReplyError(k, message) =>
      var failed := PutClient(s, k, ClientOf(s, k).(net := Failed));
      assert Grows(s, failed, true);
      HandleError(failed, k, message, env)
    case ReplyFinished(k) =>
      var closed := PutClient(s, k, ClientOf(s, k).(net := Closed));
      assert Grows(s, closed, true);
      HandleFinished(closed, k, env)
    case UploadProgress(k) => HandleUploadProgress(s, k)
    case ConnectionTimeout(k) => ClientCancel(s, k, env)
  }

  datatype Action = Action(event: Event, env: Env)

  // A run delivers only enabled events.
  ghost predicate Legal(s: Sys, run: seq<Action>)
    requires WellFormed(s)
    decreases |run|
  {
    run == [] ||
    (Enabled(s, run[0].event) && Legal(Step(s, run[0].event, run[0].env), run[1..]))
  }

  ghost function Run(s: Sys, run: seq<Action>): (r: Sys)
    requires WellFormed(s) && Legal(s, run)
    ensures WellFormed(r) && FirstErrorKept(s.engine, r.engine)
    decreases |run|
  {
    if run == [] then s else Run(Step(s, run[0].event, run[0].env), run[1..])
  }
}
