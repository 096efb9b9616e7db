/**
  The application side of the realtime transport: what its callbacks answer. A desktop renderer
  answers arbitrarily, so its answers are a script over which every theorem quantifies. The CLI
  watch loop (packages/cli/src/watch.ts) answers from its closure variables.
 */
module Consumer {
  import opened Wrappers
  import opened SyncPositions

  datatype Scope = Scope(userId: EntityId, workspaceId: EntityId, epoch: nat)

  datatype Kind =
    | Connected(connectionId: EntityId, userId: EntityId)
    | ResyncRequired
    | Change

  /** A validated product event; `bytes` is the UTF-8 length of its JSON. */
  datatype Event = Event(kind: Kind, position: Position, workspaceId: EntityId, bytes: nat)

  datatype ConnectionState = Connecting | Live | Offline | Reconnecting | Incompatible

  datatype DropReason =
    | ProtocolMismatch | InvalidEnvelope | LateTicket | StaleActivation | StaleControl
    | StaleSocket | WrongUser | WrongWorkspace

  /** `retryable` is the CLI's classification of a failed ticket request. */
  datatype TransportFailure =
    | TicketFailure(retryable: bool)
    | HandshakeFailure(status: nat)
    | ClosedFailure(code: nat)
    | InvalidFrame

  datatype Verdict = Yes | No | Raised

  /** `resets`: the callback called resetSession() before it returned. */
  datatype Reply = Reply(verdict: Verdict, resets: bool)

  datatype WatchError =
    | ResyncRequiredError
    | UpgradeRequired
    | InvalidServerContract
    | AuthRevoked
    | Unauthorized
    | RealtimeRejected
    | TicketError
    | OutputError

  datatype WatchResult = Resolved(cursor: Position) | Rejected(error: WatchError)

  /**
    The closure variables of watchProductRealtime. `queue` holds the events chained on `tail` that
    have not completed, `writing` says that the head is being written, `broken` that the chain was
    rejected. `written` is what the output accepted, in order.
   */
  datatype Watch = Watch(
    scope: Scope,
    cursor: Position,
    queue: seq<Event>,
    writing: bool,
    broken: bool,
    written: seq<Event>,
    finished: bool,
    outputCancelled: bool,
    failure: Option<WatchError>,
    dropReason: Option<DropReason>,
    result: Option<WatchResult>)
  {
    /** `finish`: only the first call counts, and it resets the realtime session. */
    function Finish(error: Option<WatchError>): (Watch, bool)
    {
      if finished then (this, false)
      else (this.(finished := true, failure := error), true)
    }

    function Enqueue(event: Event): (Watch, bool)
    {
      var queued := this.(queue := queue + [event]);
      if event.kind.ResyncRequired? then queued.Finish(Some(ResyncRequiredError)) else (queued, false)
    }
  }

  /** watch.ts:78-104, the outcome of a refused upgrade by HTTP status. */
  function UnexpectedStatusError(status: nat): (r: Option<WatchError>)
  {
    if status == 401 || status == 403 then Some(Unauthorized)
    else if status == 429 || status >= 500 then None
    else Some(RealtimeRejected)
  }

  datatype Host =
    | Renderer(script: seq<Reply>)
    | Watcher(watch: Watch)
  {
    /** The next scripted answer; a renderer whose script ran out accepts. */
    function Next(): (Host, Reply)
      requires Renderer?
    {
      if script == [] then (this, Reply(Yes, false)) else (Renderer(script[1..]), script[0])
    }

    function OnEvent(event: Event): (r: (Host, Reply))
      ensures event.kind.ResyncRequired? ==> Quiet(this, r.0)
      ensures Watcher? && !event.kind.ResyncRequired? ==>
                if watch.finished then r == (this, Reply(No, false)) else r == (Took(this, event), Reply(Yes, false))
    {
      match this
      case Renderer(_) => Next()
      case Watcher(w) =>
        if w.finished then (this, Reply(No, false))
        else
          var (w1, resets) := w.Enqueue(event);
          (Watcher(w1), Reply(Yes, resets))
    }

    /** The watch loop installs no windowless observer. */
    function OnWindowlessEvent(event: Event): (Host, Reply)
    {
      match this
      case Renderer(_) => Next()
      case Watcher(_) => (this, Reply(Yes, false))
    }

    function OnState(state: ConnectionState): (r: (Host, Reply))
      ensures Quiet(this, r.0)
    {
      match this
      case Renderer(_) => Next()
      case Watcher(w) =>
        if state.Incompatible? then
          var error := if w.dropReason == Some(ProtocolMismatch) then UpgradeRequired else InvalidServerContract;
          var (w1, resets) := w.Finish(Some(error));
          (Watcher(w1), Reply(Yes, resets))
        else (this, Reply(Yes, false))
    }

    function OnDrop(reason: DropReason): Host
    {
      match this
      case Renderer(_) => this
      case Watcher(w) => Watcher(w.(dropReason := Some(reason)))
    }

    /** Yes means that the consumer took a terminal failure over and wants transport stopped. */
    function OnFailure(failure: TransportFailure): (r: (Host, Reply))
      ensures Quiet(this, r.0)
    {
      match this
      case Renderer(_) => Next()
      case Watcher(w) =>
        match failure
        case TicketFailure(retryable) =>
          if retryable then (this, Reply(No, false)) else End(w, TicketError)
        case HandshakeFailure(status) =>
          (match UnexpectedStatusError(status)
           case None => (this, Reply(No, false))
           case Some(error) => End(w, error))
        case InvalidFrame => End(w, InvalidServerContract)
        case ClosedFailure(code) =>
          if code == 4009 then
            var (w1, resets) := w.Enqueue(Event(ResyncRequired, w.cursor, w.scope.workspaceId, 0));
            (Watcher(w1), Reply(Yes, resets))
          else if code == 4401 || code == 4403 then End(w, AuthRevoked)
          else (this, Reply(No, false))
    }

    static function End(w: Watch, error: WatchError): (Host, Reply)
    {
      var (w1, resets) := w.Finish(Some(error));
      (Watcher(w1), Reply(Yes, resets))
    }
  }

  /** Between the two hosts a watch loop was offered nothing but repair signals. */
  predicate Quiet(before: Host, after: Host)
  {
    before.Watcher? ==>
      && after.Watcher?
      && var v, w := before.watch, after.watch;
      && w.written == v.written && w.cursor == v.cursor && w.scope == v.scope
      && w.writing == v.writing && w.broken == v.broken
      && w.outputCancelled == v.outputCancelled && w.result == v.result
      && v.queue <= w.queue
      && forall i :: |v.queue| <= i < |w.queue| ==> w.queue[i].kind.ResyncRequired?
  }

  /** The host of a watch loop that also enqueued `event`. */
  function Took(host: Host, event: Event): Host
  {
    if host.Watcher? then Watcher(host.watch.(queue := host.watch.queue + [event])) else host
  }
}
