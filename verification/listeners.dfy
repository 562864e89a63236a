/**
 The listener registry of the HTTP handler: a map from subscription id to the
 pop worker serving it, with the `add` and `remove` actions of the
 `/listener/<action>` route. Workers are records, not threads: their liveness
 is a field that the environment step `WorkerExit` may switch off. Every
 operation is a single sequential step; the unguarded check-then-act of `add`
 is not modelled as a race.
 */
module Listeners {
  import opened Wrappers

  /** The two pop directions a subscription may listen on. */
  datatype Event = LPop | RPop

  /** The event as it appears in the request body. */
  function EventName(e: Event): string {
    match e
    case LPop => "lpop"
    case RPop => "rpop"
  }

  /** Validation of the request's `event`: only left and right pops are supported. */
  function ParseEvent(s: string): (r: Option<Event>)
    ensures r.Some? <==> (s == "lpop" || s == "rpop")
    ensures r.Some? ==> EventName(r.value) == s
  {
    if s == "lpop" then Some(LPop)
    else if s == "rpop" then Some(RPop)
    else None
  }

  /** Every event survives the trip through its request spelling. */
  lemma EventRoundTrip(e: Event)
    ensures ParseEvent(EventName(e)) == Some(e)
  {
  }

  /** One pop worker as the registry sees it: its construction arguments, the
      cooperative `shutdown` flag set by `remove`, and whether its thread is alive. */
  datatype Worker = Worker(
    subId: string,
    event: Event,
    key: string,
    endpoint: string,
    shutdown: bool,
    alive: bool)

  type Registry = map<string, Worker>

  /** The externally observable state of a subscription, derived from its worker. */
  datatype SubscriptionState = Running | Stopping | Terminated

  function StateOf(w: Worker): SubscriptionState {
    if !w.alive then Terminated
    else if w.shutdown then Stopping
    else Running
  }

  /** The reply lines of the listener route. */
  datatype Status = Ok | AlreadyActive | AlreadyInactive

  /** The two `assert` statements of the listener route, each an HTTP error. */
  datatype ListenerError = UnknownAction | UnsupportedEvent

  /** The registry after a step, with the reply the step produced. */
  datatype Outcome = Outcome(status: Status, registry: Registry)

  /** The body of a listener request, already parsed. */
  datatype Request = Request(id: string, event: string, key: string, endpoint: string)

  function ReplyText(s: Status): (t: string)
    ensures |t| > 0 && t[|t| - 1] == '\n'
    ensures ParseReply(t) == Some(s)
  {
    match s
    case Ok => "ok\n"
    case AlreadyActive => "already_active\n"
    case AlreadyInactive => "already_inactive\n"
  }

  /** Reads a reply line back, as a client of the route would. */
  function ParseReply(t: string): Option<Status> {
    if t == "ok\n" then Some(Ok)
    else if t == "already_active\n" then Some(AlreadyActive)
    else if t == "already_inactive\n" then Some(AlreadyInactive)
    else None
  }

  /** `after` agrees with `before` on every id other than `id`. */
  ghost predicate UnchangedExcept(before: Registry, after: Registry, id: string) {
    && after.Keys - {id} == before.Keys - {id}
    && forall k :: k in before && k != id ==> k in after && after[k] == before[k]
  }

  /** Every entry is the worker started for the id it is stored under. */
  ghost predicate WellFormed(reg: Registry) {
    forall id :: id in reg ==> reg[id].subId == id
  }

  /** The worker `add` starts: not shut down, and alive once `start()` returns. */
  function Fresh(id: string, event: Event, key: string, endpoint: string): Worker {
    Worker(id, event, key, endpoint, false, true)
  }

  /** The `add` action: validate the event, refuse if a live worker already
      serves `id`, otherwise start a new worker and store it over any stale one. */
  function Add(reg: Registry, id: string, event: string, key: string, endpoint: string)
    : (r: Result<Outcome, ListenerError>)
    ensures ParseEvent(event).None? ==> r == Failure(UnsupportedEvent)
    ensures ParseEvent(event).Some? && id in reg && reg[id].alive ==>
              r == Success(Outcome(AlreadyActive, reg))
    ensures ParseEvent(event).Some? && (id !in reg || !reg[id].alive) ==>
              && r.Success?
              && r.value.status == Ok
              && id in r.value.registry
              && r.value.registry[id].subId == id
              && EventName(r.value.registry[id].event) == event
              && r.value.registry[id].key == key
              && r.value.registry[id].endpoint == endpoint
              && !r.value.registry[id].shutdown
              && r.value.registry[id].alive
              && r.value.registry.Keys == reg.Keys + {id}
              && UnchangedExcept(reg, r.value.registry, id)
  {
    match ParseEvent(event)
    case None => Failure(UnsupportedEvent)
    case Some(e) =>
      if id in reg && reg[id].alive then Success(Outcome(AlreadyActive, reg))
      else Success(Outcome(Ok, reg[id := Fresh(id, e, key, endpoint)]))
  }

  /** The `remove` action: flag the stored worker for shutdown, alive or not;
      the entry itself stays in the registry. */
  function Remove(reg: Registry, id: string): (r: Outcome)
    ensures id !in reg ==> r == Outcome(AlreadyInactive, reg)
    ensures id in reg ==>
              && r.status == Ok
              && r.registry.Keys == reg.Keys
              && r.registry[id].shutdown
              && r.registry[id] == reg[id].(shutdown := true)
              && r.registry[id].alive == reg[id].alive
              && UnchangedExcept(reg, r.registry, id)
  {
    if id in reg then Outcome(Ok, reg[id := reg[id].(shutdown := true)])
    else Outcome(AlreadyInactive, reg)
  }

  /** Environment step: the worker serving `id` leaves its loop (it saw its
      shutdown flag, or the store failed) and its thread is no longer alive. */
  function WorkerExit(reg: Registry, id: string): (r: Registry)
    ensures r.Keys == reg.Keys
    ensures id in reg ==> r[id] == reg[id].(alive := false)
    ensures UnchangedExcept(reg, r, id)
  {
    if id in reg then reg[id := reg[id].(alive := false)] else reg
  }

  /** The `/listener/<action>` route: `remove` is handled first and reads only
      the id; anything else must be `add`, whose event is then validated. */
  function Listener(reg: Registry, action: string, req: Request): (r: Result<Outcome, ListenerError>)
    ensures r.Failure? <==>
              action != "remove" && (action != "add" || ParseEvent(req.event).None?)
    ensures action != "remove" && action != "add" ==> r == Failure(UnknownAction)
    ensures action == "remove" ==> r == Success(Remove(reg, req.id))
    ensures action == "add" ==> r == Add(reg, req.id, req.event, req.key, req.endpoint)
  {
    if action == "remove" then Success(Remove(reg, req.id))
    else if action != "add" then Failure(UnknownAction)
    else Add(reg, req.id, req.event, req.key, req.endpoint)
  }
}
