/**
 Properties of the listener registry that relate several steps: idempotence of
 `add` and `remove`, replacement of terminated workers, preservation of the
 registry's well-formedness, and growth of its key set over any sequence of
 requests and worker exits.
 */
module ListenerLaws {
  import opened Wrappers
  import opened Listeners

  /** One thing that can happen to the registry. */
  datatype Step =
    | AddStep(id: string, event: string, key: string, endpoint: string)
    | RemoveStep(id: string)
    | ExitStep(id: string)

  /** The registry after one step; a rejected `add` leaves it as it was. */
  function Next(reg: Registry, s: Step): Registry {
    match s
    case AddStep(id, event, key, endpoint) =>
      (match Add(reg, id, event, key, endpoint)
       case Success(o) => o.registry
       case Failure(_) => reg)
    case RemoveStep(id) => Remove(reg, id).registry
    case ExitStep(id) => WorkerExit(reg, id)
  }

  /** The registry after a whole sequence of steps, applied in order. */
  function Run(reg: Registry, steps: seq<Step>): Registry
    decreases |steps|
  {
    if steps == [] then reg else Run(Next(reg, steps[0]), steps[1..])
  }

  /** The ids of the `add` requests in `steps` whose event passes validation. */
  function AddedIds(steps: seq<Step>): set<string>
    decreases |steps|
  {
    if steps == [] then {}
    else
      var rest := AddedIds(steps[1..]);
      match steps[0]
      case AddStep(id, event, _, _) => if ParseEvent(event).Some? then {id} + rest else rest
      case _ => rest
  }

  /** A step keeps or grows the key set, and only a valid `add` can grow it. */
  lemma NextKeys(reg: Registry, s: Step)
    ensures s.AddStep? && ParseEvent(s.event).Some? ==> Next(reg, s).Keys == reg.Keys + {s.id}
    ensures !(s.AddStep? && ParseEvent(s.event).Some?) ==> Next(reg, s).Keys == reg.Keys
  {
    match s
    case AddStep(id, event, key, endpoint) =>
    case RemoveStep(id) =>
    case ExitStep(id) =>
  }

  /** Nothing ever deletes an entry: the key set after any run is the initial
      key set plus exactly the ids of the valid `add` requests. */
  lemma {:induction false} RunKeys(reg: Registry, steps: seq<Step>)
    ensures Run(reg, steps).Keys == reg.Keys + AddedIds(steps)
    decreases |steps|
  {
    if steps != [] {
      NextKeys(reg, steps[0]);
      RunKeys(Next(reg, steps[0]), steps[1..]);
    }
  }

  /** Corollary: the key set only grows. */
  lemma RunKeysGrow(reg: Registry, steps: seq<Step>)
    ensures reg.Keys <= Run(reg, steps).Keys
  {
    RunKeys(reg, steps);
  }

  /** Every step stores workers only under their own subscription id. */
  lemma {:induction false} RunWellFormed(reg: Registry, steps: seq<Step>)
    requires WellFormed(reg)
    ensures WellFormed(Run(reg, steps))
    decreases |steps|
  {
    if steps != [] {
      var next := Next(reg, steps[0]);
      assert WellFormed(next) by {
        match steps[0]
        case AddStep(id, event, key, endpoint) =>
        case RemoveStep(id) =>
        case ExitStep(id) =>
      }
      RunWellFormed(next, steps[1..]);
    }
  }

  /** A second identical `add` while the first worker lives is refused and
      changes nothing: at most one running worker per id. */
  lemma AddTwice(reg: Registry, id: string, event: string, key: string, endpoint: string)
    requires ParseEvent(event).Some?
    ensures Add(reg, id, event, key, endpoint).Success?
    ensures var after := Add(reg, id, event, key, endpoint).value.registry;
            Add(after, id, event, key, endpoint) == Success(Outcome(AlreadyActive, after))
  {
  }

  /** `add` on a live id is refused whatever the other arguments are. */
  lemma AddToLiveIsNoop(reg: Registry, id: string, event: string, key: string, endpoint: string)
    requires id in reg && reg[id].alive
    ensures Add(reg, id, event, key, endpoint).Failure? ||
            Add(reg, id, event, key, endpoint) == Success(Outcome(AlreadyActive, reg))
  {
  }

  /** `remove` is idempotent on the registry, and since it never takes the
      entry away, a second call replies `ok` again once the id has an entry. */
  lemma RemoveTwice(reg: Registry, id: string)
    ensures var once := Remove(reg, id);
            var twice := Remove(once.registry, id);
            twice.registry == once.registry && (id in reg ==> twice.status == Ok)
  {
  }

  /** After `remove` the subscription is stopping or terminated, and a
      re-`add` is refused until the worker has actually exited. */
  lemma RemoveThenAdd(reg: Registry, id: string, event: string, key: string, endpoint: string)
    requires id in reg && ParseEvent(event).Some?
    ensures StateOf(Remove(reg, id).registry[id]) != Running
    ensures reg[id].alive ==>
              Add(Remove(reg, id).registry, id, event, key, endpoint).value.status == AlreadyActive
  {
  }

  /** Once the worker has exited, a re-`add` starts a new running worker. */
  lemma ReAddAfterExit(reg: Registry, id: string, event: string, key: string, endpoint: string)
    requires ParseEvent(event).Some?
    ensures var r := Add(WorkerExit(reg, id), id, event, key, endpoint);
            r.Success? && r.value.status == Ok && StateOf(r.value.registry[id]) == Running
  {
  }

  /** The full add-remove-exit lifecycle: a fresh id is served by a running
      worker, flagged by `remove`, and free for a new `add` after the exit. */
  lemma Lifecycle(reg: Registry, id: string, event: string, key: string, endpoint: string)
    requires id !in reg && ParseEvent(event).Some?
    ensures var r := Run(reg, [AddStep(id, event, key, endpoint)]);
            id in r && StateOf(r[id]) == Running
    ensures var r := Run(reg, [AddStep(id, event, key, endpoint), RemoveStep(id)]);
            id in r && StateOf(r[id]) == Stopping
    ensures var r := Run(reg, [AddStep(id, event, key, endpoint), RemoveStep(id), ExitStep(id)]);
            id in r && StateOf(r[id]) == Terminated
  {
    var add, rm, ex := AddStep(id, event, key, endpoint), RemoveStep(id), ExitStep(id);
    var r1 := Next(reg, add);
    var r2 := Next(r1, rm);
    var r3 := Next(r2, ex);
    assert Run(reg, [add]) == r1 by {
      assert [add][1..] == [];
    }
    assert Run(r2, [ex]) == r3 by {
      assert [ex][1..] == [];
    }
    assert Run(r1, [rm]) == r2 by {
      assert [rm][1..] == [];
    }
    assert Run(r1, [rm, ex]) == r3 by {
      assert [rm, ex][1..] == [ex];
    }
    assert Run(reg, [add, rm]) == r2 by {
      assert [add, rm][1..] == [rm];
    }
    assert Run(reg, [add, rm, ex]) == r3 by {
      assert [add, rm, ex][1..] == [rm, ex];
    }
  }

  /** `remove` never checks the event field; only `add` can fail on it. */
  lemma RemoveIgnoresEvent(reg: Registry, id: string, e1: string, e2: string, key: string, endpoint: string)
    ensures Listener(reg, "remove", Request(id, e1, key, endpoint)) ==
            Listener(reg, "remove", Request(id, e2, key, endpoint))
    ensures Listener(reg, "remove", Request(id, e1, key, endpoint)).Success?
  {
  }

  /** An `add` with an unsupported event leaves the registry as it was, even
      for an id with a terminated worker: the error is raised before the
      registry is read or written. */
  lemma RejectedAddLeavesRegistry(reg: Registry, id: string, event: string, key: string, endpoint: string)
    requires ParseEvent(event).None?
    ensures Next(reg, AddStep(id, event, key, endpoint)) == reg
    ensures Add(reg, id, event, key, endpoint).Failure?
  {
  }
}
