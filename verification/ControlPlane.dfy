/** The API server with its informer cache, and MAAS, as the controllers call
    them. Before every call any other actor may take any number of steps, the
    cache may catch up with any part of the run, and every call may fail; a
    failed write may or may not have been carried out. */
module ControlPlane {
  import opened Objects
  import opened World
  import opened Lifecycle
  import opened Accounting

  /** Run b continues run a with steps of actors other than `me`. */
  ghost predicate Foreign(me: Actor, a: seq<Step>, b: seq<Step>) {
    a <= b && forall i :: |a| <= i < |b| ==> b[i].actor != me
  }

  /** Run b continues run a with foreign steps and then the step `own`. */
  ghost predicate ForeignThen(me: Actor, a: seq<Step>, b: seq<Step>, own: Step) {
    b != [] && Foreign(me, a, b[..|b| - 1]) && b[|b| - 1] == own
  }

  /** The events of `me` from position `from` on. */
  function Own(me: Actor, log: seq<Step>, from: nat): seq<Event>
    requires from <= |log|
  {
    if from == |log| then []
    else Own(me, log[..|log| - 1], from) + if log[|log| - 1].actor == me then [log[|log| - 1].event] else []
  }

  /** Run b continues run a, and in between `me` did exactly `events`. */
  ghost predicate Follows(me: Actor, a: seq<Step>, b: seq<Step>, events: seq<Event>) {
    a <= b && Own(me, b, |a|) == events
  }

  lemma {:induction false} ForeignIsSilent(me: Actor, a: seq<Step>, b: seq<Step>)
    requires Foreign(me, a, b)
    ensures Follows(me, a, b, [])
  {
    if a != b {
      ForeignIsSilent(me, a, b[..|b| - 1]);
    }
  }

  lemma OneOwnStep(me: Actor, a: seq<Step>, b: seq<Step>, own: Step)
    requires ForeignThen(me, a, b, own) && own.actor == me
    ensures Follows(me, a, b, [own.event])
  {
    ForeignIsSilent(me, a, b[..|b| - 1]);
  }

  lemma {:induction false} FollowsTransitive(me: Actor, a: seq<Step>, b: seq<Step>, c: seq<Step>, e1: seq<Event>,
      e2: seq<Event>)
    requires Follows(me, a, b, e1) && Follows(me, b, c, e2)
    ensures Follows(me, a, c, e1 + e2)
    decreases |c|
  {
    if b == c {
      assert e1 + e2 == e1;
    } else {
      var front := c[..|c| - 1];
      FollowsTransitive(me, a, b, front, e1, Own(me, front, |b|));
      assert Own(me, c, |a|) == e1 + e2;
    }
  }

  lemma ForeignStepKeepsMaas(s: State, step: Step)
    requires step.actor != MachineController
    ensures Next(s, step).maas == s.maas
  {
  }

  lemma PermittedIgnoresMaas(actor: Actor, o: Machine, m: Machine, maas1: Maas, maas2: Maas)
    requires actor != MachineController && Permitted(actor, o, m, maas1)
    ensures Permitted(actor, o, m, maas2)
  {
  }

  lemma NextKeepsPast(s: State, step: Step)
    ensures s.past <= Next(s, step).past
  {
  }

  /** The update to m was carried out: it took the last finalizer of an object in
      deletion, or m is stored under the newest version. */
  predicate CarriedOut(s: State, m: Machine) {
    if m.deleting && m.finalizers == [] then m.key !in s.machines
    else m.key in s.machines && s.machines[m.key] == m.(version := s.revision) && s.machines[m.key] in s.past
  }

  /** The one own step of `me` stored c, a copy of m under a name never used before. */
  ghost predicate StoredAs(me: Actor, start: State, a: seq<Step>, b: seq<Step>, m: Machine, c: Machine) {
    && ForeignThen(me, a, b, Step(me, World.Create(c)))
    && Enabled(Exec(start, b[..|b| - 1]), Step(me, World.Create(c)))
    && c == m.(key := c.key, uid := c.uid, version := c.version) && c.key.ns == m.key.ns
    && (forall p :: p in Exec(start, b[..|b| - 1]).past ==> p.key != c.key)
  }

  /** The objects of a namespace, in any order. */
  method Listed(machines: map<Key, Machine>, ns: string) returns (items: seq<Machine>)
    requires forall k :: k in machines ==> machines[k].key == k
    ensures forall m :: m in items <==> m in machines.Values && m.key.ns == ns
    ensures forall m :: m in items ==> m.key in machines && machines[m.key] == m
    ensures forall i, j :: 0 <= i < j < |items| ==> items[i].key != items[j].key
  {
    items := [];
    var keys := machines.Keys;
    while keys != {}
      invariant keys <= machines.Keys
      invariant forall m :: m in items ==> m.key in machines && machines[m.key] == m && m.key.ns == ns && m.key !in keys
      invariant forall k :: k in machines && k !in keys && k.ns == ns ==> machines[k] in items
      invariant forall i, j :: 0 <= i < j < |items| ==> items[i].key != items[j].key
      decreases keys
    {
      var k :| k in keys;
      if k.ns == ns {
        assert forall x :: x in items ==> x.key != k;
        items := items + [machines[k]];
      }
      keys := keys - {k};
    }
  }

  /** What a started system reports about itself. */
  datatype Started = Started(ips: seq<string>, hostname: string)

  /** A call of a controller and what it was answered. */
  datatype Call =
    | GetCall(k: Key, got: Result<Machine, ApiError>)
    | ListCall(ns: string, listed: Result<seq<Machine>, ApiError>)
    | UpdateCall(m: Machine, updated: Result<Machine, ApiError>)
    | DeleteCall(k: Key, deleted: Result<(), ApiError>)
    | CreateCall(m: Machine, created: Result<Machine, ApiError>)
    | AllocateCall(tag: string, chosen: Result<string, ()>)
    | StartCall(systemId: string, userdata: string, distro: string, started: Result<Started, ()>)
    | ReleaseCall(systemId: string)

  /** A call that fails for a reason that is not the caller's: with a status, or
      without one. */
  method Failure() returns (e: ApiError)
    ensures e == Timeout || e == Transport
  {
    var status: bool := *;
    return if status then Timeout else Transport;
  }

  class Plane {
    const start: State
    var log: seq<Step>
    var state: State
    var seen: nat
    /** The updates that were carried out although the caller got an error. */
    var lost: set<Machine>
    /** The calls that were made here, with all their answers so far, oldest first. */
    var calls: seq<Call>

    ghost predicate Valid()
      reads this
    {
      Initial(start) && state == Exec(start, log) && seen <= |log|
    }

    constructor (free: set<string>, revision: nat)
      ensures Valid() && log == [] && state.maas.free == free && lost == {} && calls == []
    {
      start := State(map[], {}, revision, 0, Maas(free, {}, {}, {}, {}));
      log := [];
      state := State(map[], {}, revision, 0, Maas(free, {}, {}, {}, {}));
      seen, lost, calls := 0, {}, [];
    }

    /** What the informer cache currently shows: the store some steps ago. */
    function Cached(): State
      requires seen <= |log|
      reads this
    {
      Exec(start, log[..seen])
    }

    method Take(step: Step)
      requires Valid() && Enabled(state, step)
      modifies this`log, this`state
      ensures Valid() && log == old(log) + [step] && state == Next(old(state), step) && seen == old(seen)
      ensures old(state).past <= state.past
    {
      ExecSnoc(start, log, step);
      NextKeepsPast(state, step);
      log, state := log + [step], Next(state, step);
    }

    /** Other actors run, and the cache catches up with a part of the run. */
    method Others(me: Actor)
      requires Valid()
      modifies this`log, this`state, this`seen
      ensures Valid() && Foreign(me, old(log), log) && old(seen) <= seen
      ensures old(state).past <= state.past
      ensures me == MachineController ==> state.maas == old(state).maas
    {
      var rounds: nat := *;
      while rounds > 0
        invariant Valid() && Foreign(me, old(log), log) && old(seen) <= seen
        invariant old(state).past <= state.past
        invariant me == MachineController ==> state.maas == old(state).maas
      {
        var step: Step := *;
        if step.actor != me && Enabled(state, step) {
          if me == MachineController && step.actor != MachineController {
            ForeignStepKeepsMaas(state, step);
          }
          Take(step);
        }
        var caught: nat := *;
        if seen <= caught <= |log| {
          seen := caught;
        }
        rounds := rounds - 1;
      }
    }

    /** client.Get on the cache. */
    method Get(me: Actor, k: Key) returns (r: Result<Machine, ApiError>)
      requires Valid()
      modifies this`log, this`state, this`seen, this`calls
      ensures calls == old(calls) + [GetCall(k, r)]
      ensures Valid() && Foreign(me, old(log), log) && old(seen) <= seen
      ensures old(state).past <= state.past
      ensures me == MachineController ==> state.maas == old(state).maas
      ensures r.Ok? ==> k in Cached().machines && r.value == Cached().machines[k]
      ensures r.Ok? ==> r.value in state.past && r.value.key == k
      ensures r == Err(NotFound) ==> k !in Cached().machines
    {
      Others(me);
      var fails: bool := *;
      var failure := Failure();
      var cache := Cached();
      if fails {
        r := Err(failure);
      } else if k in cache.machines {
        RunKeepsInv(start, log[..seen]);
        PastMonotone(start, log, seen);
        r := Ok(cache.machines[k]);
      } else {
        r := Err(NotFound);
      }
      calls := calls + [GetCall(k, r)];
    }

    /** client.List on the cache: the machines of a namespace in any order. */
    method List(me: Actor, ns: string) returns (r: Result<seq<Machine>, ApiError>)
      requires Valid()
      modifies this`log, this`state, this`seen, this`calls
      ensures calls == old(calls) + [ListCall(ns, r)]
      ensures Valid() && Foreign(me, old(log), log) && old(seen) <= seen
      ensures old(state).past <= state.past
      ensures me == MachineController ==> state.maas == old(state).maas
      ensures r.Ok? ==> forall m :: m in r.value <==> m in Cached().machines.Values && m.key.ns == ns
      ensures r.Ok? ==> forall m :: m in r.value ==>
                m in state.past && m.key in Cached().machines && Cached().machines[m.key] == m
      ensures r.Ok? ==> forall i, j :: 0 <= i < j < |r.value| ==> r.value[i].key != r.value[j].key
    {
      Others(me);
      var fails: bool := *;
      if fails {
        var failure := Failure();
        r := Err(failure);
      } else {
        var cache := Cached();
        RunKeepsInv(start, log[..seen]);
        PastMonotone(start, log, seen);
        var items := Listed(cache.machines, ns);
        r := Ok(items);
      }
      calls := calls + [ListCall(ns, r)];
    }

    /** client.Update of `m`, which was derived from the copy `copy`. A write
        that changes nothing is accepted without a new version. */
    method Update(me: Actor, m: Machine, ghost copy: Machine)
        returns (r: Result<Machine, ApiError>, ghost applied: bool)
      requires Valid()
      requires copy in state.past && m.version == copy.version && m.key == copy.key
      requires m != copy ==> Permitted(me, copy, m, state.maas)
      modifies this
      ensures calls == old(calls) + [UpdateCall(m, r)]
      ensures Valid() && old(seen) <= seen && old(state).past <= state.past
      ensures !applied ==> Foreign(me, old(log), log)
      ensures applied ==>
                m != copy
                && ForeignThen(me, old(log), log, Step(me, Write(m)))
                && Enabled(Exec(start, log[..|log| - 1]), Step(me, Write(m)))
      ensures applied ==> CarriedOut(state, m)
      ensures r.Ok? ==>
                if m == copy then r.value == m && m.key in state.machines && state.machines[m.key] == m
                else applied && r.value == m.(version := state.revision)
      ensures me == MachineController ==>
                state.maas == if applied then MaasAfterWrite(old(state).maas, copy, m) else old(state).maas
      ensures lost == old(lost) + if applied && r.Err? then {m} else {}
    {
      Others(me);
      if me != MachineController && m != copy {
        PermittedIgnoresMaas(me, copy, m, old(state).maas, state.maas);
      }
      applied := false;
      var refused: bool := *;
      if refused {
        var failure := Failure();
        r := Err(failure);
      } else {
        label before:
        r, applied := Compare(me, m, copy);
        assert applied ==> log[..|log| - 1] == old@before(log);
      }
      calls := calls + [UpdateCall(m, r)];
    }

    /** The API server compares versions and carries the update out. */
    method Compare(me: Actor, m: Machine, ghost copy: Machine)
        returns (r: Result<Machine, ApiError>, ghost applied: bool)
      requires Valid() && copy in state.past && m.version == copy.version && m.key == copy.key
      requires m != copy ==> Permitted(me, copy, m, state.maas)
      modifies this`log, this`state, this`lost
      ensures Valid() && old(state).past <= state.past
      ensures !applied ==> log == old(log) && state.maas == old(state).maas
      ensures applied ==>
                && m != copy && log == old(log) + [Step(me, Write(m))] && Enabled(old(state), Step(me, Write(m)))
                && CarriedOut(state, m) && state.maas == MaasAfterWrite(old(state).maas, copy, m)
      ensures r.Ok? ==>
                if m == copy then r.value == m && m.key in state.machines && state.machines[m.key] == m
                else applied && r.value == m.(version := state.revision)
      ensures lost == old(lost) + if applied && r.Err? then {m} else {}
    {
      applied := false;
      if m.key !in state.machines {
        return Err(NotFound), false;
      }
      if state.machines[m.key].version != m.version {
        return Err(Conflict), false;
      }
      RunKeepsInv(start, log);
      VersionIdentifies(state, m.key, copy);
      if m != state.machines[m.key] {
        Accept(me, m);
        applied := true;
        var noReply: bool := *;
        if noReply {
          lost := lost + {m};
          return Err(Transport), true;
        }
        return Ok(m.(version := state.revision)), true;
      }
      return Ok(m), false;
    }

    /** The API server carries the update out. */
    method Accept(me: Actor, m: Machine)
      requires Valid() && Enabled(state, Step(me, Write(m)))
      modifies this`log, this`state
      ensures Valid() && old(state).past <= state.past
      ensures log == old(log) + [Step(me, Write(m))]
      ensures CarriedOut(state, m)
      ensures state.maas == MaasAfterWrite(old(state).maas, old(state).machines[m.key], m)
    {
      Take(Step(me, Write(m)));
    }

    /** client.Delete by name. An object already in deletion stays as it is. */
    method Delete(me: Actor, k: Key) returns (r: Result<(), ApiError>, ghost applied: bool)
      requires Valid() && me != ClusterController
      modifies this`log, this`state, this`seen, this`calls
      ensures calls == old(calls) + [DeleteCall(k, r)]
      ensures Valid() && old(seen) <= seen && old(state).past <= state.past
      ensures !applied ==> Foreign(me, old(log), log)
      ensures applied ==>
                ForeignThen(me, old(log), log, Step(me, World.Delete(k)))
                && Enabled(Exec(start, log[..|log| - 1]), Step(me, World.Delete(k)))
      ensures r.Ok? ==> k !in state.machines || state.machines[k].deleting
      ensures r == Err(NotFound) ==> !applied && k !in state.machines
      ensures me == MachineController ==> state.maas == old(state).maas
    {
      Others(me);
      var refused: bool := *;
      if refused {
        var failure := Failure();
        r, applied := Err(failure), false;
      } else {
        label before:
        r, applied := Mark(me, k);
        assert applied ==> log[..|log| - 1] == old@before(log);
      }
      calls := calls + [DeleteCall(k, r)];
    }

    /** The API server carries the deletion out. */
    method Mark(me: Actor, k: Key) returns (r: Result<(), ApiError>, ghost applied: bool)
      requires Valid() && me != ClusterController
      modifies this`log, this`state
      ensures Valid() && old(state).past <= state.past
      ensures !applied ==> log == old(log) && state == old(state)
      ensures applied ==>
                log == old(log) + [Step(me, World.Delete(k))] && Enabled(old(state), Step(me, World.Delete(k)))
      ensures r.Ok? ==> k !in state.machines || state.machines[k].deleting
      ensures r == Err(NotFound) ==> !applied && k !in state.machines
      ensures me == MachineController ==> state.maas == old(state).maas
    {
      if k !in state.machines {
        return Err(NotFound), false;
      }
      if state.machines[k].deleting {
        return Ok(()), false;
      }
      RunKeepsInv(start, log);
      Take(Step(me, World.Delete(k)));
      var noReply: bool := *;
      return if noReply then Err(Transport) else Ok(()), true;
    }

    /** client.Create with a generated name. The server's name generator is
        taken never to repeat a name; a repeated one is reported as a clash. */
    method Create(me: Actor, m: Machine) returns (r: Result<Machine, ApiError>, ghost applied: bool)
      requires Valid() && Creatable(me, m)
      modifies this`log, this`state, this`seen, this`calls
      ensures calls == old(calls) + [CreateCall(m, r)]
      ensures Valid() && old(seen) <= seen && old(state).past <= state.past
      ensures !applied ==> Foreign(me, old(log), log)
      ensures applied ==> exists c :: StoredAs(me, start, old(log), log, m, c) && (r.Ok? ==> r.value == c)
      ensures r.Ok? ==> applied && r.value.key in state.machines && state.machines[r.value.key] == r.value
      ensures me == MachineController ==> state.maas == old(state).maas
    {
      Others(me);
      var refused: bool := *;
      var name: string := *;
      var k := Key(m.key.ns, name);
      applied := false;
      if refused {
        var failure := Failure();
        r := Err(failure);
      } else if exists p :: p in state.past && p.key == k {
        r := Err(AlreadyExists);
      } else {
        RunKeepsInv(start, log);
        label before:
        var c := StoreUnder(me, m, k);
        assert log[..|log| - 1] == old@before(log);
        assert StoredAs(me, start, old(log), log, m, c);
        applied := true;
        var noReply: bool := *;
        r := if noReply then Err(Transport) else Ok(c);
      }
      calls := calls + [CreateCall(m, r)];
    }

    /** The API server stores a copy of m under a new name. */
    method StoreUnder(me: Actor, m: Machine, k: Key) returns (c: Machine)
      requires Valid() && Creatable(me, m) && k !in state.machines && k.ns == m.key.ns
      modifies this`log, this`state
      ensures Valid() && old(state).past <= state.past
      ensures c == m.(key := k, uid := c.uid, version := c.version)
      ensures log == old(log) + [Step(me, World.Create(c))] && Enabled(old(state), Step(me, World.Create(c)))
      ensures k in state.machines && state.machines[k] == c && state.maas == old(state).maas
    {
      c := m.(key := k, uid := state.nextUid, version := state.revision + 1);
      Take(Step(me, World.Create(c)));
    }

    // ---- MAAS ---------------------------------------------------------------

    /** Controller.AllocateMachine of a system with this tag. */
    method AllocateMachine(tag: string) returns (r: Result<string, ()>)
      requires Valid()
      modifies this`log, this`state, this`seen, this`calls
      ensures calls == old(calls) + [AllocateCall(tag, r)]
      ensures Valid() && old(seen) <= seen && old(state).past <= state.past
      ensures r.Err? ==> Foreign(MachineController, old(log), log) && state.maas == old(state).maas
      ensures r.Ok? ==>
                r.value != ""
                && ForeignThen(MachineController, old(log), log, Step(MachineController, Allocate(r.value)))
      ensures r.Ok? ==> state.maas == old(state).maas.(
                free := old(state).maas.free - {r.value},
                open := old(state).maas.open + {r.value},
                held := old(state).maas.held + {r.value})
    {
      Others(MachineController);
      var fails: bool := *;
      var x: string := *;
      if fails || x == "" {
        r := Err(());
      } else {
        label before:
        Take(Step(MachineController, Allocate(x)));
        assert log[..|log| - 1] == old@before(log);
        r := Ok(x);
      }
      calls := calls + [AllocateCall(tag, r)];
    }

    /** Machine.Start: deploys the image with this user data on the system. */
    method StartMachine(x: string, userdata: string, distro: string) returns (r: Result<Started, ()>)
      modifies this`calls
      ensures calls == old(calls) + [StartCall(x, userdata, distro, r)]
    {
      r := *;
      calls := calls + [StartCall(x, userdata, distro, r)];
    }

    /** Controller.ReleaseMachines. MAAS may refuse to free the system. */
    method ReleaseMachines(x: string, cause: Option<nat>) returns (freed: bool)
      requires Valid() && x != ""
      requires cause.Some? ==>
                 exists p :: p in state.past && p.uid == cause.value && p.phase == Deleting && p.systemId == x
      modifies this`log, this`state, this`seen, this`calls
      ensures calls == old(calls) + [ReleaseCall(x)]
      ensures Valid() && old(seen) <= seen && old(state).past <= state.past
      ensures ForeignThen(MachineController, old(log), log, Step(MachineController, Release(x, freed, cause)))
      ensures state.maas == old(state).maas.(
                free := if freed then old(state).maas.free + {x} else old(state).maas.free,
                open := old(state).maas.open - {x},
                held := old(state).maas.held - {x},
                releasedFor := if cause.Some? then old(state).maas.releasedFor + {cause.value}
                    else old(state).maas.releasedFor)
    {
      Others(MachineController);
      freed := *;
      label before:
      Take(Step(MachineController, Release(x, freed, cause)));
      assert log[..|log| - 1] == old@before(log);
      calls := calls + [ReleaseCall(x)];
    }

    /** The pass ends and forgets its local variables. */
    method FinishPass()
      requires Valid()
      modifies this`log, this`state
      ensures Valid() && old(state).past <= state.past
      ensures ForeignThen(MachineController, old(log), log, Step(MachineController, EndPass))
      ensures state.maas == old(state).maas.(held := {}, abandoned := old(state).maas.abandoned + old(state).maas.held)
    {
      Take(Step(MachineController, EndPass));
      assert log[..|log| - 1] == old(log);
    }
  }
}
