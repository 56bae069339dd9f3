/** The machine-set controller
    (pkg/controller/machineset/machineset_controller.go): one pass at a time,
    on a cache that may lag behind the store. */
module MachineSetControl {
  import opened Objects
  import opened World
  import opened ControlPlane
  import opened MachineSets
  import opened Fleet
  import opened SetCalls
  import Accounting
  import DeletePolicy
  import FanOut
  import Lifecycle
  import Selectors
  import Util

  predicate Fine(outcome: SetOutcome) {
    outcome == Done || outcome == RequeueNow
  }

  /** Steps of the set's controller from `from` on are updates of machines. */
  ghost predicate OnlyAdopts(uid: nat, log: seq<Step>, from: nat) {
    forall i :: from <= i < |log| && log[i].actor == MachineSetController(uid) ==> log[i].event.Write?
  }

  ghost predicate OnlyCreates(uid: nat, log: seq<Step>, from: nat) {
    forall i :: from <= i < |log| && log[i].actor == MachineSetController(uid) ==> log[i].event.Create?
  }

  /** The set's controller deletes only names under which the store once held a
      machine controlled by the set. */
  ghost predicate DeletesOwn(uid: nat, start: State, log: seq<Step>, from: nat) {
    forall i :: from <= i < |log| && log[i].actor == MachineSetController(uid) && log[i].event.Delete? ==>
      OnceControlled(Exec(start, log[..i]), log[i].event.key, uid)
  }

  /** While names are not reused, what it deletes is controlled by the set at
      that very moment, however old the list was. */
  lemma DeletionsHitTheSet(uid: nat, start: State, log: seq<Step>, from: nat, i: nat)
    requires Initial(start) && from <= i < |log| && DeletesOwn(uid, start, log, from)
    requires log[i].actor == MachineSetController(uid) && log[i].event.Delete?
    requires NamesNotReused(Exec(start, log[..i])) && log[i].event.key in Exec(start, log[..i]).machines
    ensures ControlledBy(Exec(start, log[..i]).machines[log[i].event.key], uid)
  {
    var s, k := Exec(start, log[..i]), log[i].event.key;
    Lifecycle.RunKeepsInv(start, log[..i]);
    var p :| p in s.past && p.key == k && ControlledBy(p, uid);
    CopyTellsController(s, p, k, uid);
  }

  /** A machine the pass works on: its copy is controlled by the set. */
  predicate Claimed(ms: MachineSet, s: State, m: Machine) {
    m in s.past && ControlledBy(m, ms.uid) && m.key.ns == ms.key.ns && !m.deleting
  }

  /** The name is in no state before position c. */
  ghost predicate AbsentBefore(start: State, log: seq<Step>, k: Key, c: nat) {
    forall j {:trigger log[..j]} :: 0 <= j < c && j <= |log| ==> k !in Exec(start, log[..j]).machines
  }

  ghost predicate ShownBy(start: State, log: seq<Step>, k: Key, seen: nat) {
    exists j {:trigger log[..j]} :: 0 <= j <= seen && j <= |log| && k in Exec(start, log[..j]).machines
  }

  lemma ShownLater(start: State, a: seq<Step>, b: seq<Step>, k: Key, seen: nat, later: nat)
    requires a <= b && seen <= later && ShownBy(start, a, k, seen)
    ensures ShownBy(start, b, k, later)
  {
    var j :| 0 <= j <= seen && j <= |a| && k in Exec(start, a[..j]).machines;
    assert a[..j] == b[..j];
  }

  /** A cache that shows a machine created at position c has seen position c. */
  lemma ShownMeansSeen(start: State, a: seq<Step>, b: seq<Step>, k: Key, seen: nat)
    requires a <= b && AbsentBefore(start, a, k, |a|) && ShownBy(start, b, k, seen)
    ensures |a| <= seen
  {
    var j :| 0 <= j <= seen && j <= |b| && k in Exec(start, b[..j]).machines;
    assert j <= |a| ==> a[..j] == b[..j];
  }

  /** The cache has shown each of the machines. */
  ghost predicate AllShown(start: State, log: seq<Step>, list: seq<Machine>, seen: nat) {
    forall m :: m in list ==> ShownBy(start, log, m.key, seen)
  }

  lemma OneMoreShown(start: State, a: seq<Step>, b: seq<Step>, list: seq<Machine>, i: nat, seen: nat, later: nat)
    requires a <= b && seen <= later && i < |list| && AllShown(start, a, list[..i], seen)
    requires ShownBy(start, b, list[i].key, later)
    ensures AllShown(start, b, list[..i + 1], later)
  {
    assert list[..i + 1] == list[..i] + [list[i]];
    forall m | m in list[..i]
      ensures ShownBy(start, b, m.key, later)
    {
      ShownLater(start, a, b, m.key, seen, later);
    }
  }

  lemma OneMoreCreationPoll(list: seq<Machine>, i: nat, polls: seq<seq<Call>>, looks: seq<Call>, ok: bool)
    requires i < |list| && WaitedCreation(list[..i], polls, true) && CreationPoll(list[i].key, looks, ok)
    ensures WaitedCreation(if ok then list[..i + 1] else list, polls + [looks], ok)
  {
    forall j | 0 <= j < i
      ensures CreationPoll(list[j].key, polls[j], true)
    {
      assert list[..i][j] == list[j];
    }
  }

  lemma OneMoreDeletionPoll(list: seq<Machine>, i: nat, polls: seq<seq<Call>>, looks: seq<Call>, ok: bool)
    requires i < |list| && WaitedDeletion(list[..i], polls, true) && DeletionPoll(list[i].key, looks, ok)
    ensures WaitedDeletion(if ok then list[..i + 1] else list, polls + [looks], ok)
  {
    forall j | 0 <= j < i
      ensures DeletionPoll(list[j].key, polls[j], true)
    {
      assert list[..i][j] == list[j];
    }
  }

  lemma NewNameWasAbsent(start: State, log: seq<Step>, k: Key)
    requires Initial(start) && log != []
    requires forall p :: p in Exec(start, log[..|log| - 1]).past ==> p.key != k
    ensures AbsentBefore(start, log, k, |log|)
  {
    var before := log[..|log| - 1];
    forall j {:trigger log[..j]} | 0 <= j < |log|
      ensures k !in Exec(start, log[..j]).machines
    {
      assert before[..j] == log[..j];
      Accounting.PastMonotone(start, before, j);
      Lifecycle.RunKeepsInv(start, log[..j]);
    }
  }

  lemma StoredAdds(ms: MachineSet, start: State, a: seq<Step>, b: seq<Step>, m: Machine, c: Machine)
    requires StoredAs(MachineSetController(ms.uid), start, a, b, m, c) && m.key.ns == ms.key.ns
    requires !ShouldExclude(ms, m) && Controllers(m.owners) != [] && FromTemplate(ms, m)
    ensures OnlyAdds(ms, start, b, |a|)
  {
    assert ShouldExclude(ms, c) == ShouldExclude(ms, m);
    assert AddsAt(ms, start, b, |b| - 1);
  }

  lemma CreationAdds(ms: MachineSet, start: State, a: seq<Step>, b: seq<Step>, m: Machine, r: Result<Machine, ApiError>)
    requires Initial(start) && m.key.ns == ms.key.ns && Controllers(m.owners) != [] && FromTemplate(ms, m)
    requires !ShouldExclude(ms, m) <==> !Selectors.Empty(ms.selector)
    requires exists c :: StoredAs(MachineSetController(ms.uid), start, a, b, m, c) && (r.Ok? ==> r.value == c)
    ensures OnlyCreates(ms.uid, b, |a|)
    ensures !Selectors.Empty(ms.selector) ==> OnlyAdds(ms, start, b, |a|)
    ensures r.Ok? ==>
              && Follows(MachineSetController(ms.uid), a, b, [World.Create(r.value)])
              && AbsentBefore(start, b, r.value.key, |b|)
  {
    var me := MachineSetController(ms.uid);
    var c :| StoredAs(MachineSetController(ms.uid), start, a, b, m, c) && (r.Ok? ==> r.value == c);
    if !Selectors.Empty(ms.selector) {
      StoredAdds(ms, start, a, b, m, c);
    }
    OneOwnStep(me, a, b, Step(me, World.Create(c)));
    NewNameWasAbsent(start, b, c.key);
  }

  // ---- Adopting twice ---------------------------------------------------------------

  /** The store has held the machine with a controller. */
  ghost predicate AlreadyControlled(s: State, m: Machine) {
    exists p :: p in s.past && p.uid == m.uid && Controllers(p.owners) != []
  }

  /** An update derived from a copy without a controller is accepted only while
      the machine has never had one. */
  lemma AcceptedMeansOrphan(s: State, copy: Machine, m: Machine)
    requires Lifecycle.Inv(s) && copy in s.past && m.key == copy.key && m.version == copy.version
    requires m.key in s.machines && s.machines[m.key].version == m.version && Controllers(copy.owners) == []
    ensures !AlreadyControlled(s, copy)
  {
    Lifecycle.VersionIdentifies(s, m.key, copy);
    forall p | p in s.past && p.uid == copy.uid
      ensures Controllers(p.owners) == []
    {
      Lifecycle.StoredIsLatest(s, m.key, p);
    }
  }

  lemma AdoptionIsPermitted(ms: MachineSet, machine: Machine, m: Machine, maas: Maas)
    requires Controllers(machine.owners) == [] && m == machine.(owners := machine.owners + [ControllerRef(ms)])
    ensures Permitted(MachineSetController(ms.uid), machine, m, maas) && ControlledBy(m, ms.uid) && m != machine
  {
    ControllersAppend(machine.owners, ControllerRef(ms));
    assert |m.owners| == |machine.owners| + 1;
  }

  lemma OneWriteAdopts(uid: nat, a: seq<Step>, b: seq<Step>, m: Machine)
    requires ForeignThen(MachineSetController(uid), a, b, Step(MachineSetController(uid), Write(m)))
    ensures a <= b && OnlyAdopts(uid, b, |a|)
  {
  }

  lemma AcceptedAdoption(start: State, a: seq<Step>, b: seq<Step>, uid: nat, copy: Machine, m: Machine)
    requires Initial(start) && copy in Exec(start, a).past && Controllers(copy.owners) == []
    requires m.key == copy.key && m.version == copy.version
    requires ForeignThen(MachineSetController(uid), a, b, Step(MachineSetController(uid), Write(m)))
    requires Enabled(Exec(start, b[..|b| - 1]), Step(MachineSetController(uid), Write(m)))
    ensures !AlreadyControlled(Exec(start, a), copy)
  {
    var before := b[..|b| - 1];
    assert before[..|a|] == a;
    Accounting.PastMonotone(start, before, |a|);
    Lifecycle.RunKeepsInv(start, before);
    AcceptedMeansOrphan(Exec(start, before), copy, m);
  }

  /** The list shows the machines of the set as the store holds them, but for o:
      the store knows of its adoption, and the list does not yet. */
  ghost predicate StaleList(ms: MachineSet, s: State, all: seq<Machine>, o: Machine) {
    && o in all && WouldAdopt(ms, o) && AlreadyControlled(s, o) && o.key in Kept(ms, s)
    && (forall m :: m in all && m != o && !ShouldExclude(ms, m) ==> Controllers(m.owners) != [] && m.key in Kept(ms, s))
    && (forall k :: k in Kept(ms, s) && k != o.key ==> k in Keys(Counted(ms, all)))
  }

  /** The listed machines that the set controls. */
  function Counted(ms: MachineSet, all: seq<Machine>): (r: seq<Machine>)
    ensures forall m :: m in r <==> m in all && !ShouldExclude(ms, m) && Controllers(m.owners) != []
  {
    if all == [] then []
    else
      var m := all[|all| - 1];
      Counted(ms, all[..|all| - 1]) + if !ShouldExclude(ms, m) && Controllers(m.owners) != [] then [m] else []
  }

  lemma CountedAreOthers(ms: MachineSet, s: State, all: seq<Machine>, o: Machine, m: Machine)
    requires StaleList(ms, s, all, o) && DistinctKeys(all) && m in Counted(ms, all)
    ensures m.key in Kept(ms, s) && m.key != o.key
  {
    var i :| 0 <= i < |all| && all[i] == m;
    var j :| 0 <= j < |all| && all[j] == o;
    assert all[i].key != all[j].key;
  }

  lemma CountedAreKept(ms: MachineSet, t: State, all: seq<Machine>, kept: seq<Machine>, m: Machine)
    requires Filtered(ms, t, all, |all|, kept) && m in Counted(ms, all)
    ensures m in kept
  {
    var i :| 0 <= i < |all| && all[i] == m;
  }

  /** From such a list one machine too few is kept. */
  lemma StaleListKeepsTooFew(ms: MachineSet, s: State, t: State, all: seq<Machine>, o: Machine, kept: seq<Machine>)
    requires StaleList(ms, s, all, o) && DistinctKeys(all) && Filtered(ms, t, all, |all|, kept)
    requires forall m :: m in kept ==> m in Counted(ms, all)
    ensures |kept| == |Kept(ms, s)| - 1
  {
    forall m | m in kept
      ensures m.key in Kept(ms, s) && m.key != o.key
    {
      CountedAreOthers(ms, s, all, o, m);
    }
    forall m | m in Counted(ms, all)
      ensures m in kept
    {
      CountedAreKept(ms, t, all, kept, m);
    }
    KeysMonotone(Counted(ms, all), kept);
    assert Keys(kept) == Kept(ms, s) - {o.key};
    KeysCount(kept);
  }

  // ---- The loop of filterMachines -----------------------------------------------------

  /** m is kept for the listed machine o: o itself, or o adopted. */
  predicate KeptFor(ms: MachineSet, o: Machine, m: Machine) {
    && !ShouldExclude(ms, o) && m.key == o.key && m.uid == o.uid
    && (Controllers(o.owners) != [] ==> m == o)
  }

  /** The first n listed machines were filtered into `kept`. */
  ghost predicate Filtered(ms: MachineSet, s: State, all: seq<Machine>, n: nat, kept: seq<Machine>)
    requires n <= |all|
  {
    && DistinctKeys(kept)
    && (forall m :: m in kept ==> Claimed(ms, s, m) && exists j :: 0 <= j < n && KeptFor(ms, all[j], m))
    && (forall j :: 0 <= j < n && !ShouldExclude(ms, all[j]) && Controllers(all[j].owners) != [] ==> all[j] in kept)
  }

  lemma FilterSkips(ms: MachineSet, s: State, t: State, all: seq<Machine>, n: nat, kept: seq<Machine>)
    requires n < |all| && Filtered(ms, s, all, n, kept) && s.past <= t.past
    requires ShouldExclude(ms, all[n]) || Controllers(all[n].owners) == []
    ensures Filtered(ms, t, all, n + 1, kept)
  {
  }

  lemma FilterKeeps(ms: MachineSet, s: State, t: State, all: seq<Machine>, n: nat, kept: seq<Machine>, m: Machine)
    requires n < |all| && Filtered(ms, s, all, n, kept) && s.past <= t.past
    requires DistinctKeys(all) && KeptFor(ms, all[n], m) && Claimed(ms, t, m)
    ensures Filtered(ms, t, all, n + 1, kept + [m])
  {
    forall x | x in kept + [m]
      ensures Claimed(ms, t, x) && exists j :: 0 <= j < n + 1 && KeptFor(ms, all[j], x)
    {
      if x in kept {
        var j :| 0 <= j < n && KeptFor(ms, all[j], x);
      }
    }
    forall i | 0 <= i < |kept|
      ensures kept[i].key != m.key
    {
      assert kept[i] in kept;
      var j :| 0 <= j < n && KeptFor(ms, all[j], kept[i]);
    }
  }

  /** From a list without orphans exactly the machines of the set are kept. */
  lemma FilteredExactly(ms: MachineSet, s: State, cache: State, all: seq<Machine>, kept: seq<Machine>)
    requires Lifecycle.StoreOk(cache) && NoOrphans(ms, cache)
    requires forall m :: m in all <==> m in cache.machines.Values && m.key.ns == ms.key.ns
    requires Filtered(ms, s, all, |all|, kept)
    ensures Keys(kept) == Kept(ms, cache) && |kept| == |Kept(ms, cache)|
  {
    forall k | k in Kept(ms, cache)
      ensures k in Keys(kept)
    {
      var o := cache.machines[k];
      assert o in cache.machines.Values;
      var j :| 0 <= j < |all| && all[j] == o;
      assert all[j] in kept;
    }
    forall m | m in kept
      ensures m.key in Kept(ms, cache)
    {
      var j :| 0 <= j < |all| && KeptFor(ms, all[j], m);
      assert all[j] in all;
      assert m.key in cache.machines;
    }
    KeysCount(kept);
  }

  lemma ListHasNoOrphans(ms: MachineSet, cache: State, all: seq<Machine>)
    requires Lifecycle.StoreOk(cache) && NoOrphans(ms, cache)
    requires forall m :: m in all <==> m in cache.machines.Values && m.key.ns == ms.key.ns
    ensures forall o :: o in all ==> !WouldAdopt(ms, o)
  {
    forall o | o in all
      ensures !WouldAdopt(ms, o)
    {
      assert o.key in cache.machines;
      assert WouldAdopt(ms, o) ==> o.key in Kept(ms, cache);
    }
  }

  /** What was kept for the first listed machines was kept for them. */
  ghost predicate StepsKeep(ms: MachineSet, all: seq<Machine>, steps: seq<Filtering>)
    requires |steps| <= |all|
  {
    forall i :: 0 <= i < |steps| && steps[i].kept.Some? ==> KeptFor(ms, all[i], steps[i].kept.value)
  }

  /** The first n listed machines were filtered by these steps, after the calls
      c0. */
  ghost predicate Stepped(ms: MachineSet, all: seq<Machine>, n: nat, c0: seq<Call>, calls: seq<Call>,
                          steps: seq<Filtering>, kept: seq<Machine>)
    requires n <= |all|
  {
    && FilterTrace(ms, all[..n], steps) && StepsKeep(ms, all, steps)
    && calls == c0 + CallsOf(steps) && kept == KeptOf(steps)
  }

  lemma OneMoreStep(ms: MachineSet, all: seq<Machine>, i: nat, c0: seq<Call>, steps: seq<Filtering>,
                    kept: seq<Machine>, f: Filtering)
    requires i < |all| && Stepped(ms, all, i, c0, c0 + CallsOf(steps), steps, kept) && Filters(ms, all[i], f)
    requires f.kept.Some? ==> KeptFor(ms, all[i], f.kept.value)
    ensures Stepped(ms, all, i + 1, c0, c0 + CallsOf(steps) + (if f.made.Some? then [f.made.value] else []),
                    steps + [f], kept + (if f.kept.Some? then [f.kept.value] else []))
  {
    OneFiltered(ms, all, i, steps, f);
    var made := if f.made.Some? then [f.made.value] else [];
    assert c0 + CallsOf(steps) + made == c0 + (CallsOf(steps) + made);
  }

  lemma AllStepped(ms: MachineSet, s: State, all: seq<Machine>, c0: seq<Call>, calls: seq<Call>,
                   steps: seq<Filtering>, kept: seq<Machine>)
    requires Stepped(ms, all, |all|, c0, calls, steps, kept) && Filtered(ms, s, all, |all|, kept)
    ensures FilterTrace(ms, all, steps) && calls == c0 + CallsOf(steps) && kept == KeptOf(steps)
    ensures AdoptsAll(ms, s, all, steps, kept)
  {
    assert all[..|all|] == all;
    if AllAccepted(CallsOf(steps)) {
      AllWantedAreCounted(ms, all, steps);
      EveryOneKept(ms, s, all, steps, kept);
    }
  }

  lemma FilterGoesOn(ms: MachineSet, s: State, t: State, all: seq<Machine>, n: nat, kept: seq<Machine>,
                     one: Option<Machine>)
    requires n < |all| && Filtered(ms, s, all, n, kept) && s.past <= t.past && DistinctKeys(all)
    requires if one.None? then ShouldExclude(ms, all[n]) || Controllers(all[n].owners) == []
             else KeptFor(ms, all[n], one.value) && Claimed(ms, t, one.value)
    ensures Filtered(ms, t, all, n + 1, if one.None? then kept else kept + [one.value])
  {
    if one.None? {
      FilterSkips(ms, s, t, all, n, kept);
    } else {
      FilterKeeps(ms, s, t, all, n, kept, one.value);
    }
  }

  /** Without an orphan in the list nothing is written. */
  ghost predicate Untouched(ms: MachineSet, all: seq<Machine>, a: seq<Step>, b: seq<Step>) {
    (forall o :: o in all ==> !WouldAdopt(ms, o)) ==> b == a
  }

  /** Every listed machine that is not excluded is among those kept, where the set
      controls it. */
  ghost predicate AllKept(ms: MachineSet, s: State, all: seq<Machine>, kept: seq<Machine>) {
    forall o :: o in all && !ShouldExclude(ms, o) ==>
      exists m :: m in kept && KeptFor(ms, o, m) && Claimed(ms, s, m)
  }

  /** If no update was refused, every listed machine that is not excluded, orphan or
      not, is controlled by the set and counted. */
  ghost predicate AdoptsAll(ms: MachineSet, s: State, all: seq<Machine>, steps: seq<Filtering>, kept: seq<Machine>) {
    AllAccepted(CallsOf(steps)) ==> |kept| == |Wanted(ms, all)| && AllKept(ms, s, all, kept)
  }

  lemma AdoptsAllLater(ms: MachineSet, s: State, t: State, all: seq<Machine>, steps: seq<Filtering>, kept: seq<Machine>)
    requires AdoptsAll(ms, s, all, steps, kept) && s.past <= t.past
    ensures AdoptsAll(ms, t, all, steps, kept)
  {
    if AllAccepted(CallsOf(steps)) {
      forall o | o in all && !ShouldExclude(ms, o)
        ensures exists m :: m in kept && KeptFor(ms, o, m) && Claimed(ms, t, m)
      {
        var m :| m in kept && KeptFor(ms, o, m) && Claimed(ms, s, m);
      }
    }
  }

  lemma EveryOneKept(ms: MachineSet, s: State, all: seq<Machine>, steps: seq<Filtering>, kept: seq<Machine>)
    requires FilterTrace(ms, all, steps) && StepsKeep(ms, all, steps) && AllAccepted(CallsOf(steps))
    requires kept == KeptOf(steps) && Filtered(ms, s, all, |all|, kept)
    ensures AllKept(ms, s, all, kept)
  {
    forall o | o in all && !ShouldExclude(ms, o)
      ensures exists m :: m in kept && KeptFor(ms, o, m) && Claimed(ms, s, m)
    {
      var i :| 0 <= i < |all| && all[i] == o;
      StepOfCalls(steps, i);
      assert Filters(ms, all[i], steps[i]);
      assert steps[i].kept.Some? && steps[i].kept.value in kept;
    }
  }

  /** Worker i has got the answer to its call, and it was no error. */
  predicate Succeeded(f: FanOut.Fan, i: nat) {
    i < |f.workers| && (f.workers[i] == FanOut.Leaving || f.workers[i] == FanOut.Exited) && i !in f.failed
  }

  /** The machine of every worker that succeeded has left the set. */
  ghost predicate Reported(ms: MachineSet, start: State, log: seq<Step>, from: nat, chosen: seq<Machine>,
                           f: FanOut.Fan)
  {
    forall i {:trigger Succeeded(f, i)} :: 0 <= i < |chosen| && Succeeded(f, i) ==>
      MissingBetween(ms, start, log, chosen[i].key, from, |log|)
  }

  lemma MissingWider(ms: MachineSet, start: State, log: seq<Step>, k: Key, late: nat, early: nat, to: nat)
    requires early <= late && MissingBetween(ms, start, log, k, late, to)
    ensures MissingBetween(ms, start, log, k, early, to)
  {
    var i :| late <= i <= to && i <= |log| && MissingAt(ms, start, log, k, i);
  }

  /** Each of the machines was missing from the set at some moment in between. */
  ghost predicate AllMissed(ms: MachineSet, start: State, log: seq<Step>, list: seq<Machine>, from: nat, to: nat) {
    forall m :: m in list ==> MissingBetween(ms, start, log, m.key, from, to)
  }

  lemma MissedLater(ms: MachineSet, start: State, a: seq<Step>, b: seq<Step>, list: seq<Machine>, from: nat, to: nat,
      later: nat)
    requires a <= b && to <= later && AllMissed(ms, start, a, list, from, to)
    ensures AllMissed(ms, start, b, list, from, later)
  {
    forall m | m in list
      ensures MissingBetween(ms, start, b, m.key, from, later)
    {
      MissingLater(ms, start, a, b, m.key, from, to, later);
    }
  }

  lemma MissedOneMore(ms: MachineSet, start: State, a: seq<Step>, b: seq<Step>, list: seq<Machine>, i: nat,
                      from: nat, to: nat, later: nat)
    requires a <= b && to <= later && i < |list| && AllMissed(ms, start, a, list[..i], from, to)
    requires MissingBetween(ms, start, b, list[i].key, from, later)
    ensures AllMissed(ms, start, b, list[..i + 1], from, later)
  {
    MissedLater(ms, start, a, b, list[..i], from, to, later);
    assert list[..i + 1] == list[..i] + [list[i]];
  }

  lemma ReportedAfter(ms: MachineSet, start: State, a: seq<Step>, b: seq<Step>, from: nat, chosen: seq<Machine>,
                      f: FanOut.Fan, move: FanOut.Move)
    requires a <= b && FanOut.FanOk(f) && FanOut.CanMove(f, move) && |f.workers| == |chosen|
    requires Reported(ms, start, a, from, chosen, f)
    requires move.Return? && move.ok ==> MissingBetween(ms, start, b, chosen[move.i].key, from, |b|)
    ensures Reported(ms, start, b, from, chosen, FanOut.DoMove(f, move))
  {
    var g := FanOut.DoMove(f, move);
    forall i | 0 <= i < |chosen| && Succeeded(g, i)
      ensures MissingBetween(ms, start, b, chosen[i].key, from, |b|)
    {
      if i != move.i || !move.Return? {
        assert Succeeded(f, i);
        MissingLater(ms, start, a, b, chosen[i].key, from, |a|, |b|);
      }
    }
  }

  // ---- The books of the parallel delete ---------------------------------------------------

  /** The worker's call was answered. */
  predicate Returned(w: FanOut.Worker) {
    w == FanOut.Sending || w == FanOut.Leaving || w == FanOut.Exited
  }

  /** What was asked in one move: the deletion of the machine of the worker that
      returned. */
  ghost predicate Asked(chosen: seq<Machine>, f: FanOut.Fan, move: FanOut.Move, failure: Option<ApiError>,
                        asked: seq<Call>)
    requires |f.workers| == |chosen|
  {
    if move.Return? && move.i < |chosen| then
      |asked| == 1 && asked[0].DeleteCall? && asked[0].k == chosen[move.i].key
      && if failure.Some? then asked[0].deleted == Err(failure.value) else asked[0].deleted.Ok?
    else
      asked == [] && failure.None?
  }

  /** The calls so far are those of the workers that have returned, and the errors
      kept are their answers. */
  ghost predicate Bookkept(chosen: seq<Machine>, f: FanOut.Fan, order: seq<nat>, made: seq<Call>,
                           errors: map<nat, ApiError>)
  {
    && Deletions(chosen, order, made)
    && (forall i :: 0 <= i < |f.workers| ==> (i in order <==> Returned(f.workers[i])))
    && (forall i :: i in f.failed ==> i in order)
    && (forall j :: 0 <= j < |made| ==> Entered(f, order, made, errors, j))
  }

  predicate Entered(f: FanOut.Fan, order: seq<nat>, made: seq<Call>, errors: map<nat, ApiError>, j: nat)
    requires |order| == |made| && j < |made|
  {
    && made[j].DeleteCall? && (order[j] in f.failed <==> made[j].deleted.Err?)
    && (made[j].deleted.Err? ==> order[j] in errors && errors[order[j]] == made[j].deleted.error)
  }

  lemma OneMoreEntry(chosen: seq<Machine>, f: FanOut.Fan, order: seq<nat>, made: seq<Call>,
                     errors: map<nat, ApiError>, move: FanOut.Move, failure: Option<ApiError>, asked: seq<Call>)
    requires |f.workers| == |chosen| && FanOut.CanMove(f, move) && Bookkept(chosen, f, order, made, errors)
    requires Asked(chosen, f, move, failure, asked) && (move.Return? ==> move.ok == failure.None?)
    ensures Bookkept(chosen, FanOut.DoMove(f, move), order + if move.Return? then [move.i] else [], made + asked,
                     if failure.Some? then errors[move.i := failure.value] else errors)
  {
    var g := FanOut.DoMove(f, move);
    if move.Return? {
      var more, all := order + [move.i], made + asked;
      assert move.i !in order && move.i in more;
      assert more[|order|] == move.i;
      var errors2 := if failure.Some? then errors[move.i := failure.value] else errors;
      forall j | 0 <= j < |all|
        ensures Entered(g, more, all, errors2, j)
      {
        if j < |made| {
          assert Entered(f, order, made, errors, j) && order[j] in order;
        }
      }
    } else {
      assert made + asked == made && order + [] == order;
      forall j | 0 <= j < |made|
        ensures Entered(g, order, made, errors, j)
      {
        assert Entered(f, order, made, errors, j);
      }
    }
  }

  /** Once all workers have left, each of them has one entry. */
  lemma BooksClosed(chosen: seq<Machine>, f: FanOut.Fan, order: seq<nat>, made: seq<Call>, errors: map<nat, ApiError>)
    requires |f.workers| == |chosen| && FanOut.AllExited(f) && Bookkept(chosen, f, order, made, errors)
    ensures |order| == |chosen|
    ensures f.failed != {} <==> SomeRefused(made)
    ensures forall i :: i in f.failed ==>
              i in errors && exists j :: 0 <= j < |made| && made[j].DeleteCall? && made[j].deleted == Err(errors[i])
  {
    FanOut.BoundedSequence(order, |chosen|);
    CoversAll(order, |chosen|);
    forall i | i in f.failed
      ensures i in errors && exists j :: 0 <= j < |made| && made[j].DeleteCall? && made[j].deleted == Err(errors[i])
    {
      var j :| 0 <= j < |order| && order[j] == i;
      assert Entered(f, order, made, errors, j);
    }
    if SomeRefused(made) {
      var j :| 0 <= j < |made| && made[j].DeleteCall? && made[j].deleted.Err?;
      assert Entered(f, order, made, errors, j);
      assert order[j] in f.failed;
    }
  }

  lemma {:induction false} CoversAll(order: seq<nat>, n: nat)
    requires forall i: nat :: i < n ==> i in order
    ensures n <= |order|
  {
    if n > 0 {
      var last: nat := n - 1;
      assert last in order;
      var j :| 0 <= j < |order| && order[j] == last;
      var rest := order[..j] + order[j + 1..];
      forall i: nat | i < n - 1
        ensures i in rest
      {
        assert i in order;
        var k :| 0 <= k < |order| && order[k] == i;
        assert if k < j then rest[k] == i else rest[k - 1] == i;
      }
      CoversAll(rest, n - 1);
    }
  }

  /** None of those left should have been chosen before one that was. */
  ghost predicate Preferred(chosen: seq<Machine>, left: seq<Machine>) {
    forall c, r :: c in chosen && r in left ==> DeletePolicy.MayGoBefore(c, r)
  }

  lemma AllReported(ms: MachineSet, start: State, log: seq<Step>, from: nat, chosen: seq<Machine>, f: FanOut.Fan)
    requires Reported(ms, start, log, from, chosen, f) && |f.workers| == |chosen|
    requires FanOut.AllExited(f) && f.failed == {}
    ensures AllMissed(ms, start, log, chosen, from, |log|)
  {
    forall m | m in chosen
      ensures MissingBetween(ms, start, log, m.key, from, |log|)
    {
      var i :| 0 <= i < |chosen| && chosen[i] == m;
      assert Succeeded(f, i);
    }
  }

  // ---- What a successful sync did ------------------------------------------------------

  /** The sync of `n` machines continued run a to run b: either it created what
      was missing and the cache has seen it, or it deleted the chosen machines,
      and after `before` the cache has shown each of them gone. */
  ghost predicate SyncDone(ms: MachineSet, start: State, a: seq<Step>, b: seq<Step>, before: nat, seen: nat,
                           n: nat, chosen: seq<Machine>) {
    && a <= b && seen <= |b|
    && if n < ms.replicas then
         && OnlyAdds(ms, start, b, |a|) && |a| <= seen
         && |Own(MachineSetController(ms.uid), b, |a|)| == ms.replicas - n
         && CaughtUp(MachineSetController(ms.uid), b, seen)
       else
         && |chosen| == n - ms.replicas && DistinctKeys(chosen)
         && OnlyDeletes(ms.uid, b, |a|, Keys(chosen))
         && AllMissed(ms, start, b, chosen, |a|, |b|) && AllMissed(ms, start, b, chosen, before, seen)
         && (chosen == [] ==> a == b && before <= seen)
  }

  /** Exactly what a successful sync does to the set, however stale the list of
      n machines was: it adds as many machines as seemed to be missing, or takes
      away the chosen ones. */
  lemma SyncIsExact(ms: MachineSet, start: State, a: seq<Step>, b: seq<Step>, before: nat, seen: nat, n: nat,
      chosen: seq<Machine>)
    requires Initial(start) && SyncDone(ms, start, a, b, before, seen, n, chosen)
    requires Calm(ms, start, b, |a|)
    ensures n < ms.replicas ==> Grows(Look(ms, Exec(start, a)), Look(ms, Exec(start, b)), ms.replicas - n)
    ensures n >= ms.replicas ==> Kept(ms, Exec(start, b)) == Kept(ms, Exec(start, a)) - Keys(chosen)
  {
    ViewPrefix(ms, start, a, b, |a|);
    ViewPrefix(ms, start, b, b, |b|);
    if n < ms.replicas {
      AddsCount(ms, start, b, |a|);
    } else {
      forall k | k in Keys(chosen)
        ensures MissingBetween(ms, start, b, k, |a|, |b|)
      {
        var m :| m in chosen && m.key == k;
      }
      AllMissing(ms, start, b, |a|, Keys(chosen), |b|, |b|);
    }
  }

  /** Scaling up from a list of n machines reaches the wanted number if and only
      if n was the true number. */
  lemma ScaleUpIsRightIff(ms: MachineSet, start: State, a: seq<Step>, b: seq<Step>, before: nat, seen: nat, n: nat,
      chosen: seq<Machine>)
    requires Initial(start) && SyncDone(ms, start, a, b, before, seen, n, chosen)
    requires Calm(ms, start, b, |a|) && n < ms.replicas
    ensures |Kept(ms, Exec(start, b))| == ms.replicas <==> |Kept(ms, Exec(start, a))| == n
  {
    SyncIsExact(ms, start, a, b, before, seen, n, chosen);
  }

  /** Scaling down reaches it if and only if the true number of machines exceeds
      the wanted one by those of the chosen that were still there. */
  lemma ScaleDownIsRightIff(ms: MachineSet, start: State, a: seq<Step>, b: seq<Step>, before: nat, seen: nat, n: nat,
      chosen: seq<Machine>)
    requires Initial(start) && SyncDone(ms, start, a, b, before, seen, n, chosen)
    requires Calm(ms, start, b, |a|) && n >= ms.replicas
    ensures |Kept(ms, Exec(start, b))| == ms.replicas <==>
              |Kept(ms, Exec(start, a))| == ms.replicas + |Kept(ms, Exec(start, a)) * Keys(chosen)|
  {
    SyncIsExact(ms, start, a, b, before, seen, n, chosen);
    CountSplits(Kept(ms, Exec(start, a)), Keys(chosen));
  }

  lemma CountSplits(s: set<Key>, t: set<Key>)
    ensures |s| == |s - t| + |s * t|
  {
    assert s == (s - t) + (s * t);
  }

  /** From a settled cache a successful sync reaches the wanted number, and the
      cache is settled again. */
  lemma SyncReachesReplicas(ms: MachineSet, start: State, a: seq<Step>, b: seq<Step>, before: nat, seen: nat,
                            n: nat, chosen: seq<Machine>)
    requires Initial(start) && SyncDone(ms, start, a, b, before, seen, n, chosen)
    requires Calm(ms, start, b, |a|) && before <= |a| && Settled(ms, start, a, before)
    requires n == |Kept(ms, Exec(start, a))| && Keys(chosen) <= Kept(ms, Exec(start, a)) && ms.replicas >= 0
    ensures |Kept(ms, Exec(start, b))| == ms.replicas && Settled(ms, start, b, seen)
  {
    assert Agrees(ms, start, a, |a|);
    ViewPrefix(ms, start, a, a, |a|);
    if n < ms.replicas {
      SyncIsExact(ms, start, a, b, before, seen, n, chosen);
      SettledAfterCreation(ms, start, a, b, seen);
    } else if chosen == [] {
      assert Keys(chosen) == {};
      SettledStays(ms, start, a, b, before, seen);
    } else {
      forall k | k in Keys(chosen)
        ensures MissingBetween(ms, start, b, k, before, seen)
      {
        var m :| m in chosen && m.key == k;
      }
      assert chosen[0].key in Keys(chosen);
      SettledAfterDeletion(ms, start, a, b, Keys(chosen), before, seen);
      KeysCount(chosen);
    }
  }

  lemma DeletesClaimed(ms: MachineSet, start: State, a: seq<Step>, b: seq<Step>, chosen: seq<Machine>)
    requires a <= b && OnlyDeletes(ms.uid, b, |a|, Keys(chosen))
    requires forall m :: m in chosen ==> Claimed(ms, Exec(start, a), m)
    ensures DeletesOwn(ms.uid, start, b, |a|)
  {
    forall i | |a| <= i < |b| && b[i].actor == MachineSetController(ms.uid)
      ensures OnceControlled(Exec(start, b[..i]), b[i].event.key, ms.uid)
    {
      var m :| m in chosen && m.key == b[i].event.key;
      assert b[..i][..|a|] == a;
      Accounting.PastMonotone(start, b[..i], |a|);
    }
  }

  lemma DeletesOwnJoin(uid: nat, start: State, a: seq<Step>, b: seq<Step>, from: nat)
    requires a <= b && DeletesOwn(uid, start, a, from) && DeletesOwn(uid, start, b, |a|)
    ensures DeletesOwn(uid, start, b, from)
  {
    forall i | from <= i < |b| && b[i].actor == MachineSetController(uid) && b[i].event.Delete?
      ensures OnceControlled(Exec(start, b[..i]), b[i].event.key, uid)
    {
      if i < |a| {
        assert a[..i] == b[..i];
        assert a[i] == b[i];
      }
    }
  }

  // ---- A whole pass --------------------------------------------------------------------

  /** The pass may rely on the cache: no outside machines since run a, at whose
      end the cache showed the set as it was. */
  ghost predicate Reliable(ms: MachineSet, start: State, a: seq<Step>, seen: nat, b: seq<Step>) {
    !Selectors.Empty(ms.selector) && seen <= |a| && Settled(ms, start, a, seen) && Calm(ms, start, b, |a|)
  }

  /** What a list read in a reliable pass contains. */
  lemma ReliableList(ms: MachineSet, start: State, a: seq<Step>, b: seq<Step>, before: nat, seen: nat,
      all: seq<Machine>)
    requires Initial(start) && Foreign(MachineSetController(ms.uid), a, b)
    requires Reliable(ms, start, a, before, b) && before <= seen <= |b|
    requires forall m :: m in all <==> m in Exec(start, b[..seen]).machines.Values && m.key.ns == ms.key.ns
    ensures Settled(ms, start, b, seen) && Kept(ms, Exec(start, b)) == Kept(ms, Exec(start, a))
    ensures forall o :: o in all ==> !WouldAdopt(ms, o)
    ensures forall s, kept :: Filtered(ms, s, all, |all|, kept) ==>
              Keys(kept) == Kept(ms, Exec(start, a)) && |kept| == |Kept(ms, Exec(start, a))|
  {
    SettledStays(ms, start, a, b, before, seen);
    assert Agrees(ms, start, b, seen);
    var cache := Exec(start, b[..seen]);
    Lifecycle.RunKeepsInv(start, b[..seen]);
    ListHasNoOrphans(ms, cache, all);
    forall s, kept | Filtered(ms, s, all, |all|, kept)
      ensures Keys(kept) == Kept(ms, Exec(start, a)) && |kept| == |Kept(ms, Exec(start, a))|
    {
      FilteredExactly(ms, s, cache, all, kept);
    }
  }

  lemma SettledForLater(ms: MachineSet, start: State, log: seq<Step>, seen: nat, later: nat)
    requires seen <= later && Settled(ms, start, log, seen)
    ensures Settled(ms, start, log, later)
  {
  }

  lemma KeysMonotone(s: seq<Machine>, t: seq<Machine>)
    requires forall m :: m in s ==> m in t
    ensures Keys(s) <= Keys(t)
  {
  }

  /** The pass continues run a, with nobody else interfering, and the list shows
      exactly the machines that a settled cache shows. */
  ghost predicate Trusted(ms: MachineSet, start: State, a: seq<Step>, b: seq<Step>, seen: nat, all: seq<Machine>) {
    && Reliable(ms, start, a, seen, b)
    && (forall o :: o in all ==> !WouldAdopt(ms, o))
    && (forall s, kept :: Filtered(ms, s, all, |all|, kept) ==>
          Keys(kept) == Kept(ms, Exec(start, a)) && |kept| == |Kept(ms, Exec(start, a))|)
  }

  /** A reliable pass may trust the list it has read, whichever copy of the set
      it works with. */
  lemma TrustedPass(read: MachineSet, ms: MachineSet, start: State, a: seq<Step>, b: seq<Step>, c: seq<Step>,
                    before: nat, seen: nat, all: seq<Machine>)
    requires Initial(start) && SameSet(read, ms)
    requires Foreign(MachineSetController(read.uid), a, b) && b <= c && before <= seen <= |b|
    requires Reliable(read, start, a, before, c)
    requires forall m :: m in all <==> m in Exec(start, b[..seen]).machines.Values && m.key.ns == ms.key.ns
    ensures Trusted(ms, start, b, c, seen, all) && Kept(ms, Exec(start, b)) == Kept(read, Exec(start, a))
  {
    SameCalm(read, ms, start, c, |a|);
    SameSettled(read, ms, start, a, before);
    SameLook(read, ms, Exec(start, a));
    CalmPrefix(ms, start, b, c, |a|, |a|);
    CalmPrefix(ms, start, c, c, |a|, |b|);
    ReliableList(ms, start, a, b, before, seen, all);
  }

  // ---- Many passes ----------------------------------------------------------------------

  /** All the passes returned, none of them with an error. */
  predicate NoFailure(outcomes: seq<SetOutcome>) {
    forall p :: 0 <= p < |outcomes| ==> Fine(outcomes[p])
  }

  /** When pass p ended, after `end` steps of the run, the set had the wanted
      number of machines and controlled all of them, provided that all passes so far
      went well. */
  ghost predicate Reached(ms: MachineSet, start: State, log: seq<Step>, read: MachineSet, outcomes: seq<SetOutcome>,
      p: nat, end: nat)
    requires p < |outcomes|
  {
    NoFailure(outcomes[..p + 1]) && outcomes[p] == Done && !read.deleting ==>
      end <= |log| && |ViewAt(ms, start, log, end).kept| == read.replicas && ViewAt(ms, start, log, end).claimed
  }

  /** All passes made so far, if nobody outside interferes. */
  ghost predicate AllReached(ms: MachineSet, start: State, log: seq<Step>, copies: seq<MachineSet>,
                             outcomes: seq<SetOutcome>, ends: seq<nat>)
    requires |outcomes| == |ends| <= |copies|
  {
    !Selectors.Empty(ms.selector) && Calm(ms, start, log, 0) ==>
      forall p {:trigger ends[p]} :: 0 <= p < |outcomes| ==> Reached(ms, start, log, copies[p], outcomes, p, ends[p])
  }

  ghost predicate SettledIfFine(ms: MachineSet, start: State, log: seq<Step>, outcomes: seq<SetOutcome>, seen: nat) {
    !Selectors.Empty(ms.selector) && Calm(ms, start, log, 0) && NoFailure(outcomes) ==> Settled(ms, start, log, seen)
  }

  lemma ReachedLater(ms: MachineSet, start: State, a: seq<Step>, b: seq<Step>, read: MachineSet,
                     outcomes: seq<SetOutcome>, p: nat, end: nat, last: SetOutcome)
    requires a <= b && p < |outcomes| && Reached(ms, start, a, read, outcomes, p, end)
    ensures Reached(ms, start, b, read, outcomes + [last], p, end)
  {
    assert (outcomes + [last])[..p + 1] == outcomes[..p + 1];
    if end <= |a| {
      ViewPrefix(ms, start, a, b, end);
    }
  }

  /** What Reconcile says of a pass on run a. */
  ghost predicate PassWell(read: MachineSet, start: State, a: seq<Step>, b: seq<Step>, before: nat, seen: nat,
                           outcome: SetOutcome)
  {
    Reliable(read, start, a, before, b) && Fine(outcome) ==>
      && Settled(read, start, b, seen)
      && (outcome == Done && !read.deleting ==> |Kept(read, Exec(start, b))| == read.replicas)
  }

  lemma PassReached(ms: MachineSet, start: State, a: seq<Step>, b: seq<Step>, before: nat, seen: nat, read: MachineSet,
                    outcomes: seq<SetOutcome>, outcome: SetOutcome)
    requires SameSet(ms, read) && !Selectors.Empty(ms.selector) && a <= b && before <= |a| && seen <= |b|
    requires Calm(ms, start, b, 0) && SettledIfFine(ms, start, a, outcomes, before)
    requires PassWell(read, start, a, b, before, seen, outcome)
    ensures Reached(ms, start, b, read, outcomes + [outcome], |outcomes|, |b|)
    ensures SettledIfFine(ms, start, b, outcomes + [outcome], seen)
  {
    var all := outcomes + [outcome];
    assert all[..|outcomes| + 1] == all && all[|outcomes|] == outcome;
    if NoFailure(all) {
      assert NoFailure(outcomes) by {
        assert forall p :: 0 <= p < |outcomes| ==> all[p] == outcomes[p];
      }
      CalmPrefix(ms, start, a, b, 0, 0);
      CalmPrefix(ms, start, b, b, 0, |a|);
      SameCalm(ms, read, start, b, |a|);
      SameSettled(ms, read, start, a, before);
      SameSettled(read, ms, start, b, seen);
      SameLook(read, ms, Exec(start, b));
      ViewPrefix(ms, start, b, b, |b|);
      assert Agrees(ms, start, b, |b|);
    }
  }

  lemma OneMorePass(ms: MachineSet, start: State, a: seq<Step>, b: seq<Step>, before: nat, seen: nat,
                    copies: seq<MachineSet>, outcomes: seq<SetOutcome>, ends: seq<nat>, outcome: SetOutcome)
    requires |outcomes| == |ends| < |copies| && SameSet(ms, copies[|ends|])
    requires a <= b && before <= |a| && seen <= |b|
    requires AllReached(ms, start, a, copies, outcomes, ends) && SettledIfFine(ms, start, a, outcomes, before)
    requires PassWell(copies[|ends|], start, a, b, before, seen, outcome)
    ensures AllReached(ms, start, b, copies, outcomes + [outcome], ends + [|b|])
    ensures SettledIfFine(ms, start, b, outcomes + [outcome], seen)
  {
    if !Selectors.Empty(ms.selector) && Calm(ms, start, b, 0) {
      CalmPrefix(ms, start, a, b, 0, 0);
      PassReached(ms, start, a, b, before, seen, copies[|ends|], outcomes, outcome);
      var all := ends + [|b|];
      forall p {:trigger all[p]} | 0 <= p < |outcomes| + 1
        ensures Reached(ms, start, b, copies[p], outcomes + [outcome], p, all[p])
      {
        if p < |outcomes| {
          assert all[p] == ends[p];
          ReachedLater(ms, start, a, b, copies[p], outcomes, p, ends[p], outcome);
        }
      }
    }
  }

  /** A pass never returns only if its copy asks for a negative number. */
  predicate HungMeansNegative(copies: seq<MachineSet>, outcomes: seq<SetOutcome>)
    requires |outcomes| <= |copies|
  {
    forall p :: 0 <= p < |outcomes| && outcomes[p] == Hung ==> copies[p].replicas < 0
  }

  lemma SettledAtFirst(ms: MachineSet, start: State)
    requires Initial(start)
    ensures Settled(ms, start, [], 0)
  {
    assert Kept(ms, start) == {};
    var nothing: seq<Step> := [];
    assert nothing[..0] == nothing;
  }

  /** What scaling a trusted list did holds of the pass as a whole. */
  lemma PassEnds(read: MachineSet, ms: MachineSet, start: State, a: seq<Step>, b: seq<Step>, c: seq<Step>,
                 before: nat, shown: nat, seen: nat, all: seq<Machine>, n: nat, ok: bool)
    requires Initial(start) && SameSet(read, ms) && ms.replicas == read.replicas
    requires Foreign(MachineSetController(read.uid), a, b) && b <= c && before <= shown <= |b|
    requires forall m :: m in all <==> m in Exec(start, b[..shown]).machines.Values && m.key.ns == ms.key.ns
    requires Trusted(ms, start, b, c, shown, all) ==>
               && n == |Kept(ms, Exec(start, b))|
               && (ok ==> |Kept(ms, Exec(start, c))| == ms.replicas && Settled(ms, start, c, seen))
    ensures Reliable(read, start, a, before, c) ==>
              && n == |Kept(read, Exec(start, a))|
              && (ok ==> |Kept(read, Exec(start, c))| == read.replicas && Settled(read, start, c, seen))
  {
    if Reliable(read, start, a, before, c) {
      TrustedPass(read, ms, start, a, b, c, before, shown, all);
      SameLook(read, ms, Exec(start, c));
      if ok {
        SameSettled(ms, read, start, c, seen);
      }
    }
  }

  lemma FilteredLater(ms: MachineSet, s: State, t: State, all: seq<Machine>, kept: seq<Machine>)
    requires Filtered(ms, s, all, |all|, kept) && s.past <= t.past
    ensures Filtered(ms, t, all, |all|, kept)
  {
  }

  /** The set has the wanted number of machines, nobody outside interferes, and
      one machine is listed as it was before its adoption. */
  ghost predicate OneTooMany(ms: MachineSet, start: State, a: seq<Step>, c: seq<Step>, all: seq<Machine>) {
    && a <= c && !Selectors.Empty(ms.selector) && Calm(ms, start, c, |a|)
    && |Kept(ms, Exec(start, a))| == ms.replicas
    && exists o :: StaleList(ms, Exec(start, a), all, o)
  }

  /** A user creates a machine with the labels of the template, and a pass over
      the set adopts it. */
  function Orphan(start: State, ms: MachineSet, k: Key): Machine {
    Machine(k, start.nextUid, start.revision + 1, ms.template.labels, map[], [], [], false, [], "", Unset, "", "", "")
  }

  function Adopted(ms: MachineSet, o: Machine): Machine {
    o.(owners := o.owners + [ControllerRef(ms)])
  }

  function CreatedAndAdopted(ms: MachineSet, o: Machine): seq<Step> {
    [Step(User, World.Create(o))] + [Step(MachineSetController(ms.uid), Write(Adopted(ms, o)))]
  }

  lemma OrphanStored(start: State, ms: MachineSet, o: Machine)
    requires Initial(start) && o == Orphan(start, ms, o.key)
    ensures var t := Exec(start, [Step(User, World.Create(o))]);
            t.machines == map[o.key := o] && t.revision == start.revision + 1 && t.maas == start.maas
  {
    var create := Step(User, World.Create(o));
    assert [create][..0] == [] && Exec(start, [create]) == Next(start, create);
    assert o.(version := start.revision + 1) == o;
  }

  lemma AdoptionStored(s: State, ms: MachineSet, o: Machine)
    requires s.machines == map[o.key := o] && Controllers(o.owners) == [] && !o.deleting
    ensures var t := Next(s, Step(MachineSetController(ms.uid), Write(Adopted(ms, o))));
            var m := Adopted(ms, o).(version := s.revision + 1);
            t.machines == map[o.key := m] && m in t.past
  {
    AdoptionIsPermitted(ms, o, Adopted(ms, o), s.maas);
  }

  lemma CreatedAndAdoptedEffect(start: State, ms: MachineSet, o: Machine)
    requires Initial(start) && o == Orphan(start, ms, o.key)
    ensures var t, m := Exec(start, CreatedAndAdopted(ms, o)), Adopted(ms, o).(version := start.revision + 2);
            t.machines == map[o.key := m] && m in t.past && Controllers(m.owners) == [ControllerRef(ms)]
  {
    var create, adopt := Step(User, World.Create(o)), Step(MachineSetController(ms.uid), Write(Adopted(ms, o)));
    OrphanStored(start, ms, o);
    ExecSnoc(start, [create], adopt);
    AdoptionStored(Exec(start, [create]), ms, o);
    ControllersAppend(o.owners, ControllerRef(ms));
  }

  /** Such a list does occur: after these two steps of a run, in a cache that is
      one step behind. */
  lemma StaleListOccurs(start: State, ms: MachineSet, k: Key)
    requires Initial(start) && ValidSet(ms) && !Selectors.Empty(ms.selector) && k.ns == ms.key.ns && ms.replicas == 1
    ensures var o := Orphan(start, ms, k);
            var log := CreatedAndAdopted(ms, o);
            && (forall m :: m in [o] <==> m in Exec(start, log[..1]).machines.Values && m.key.ns == ms.key.ns)
            && forall c :: log <= c && Calm(ms, start, c, |log|) ==> OneTooMany(ms, start, log, c, [o])
  {
    var o := Orphan(start, ms, k);
    var log := CreatedAndAdopted(ms, o);
    var m := Adopted(ms, o).(version := start.revision + 2);
    OrphanStored(start, ms, o);
    CreatedAndAdoptedEffect(start, ms, o);
    assert log[..1] == [Step(User, World.Create(o))];
    assert Exec(start, log[..1]).machines.Values == {o};
    assert HasMatchingLabels(ms, o) && Candidate(ms, m);
    assert Kept(ms, Exec(start, log)) == {k};
    assert StaleList(ms, Exec(start, log), [o], o);
  }

  /** Then the second adoption is refused, the machine is left out, and a machine
      too many is created. */
  lemma StaleListAddsOne(ms: MachineSet, start: State, a: seq<Step>, b: seq<Step>, c: seq<Step>, before: nat, seen: nat,
                         all: seq<Machine>, kept: seq<Machine>, chosen: seq<Machine>)
    requires Initial(start) && OneTooMany(ms, start, a, c, all) && DistinctKeys(all)
    requires Foreign(MachineSetController(ms.uid), a, b)
    requires Filtered(ms, Exec(start, b), all, |all|, kept) && forall m :: m in kept ==> m in Counted(ms, all)
    requires SyncDone(ms, start, b, c, before, seen, |kept|, chosen)
    ensures |Kept(ms, Exec(start, c))| == ms.replicas + 1
  {
    var o :| StaleList(ms, Exec(start, a), all, o);
    StaleListKeepsTooFew(ms, Exec(start, a), Exec(start, b), all, o, kept);
    CalmPrefix(ms, start, b, c, |a|, |a|);
    CalmPrefix(ms, start, c, c, |a|, |b|);
    ForeignIsQuiet(ms, start, a, b, |b|);
    ViewPrefix(ms, start, b, b, |b|);
    ShrinksByNothing(Look(ms, Exec(start, a)), Look(ms, Exec(start, b)));
    SyncIsExact(ms, start, b, c, before, seen, |kept|, chosen);
  }

  /** Machines filtered with one copy of the set are claimed for the other. */
  lemma SameClaims(read: MachineSet, ms: MachineSet, s: State, kept: seq<Machine>)
    requires SameSet(read, ms) && AllClaimed(ms, s, kept)
    ensures AllClaimed(read, s, kept)
  {
  }

  predicate AllClaimed(ms: MachineSet, s: State, kept: seq<Machine>) {
    DistinctKeys(kept) && forall m :: m in kept ==> Claimed(ms, s, m)
  }

  /** If every orphan in the list has had a controller since, no adoption was
      accepted, and none of them was kept. */
  ghost predicate StaleSoFar(ms: MachineSet, s: State, all: seq<Machine>, a: seq<Step>, b: seq<Step>,
                             kept: seq<Machine>)
  {
    (forall o :: o in all && WouldAdopt(ms, o) ==> AlreadyControlled(s, o)) ==>
      && Foreign(MachineSetController(ms.uid), a, b)
      && forall m :: m in kept ==> m in Counted(ms, all)
  }

  lemma StaleOneMore(ms: MachineSet, s: State, t: State, all: seq<Machine>, a: seq<Step>, b: seq<Step>, c: seq<Step>,
                     kept: seq<Machine>, listed: Machine, one: Option<Machine>)
    requires StaleSoFar(ms, s, all, a, b, kept) && s.past <= t.past && listed in all && a <= b <= c
    requires one.Some? ==> KeptFor(ms, listed, one.value)
    requires !WouldAdopt(ms, listed) ==> c == b
    requires WouldAdopt(ms, listed) && AlreadyControlled(t, listed) ==>
               one.None? && Foreign(MachineSetController(ms.uid), b, c)
    ensures StaleSoFar(ms, s, all, a, c, if one.Some? then kept + [one.value] else kept)
  {
    if forall o :: o in all && WouldAdopt(ms, o) ==> AlreadyControlled(s, o) {
      if WouldAdopt(ms, listed) {
        assert AlreadyControlled(s, listed);
      }
    }
  }

  class ReconcileMachineSet {
    const plane: Plane
    const store: Store

    constructor (plane: Plane, store: Store)
      ensures this.plane == plane && this.store == store
    {
      this.plane, this.store := plane, store;
    }

    // ---- Claiming machines -----------------------------------------------------------

    /** adoptOrphan. */
    method AdoptOrphan(ms: MachineSet, machine: Machine) returns (r: Result<Machine, ApiError>)
      requires plane.Valid() && machine in plane.state.past
      requires Controllers(machine.owners) == [] && !machine.deleting
      modifies plane
      ensures plane.calls == old(plane.calls)
                             + [UpdateCall(machine.(owners := machine.owners + [ControllerRef(ms)]), r)]
      ensures plane.Valid() && old(plane.state).past <= plane.state.past && old(plane.seen) <= plane.seen
      ensures old(plane.log) <= plane.log && OnlyAdopts(ms.uid, plane.log, |old(plane.log)|)
      ensures r.Ok? ==>
                && r.value == machine.(owners := machine.owners + [ControllerRef(ms)], version := r.value.version)
                && machine.key in plane.state.machines && plane.state.machines[machine.key] == r.value
                && r.value in plane.state.past && ControlledBy(r.value, ms.uid)
      ensures AlreadyControlled(old(plane.state), machine) ==>
                r.Err? && Foreign(MachineSetController(ms.uid), old(plane.log), plane.log)
    {
      ghost var l0 := plane.log;
      var m := machine.(owners := machine.owners + [OwnerRef(MachineSetOwner, ms.uid, true)]);
      AdoptionIsPermitted(ms, machine, m, plane.state.maas);
      ghost var applied;
      r, applied := plane.Update(MachineSetController(ms.uid), m, machine);
      if applied {
        OneWriteAdopts(ms.uid, l0, plane.log, m);
        AcceptedAdoption(plane.start, l0, plane.log, ms.uid, machine, m);
      }
    }

    /** One machine of the list: excluded, kept, or adopted and then kept. */
    method FilterOne(ms: MachineSet, listed: Machine) returns (kept: Option<Machine>, ghost f: Filtering)
      requires plane.Valid() && listed in plane.state.past && listed.key.ns == ms.key.ns
      modifies plane
      ensures plane.calls == old(plane.calls) + (if f.made.Some? then [f.made.value] else [])
      ensures Filters(ms, listed, f) && kept == f.kept
      ensures plane.Valid() && old(plane.state).past <= plane.state.past && old(plane.seen) <= plane.seen
      ensures old(plane.log) <= plane.log && OnlyAdopts(ms.uid, plane.log, |old(plane.log)|)
      ensures kept.Some? ==> KeptFor(ms, listed, kept.value) && Claimed(ms, plane.state, kept.value)
      ensures kept.None? ==> ShouldExclude(ms, listed) || Controllers(listed.owners) == []
      ensures !WouldAdopt(ms, listed) ==> plane.log == old(plane.log)
      ensures WouldAdopt(ms, listed) && AlreadyControlled(old(plane.state), listed) ==>
                kept.None? && Foreign(MachineSetController(ms.uid), old(plane.log), plane.log)
    {
      if ShouldExclude(ms, listed) {
        return None, Filtering(None, None);
      }
      var ref := GetControllerOf(listed);
      if ref.None? {
        var r := AdoptOrphan(ms, listed);
        kept := if r.Ok? then Some(r.value) else None;
        f := Filtering(Some(UpdateCall(listed.(owners := listed.owners + [ControllerRef(ms)]), r)), kept);
        return;
      }
      return Some(listed), Filtering(None, Some(listed));
    }

    /** The body of the loop of filterMachines. */
    method FilterNext(ms: MachineSet, all: seq<Machine>, i: nat, kept: seq<Machine>, ghost s0: State,
                      ghost l0: seq<Step>, ghost c0: seq<Call>, ghost steps: seq<Filtering>)
      returns (more: seq<Machine>, ghost steps2: seq<Filtering>)
      requires plane.Valid() && DistinctKeys(all) && i < |all|
      requires all[i] in plane.state.past && all[i].key.ns == ms.key.ns && s0.past <= plane.state.past
      requires l0 <= plane.log && OnlyAdopts(ms.uid, plane.log, |l0|) && Untouched(ms, all, l0, plane.log)
      requires Stepped(ms, all, i, c0, plane.calls, steps, kept) && Filtered(ms, plane.state, all, i, kept)
      requires StaleSoFar(ms, s0, all, l0, plane.log, kept)
      modifies plane
      ensures plane.Valid() && old(plane.state).past <= plane.state.past && old(plane.seen) <= plane.seen
      ensures l0 <= plane.log && OnlyAdopts(ms.uid, plane.log, |l0|) && Untouched(ms, all, l0, plane.log)
      ensures Stepped(ms, all, i + 1, c0, plane.calls, steps2, more) && Filtered(ms, plane.state, all, i + 1, more)
      ensures StaleSoFar(ms, s0, all, l0, plane.log, more)
    {
      ghost var s, l := plane.state, plane.log;
      assert all[i] in all;
      var one, f := FilterOne(ms, all[i]);
      StaleOneMore(ms, s0, s, all, l0, l, plane.log, kept, all[i], one);
      OneMoreStep(ms, all, i, c0, steps, kept, f);
      FilterGoesOn(ms, s, plane.state, all, i, kept, one);
      steps2 := steps + [f];
      more := if one.None? then kept else kept + [one.value];
      assert one.None? ==> kept + [] == kept;
    }

    /** filterMachines. A machine whose adoption fails is left out. If no update is
        refused, every listed machine that is not excluded is kept, and controlled by
        the set from then on. */
    method FilterMachines(ms: MachineSet, all: seq<Machine>)
        returns (filtered: array<Machine>, ghost steps: seq<Filtering>)
      requires plane.Valid() && DistinctKeys(all)
      requires forall m :: m in all ==> m in plane.state.past && m.key.ns == ms.key.ns
      modifies plane
      ensures plane.calls == old(plane.calls) + CallsOf(steps)
      ensures FilterTrace(ms, all, steps) && filtered[..] == KeptOf(steps)
      ensures AdoptsAll(ms, plane.state, all, steps, filtered[..])
      ensures plane.Valid() && old(plane.state).past <= plane.state.past && old(plane.seen) <= plane.seen
      ensures old(plane.log) <= plane.log && OnlyAdopts(ms.uid, plane.log, |old(plane.log)|)
      ensures fresh(filtered) && Filtered(ms, plane.state, all, |all|, filtered[..])
      ensures Untouched(ms, all, old(plane.log), plane.log)
      ensures StaleSoFar(ms, old(plane.state), all, old(plane.log), plane.log, filtered[..])
    {
      ghost var s0, l0, c0 := plane.state, plane.log, plane.calls;
      var kept: seq<Machine> := [];
      steps := [];
      for i := 0 to |all|
        invariant plane.Valid() && s0.past <= plane.state.past && old(plane.seen) <= plane.seen
        invariant l0 <= plane.log && OnlyAdopts(ms.uid, plane.log, |l0|)
        invariant Stepped(ms, all, i, c0, plane.calls, steps, kept)
        invariant Filtered(ms, plane.state, all, i, kept)
        invariant Untouched(ms, all, l0, plane.log)
        invariant StaleSoFar(ms, s0, all, l0, plane.log, kept)
      {
        kept, steps := FilterNext(ms, all, i, kept, s0, l0, c0, steps);
      }
      filtered := new Machine[|kept|](i requires 0 <= i < |kept| => kept[i]);
      assert filtered[..] == kept;
      AllStepped(ms, plane.state, all, c0, plane.calls, steps, kept);
    }

    // ---- Creating machines ------------------------------------------------------------

    method CreateOne(ms: MachineSet) returns (r: Result<Machine, ApiError>, ghost call: Call)
      requires plane.Valid() && ValidSet(ms)
      modifies plane
      ensures plane.calls == old(plane.calls) + [call] && Creation(ms, call) && call.created == r
      ensures plane.Valid() && old(plane.state).past <= plane.state.past && old(plane.seen) <= plane.seen
      ensures old(plane.log) <= plane.log && OnlyCreates(ms.uid, plane.log, |old(plane.log)|)
      ensures !Selectors.Empty(ms.selector) ==> OnlyAdds(ms, plane.start, plane.log, |old(plane.log)|)
      ensures r.Ok? ==>
                && Follows(MachineSetController(ms.uid), old(plane.log), plane.log, [World.Create(r.value)])
                && AbsentBefore(plane.start, plane.log, r.value.key, |plane.log|)
    {
      var me := MachineSetController(ms.uid);
      ghost var l0 := plane.log;
      var m := CreateMachine(ms);
      ghost var applied;
      r, applied := plane.Create(me, m);
      call := CreateCall(m, r);
      if applied {
        CreationAdds(ms, plane.start, l0, plane.log, m, r);
      }
    }

    /** The poll of waitForMachineCreation for one machine: true once the cache
        shows it, false when time runs out or the read fails. */
    method PollCreated(uid: nat, k: Key) returns (ok: bool, ghost looks: seq<Call>)
      requires plane.Valid()
      modifies plane
      ensures plane.calls == old(plane.calls) + looks && CreationPoll(k, looks, ok)
      ensures plane.Valid() && old(plane.state).past <= plane.state.past && old(plane.seen) <= plane.seen
      ensures Foreign(MachineSetController(uid), old(plane.log), plane.log)
      ensures ok ==> ShownBy(plane.start, plane.log, k, plane.seen)
    {
      var again: nat := *;
      looks := [];
      while true
        invariant plane.Valid() && old(plane.state).past <= plane.state.past && old(plane.seen) <= plane.seen
        invariant Foreign(MachineSetController(uid), old(plane.log), plane.log)
        invariant plane.calls == old(plane.calls) + looks
        invariant forall i :: 0 <= i < |looks| ==> looks[i] == GetCall(k, Err(NotFound))
        decreases again
      {
        var r := plane.Get(MachineSetController(uid), k);
        looks := looks + [GetCall(k, r)];
        if r.Ok? {
          assert plane.log[..plane.seen] == plane.log[..plane.seen];
          return true, looks;
        } else if r.error != NotFound || again <= 0 {
          return false, looks;
        }
        again := again - 1;
      }
    }

    method WaitForMachineCreation(uid: nat, machineList: seq<Machine>) returns (ok: bool, ghost polls: seq<seq<Call>>)
      requires plane.Valid()
      modifies plane
      ensures plane.calls == Flat(old(plane.calls), polls) && WaitedCreation(machineList, polls, ok)
      ensures plane.Valid() && old(plane.state).past <= plane.state.past && old(plane.seen) <= plane.seen
      ensures Foreign(MachineSetController(uid), old(plane.log), plane.log)
      ensures ok ==> forall m :: m in machineList ==> ShownBy(plane.start, plane.log, m.key, plane.seen)
    {
      ghost var c0 := plane.calls;
      polls := [];
      for i := 0 to |machineList|
        invariant plane.Valid() && old(plane.state).past <= plane.state.past && old(plane.seen) <= plane.seen
        invariant Foreign(MachineSetController(uid), old(plane.log), plane.log)
        invariant plane.calls == Flat(c0, polls) && WaitedCreation(machineList[..i], polls, true)
        invariant AllShown(plane.start, plane.log, machineList[..i], plane.seen)
      {
        ghost var l, seen := plane.log, plane.seen;
        var found, looks := PollCreated(uid, machineList[i].key);
        OneMoreCreationPoll(machineList, i, polls, looks, found);
        FlatSnoc(c0, polls, looks);
        polls := polls + [looks];
        if !found {
          return false, polls;
        }
        OneMoreShown(plane.start, l, plane.log, machineList, i, seen, plane.seen);
      }
      assert machineList[..|machineList|] == machineList;
      return true, polls;
    }

    /** The branch of syncReplicas for too few machines. On success exactly
        `diff` machines were created, and the cache has seen all of them. */
    method CreateReplicas(ms: MachineSet, diff: nat)
        returns (r: Result<(), SyncError>, ghost made: seq<Call>, ghost polls: seq<seq<Call>>)
      requires plane.Valid() && ValidSet(ms) && diff > 0
      modifies plane
      ensures plane.calls == Flat(old(plane.calls) + made, polls) && CreateTrace(ms, diff, made, polls, r)
      ensures plane.Valid() && old(plane.state).past <= plane.state.past && old(plane.seen) <= plane.seen
      ensures old(plane.log) <= plane.log && OnlyCreates(ms.uid, plane.log, |old(plane.log)|)
      ensures !Selectors.Empty(ms.selector) ==> OnlyAdds(ms, plane.start, plane.log, |old(plane.log)|)
      ensures r != Err(Hangs)
      ensures r.Ok? ==> |Own(MachineSetController(ms.uid), plane.log, |old(plane.log)|)| == diff
      ensures r.Ok? ==> CaughtUp(MachineSetController(ms.uid), plane.log, plane.seen) && |old(plane.log)| <= plane.seen
    {
      ghost var l0 := plane.log;
      var machineList, failures;
      machineList, failures, made := CreateAll(ms, diff);
      polls := [];
      if failures > 0 {
        return Err(CreateFailed(failures)), made, polls;
      }
      ghost var l1 := plane.log;
      var ok;
      ok, polls := WaitForMachineCreation(ms.uid, machineList);
      WaitingAdds(ms, l0, l1);
      if !ok {
        return Err(NotConfirmed), made, polls;
      }
      ShownMeansSeen(plane.start, l1, plane.log, machineList[diff - 1].key, plane.seen);
      return Ok(()), made, polls;
    }

    /** The loop that creates the missing machines; a refusal does not end it. */
    method CreateAll(ms: MachineSet, diff: nat)
        returns (machineList: seq<Machine>, failures: nat, ghost made: seq<Call>)
      requires plane.Valid() && ValidSet(ms) && diff > 0
      modifies plane
      ensures plane.calls == old(plane.calls) + made && |made| == diff
      ensures forall i :: 0 <= i < |made| ==> Creation(ms, made[i])
      ensures machineList == Created(made) && failures == Refusals(made)
      ensures plane.Valid() && old(plane.state).past <= plane.state.past && old(plane.seen) <= plane.seen
      ensures old(plane.log) <= plane.log && OnlyCreates(ms.uid, plane.log, |old(plane.log)|)
      ensures !Selectors.Empty(ms.selector) ==> OnlyAdds(ms, plane.start, plane.log, |old(plane.log)|)
      ensures failures == 0 ==>
                && |Own(MachineSetController(ms.uid), plane.log, |old(plane.log)|)| == diff == |machineList|
                && AbsentBefore(plane.start, plane.log, machineList[diff - 1].key, |plane.log|)
    {
      ghost var me, l0, c0 := MachineSetController(ms.uid), plane.log, plane.calls;
      ForeignIsSilent(me, l0, l0);
      machineList, failures, made := [], 0, [];
      for i := 0 to diff
        invariant plane.Valid() && old(plane.state).past <= plane.state.past && old(plane.seen) <= plane.seen
        invariant l0 <= plane.log && OnlyCreates(ms.uid, plane.log, |l0|)
        invariant plane.calls == c0 + made && |made| == i && forall j :: 0 <= j < |made| ==> Creation(ms, made[j])
        invariant machineList == Created(made) && failures == Refusals(made)
        invariant !Selectors.Empty(ms.selector) ==> OnlyAdds(ms, plane.start, plane.log, |l0|)
        invariant failures == 0 ==> |Own(me, plane.log, |l0|)| == i == |machineList|
        invariant failures == 0 && i > 0 ==> AbsentBefore(plane.start, plane.log, machineList[i - 1].key, |plane.log|)
      {
        ghost var l := plane.log;
        var created, call := CreateOne(ms);
        CreatedSnoc(made, call);
        made := made + [call];
        if !Selectors.Empty(ms.selector) {
          OnlyAddsJoin(ms, plane.start, l, plane.log, |l0|);
        }
        match created
        case Err(_) =>
          failures := failures + 1;
        case Ok(machine) =>
          machineList := machineList + [machine];
          FollowsTransitive(me, l0, l, plane.log, Own(me, l, |l0|), [World.Create(machine)]);
      }
    }

    /** Waiting adds no own step. */
    lemma WaitingAdds(ms: MachineSet, l0: seq<Step>, l1: seq<Step>)
      requires l0 <= l1 && Foreign(MachineSetController(ms.uid), l1, plane.log)
      ensures Own(MachineSetController(ms.uid), plane.log, |l0|) == Own(MachineSetController(ms.uid), l1, |l0|)
      ensures OnlyAdds(ms, plane.start, l1, |l0|) ==> OnlyAdds(ms, plane.start, plane.log, |l0|)
    {
      var me := MachineSetController(ms.uid);
      ForeignIsSilent(me, l1, plane.log);
      FollowsTransitive(me, l0, l1, plane.log, Own(me, l1, |l0|), []);
      if OnlyAdds(ms, plane.start, l1, |l0|) {
        OnlyAddsJoin(ms, plane.start, l1, plane.log, |l0|);
      }
    }

    // ---- Deleting machines --------------------------------------------------------------

    method DeleteOne(ms: MachineSet, k: Key) returns (r: Result<(), ApiError>)
      requires plane.Valid()
      modifies plane
      ensures plane.calls == old(plane.calls) + [DeleteCall(k, r)]
      ensures plane.Valid() && old(plane.state).past <= plane.state.past && old(plane.seen) <= plane.seen
      ensures old(plane.log) <= plane.log && OnlyDeletes(ms.uid, plane.log, |old(plane.log)|, {k})
      ensures r.Ok? ==> MissingBetween(ms, plane.start, plane.log, k, |old(plane.log)|, |plane.log|)
    {
      ghost var applied;
      r, applied := plane.Delete(MachineSetController(ms.uid), k);
      assert plane.log[..|plane.log|] == plane.log;
      assert r.Ok? ==> MissingAt(ms, plane.start, plane.log, k, |plane.log|);
    }

    /** The scheduler lets something happen: a goroutine starts, its call is
        answered, it reports an error, or it ends. */
    method Schedule(ms: MachineSet, chosen: seq<Machine>, f: FanOut.Fan, ghost from: nat)
      returns (move: FanOut.Move, failure: Option<ApiError>, ghost asked: seq<Call>)
      requires plane.Valid() && from <= |plane.log|
      requires FanOut.FanOk(f) && |f.workers| == |chosen| <= f.diff && !FanOut.AllExited(f)
      requires OnlyDeletes(ms.uid, plane.log, from, Keys(chosen))
          && Reported(ms, plane.start, plane.log, from, chosen, f)
      modifies plane
      ensures plane.calls == old(plane.calls) + asked && Asked(chosen, f, move, failure, asked)
      ensures plane.Valid() && old(plane.state).past <= plane.state.past && old(plane.seen) <= plane.seen
      ensures old(plane.log) <= plane.log && OnlyDeletes(ms.uid, plane.log, from, Keys(chosen))
      ensures FanOut.CanMove(f, move) && (move.Return? ==> move.ok == failure.None?)
      ensures Reported(ms, plane.start, plane.log, from, chosen, FanOut.DoMove(f, move))
    {
      ghost var possible := FanOut.Progress(f);
      move :| FanOut.CanMove(f, move);
      failure, asked := None, [];
      ghost var l := plane.log;
      if move.Return? {
        FanOut.ReturnsEitherWay(f, move, true);
        var target := chosen[move.i];
        var r := DeleteOne(ms, target.key);
        FanOut.ReturnsEitherWay(f, move, r.Ok?);
        move := FanOut.Return(move.i, r.Ok?);
        asked := [DeleteCall(target.key, r)];
        if r.Err? {
          failure := Some(r.error);
        } else {
          MissingWider(ms, plane.start, plane.log, target.key, |l|, from, |plane.log|);
        }
      }
      ReportedAfter(ms, plane.start, l, plane.log, from, chosen, f, move);
    }

    /** One move of a goroutine, and the error it reports. */
    method Advance(ms: MachineSet, chosen: seq<Machine>, f: FanOut.Fan, errors: map<nat, ApiError>, ghost from: nat,
                   ghost c0: seq<Call>, ghost order: seq<nat>, ghost made: seq<Call>)
      returns (g: FanOut.Fan, reported: map<nat, ApiError>, ghost order2: seq<nat>, ghost made2: seq<Call>)
      requires plane.Valid() && from <= |plane.log| && plane.calls == c0 + made
      requires FanOut.FanOk(f) && |f.workers| == |chosen| <= f.diff && !FanOut.AllExited(f)
      requires OnlyDeletes(ms.uid, plane.log, from, Keys(chosen))
          && Reported(ms, plane.start, plane.log, from, chosen, f)
      requires Bookkept(chosen, f, order, made, errors)
      modifies plane
      ensures plane.calls == c0 + made2 && Bookkept(chosen, g, order2, made2, reported)
      ensures plane.Valid() && old(plane.state).past <= plane.state.past && old(plane.seen) <= plane.seen
      ensures old(plane.log) <= plane.log && OnlyDeletes(ms.uid, plane.log, from, Keys(chosen))
      ensures FanOut.FanOk(g) && |g.workers| == |chosen| && g.diff == f.diff
      ensures FanOut.TotalLeft(g.workers) < FanOut.TotalLeft(f.workers)
      ensures Reported(ms, plane.start, plane.log, from, chosen, g)
    {
      var move, failure, asked := Schedule(ms, chosen, f, from);
      OneMoreEntry(chosen, f, order, made, errors, move, failure, asked);
      reported := if failure.Some? then errors[move.i := failure.value] else errors;
      order2 := order + if move.Return? then [move.i] else [];
      assert c0 + made + asked == c0 + (made + asked);
      made2 := made + asked;
      FanOut.MoveKeepsOk(f, move);
      FanOut.MovesEnd(f, move);
      g := FanOut.DoMove(f, move);
    }

    /** wg.Add(diff), one goroutine per chosen machine, in any schedule, then
        wg.Wait and a look at the channel. The wait goes on for ever exactly if
        fewer machines were chosen than announced. Otherwise the error is one of
        those that the calls were answered with, and there is none exactly if all
        calls succeeded; then every machine left the set. */
    method DeleteAll(ms: MachineSet, chosen: seq<Machine>, diff: nat)
      returns (hangs: bool, err: Option<ApiError>, ghost order: seq<nat>, ghost made: seq<Call>)
      requires plane.Valid() && |chosen| <= diff
      modifies plane
      ensures plane.calls == old(plane.calls) + made && |order| == |chosen| && Deletions(chosen, order, made)
      ensures hangs <==> |chosen| < diff
      ensures !hangs ==>
                && (err.Some? <==> SomeRefused(made))
                && (err.Some? ==>
                      exists j :: 0 <= j < |made| && made[j].DeleteCall? && made[j].deleted == Err(err.value))
      ensures plane.Valid() && old(plane.state).past <= plane.state.past && old(plane.seen) <= plane.seen
      ensures old(plane.log) <= plane.log && OnlyDeletes(ms.uid, plane.log, |old(plane.log)|, Keys(chosen))
      ensures !hangs && err.None? ==> AllMissed(ms, plane.start, plane.log, chosen, |old(plane.log)|, |plane.log|)
    {
      var f := FanOut.Start(diff, |chosen|);
      var errors: map<nat, ApiError> := map[];
      FanOut.StartOk(diff, |chosen|);
      ghost var from, c0 := |plane.log|, plane.calls;
      order, made := [], [];
      while !FanOut.AllExited(f)
        invariant plane.Valid() && old(plane.state).past <= plane.state.past && old(plane.seen) <= plane.seen
        invariant old(plane.log) <= plane.log && OnlyDeletes(ms.uid, plane.log, from, Keys(chosen))
        invariant FanOut.FanOk(f) && |f.workers| == |chosen| && f.diff == diff
        invariant plane.calls == c0 + made && Bookkept(chosen, f, order, made, errors)
        invariant Reported(ms, plane.start, plane.log, from, chosen, f)
        decreases FanOut.TotalLeft(f.workers)
      {
        f, errors, order, made := Advance(ms, chosen, f, errors, from, c0, order, made);
      }
      FanOut.WaitOf(f);
      FanOut.SentOf(f);
      BooksClosed(chosen, f, order, made, errors);
      if !FanOut.WaitReturns(f) {
        // Nothing can happen any more, and the counter is not zero.
        return true, None, order, made;
      }
      if f.sent != [] {
        assert f.sent[0] in f.sent;
        return false, Some(errors[f.sent[0]]), order, made;
      }
      AllReported(ms, plane.start, plane.log, from, chosen, f);
      return false, None, order, made;
    }

    /** The poll of waitForMachineDeletion for one machine: true once the cache
        shows it gone or marked, false when time runs out or the read fails. */
    method PollDeleted(ms: MachineSet, k: Key, ghost before: nat) returns (ok: bool, ghost looks: seq<Call>)
      requires plane.Valid() && before <= plane.seen
      modifies plane
      ensures plane.calls == old(plane.calls) + looks && DeletionPoll(k, looks, ok)
      ensures plane.Valid() && old(plane.state).past <= plane.state.past && old(plane.seen) <= plane.seen
      ensures Foreign(MachineSetController(ms.uid), old(plane.log), plane.log)
      ensures ok ==> MissingBetween(ms, plane.start, plane.log, k, before, plane.seen)
    {
      var again: nat := *;
      looks := [];
      while true
        invariant plane.Valid() && old(plane.state).past <= plane.state.past && old(plane.seen) <= plane.seen
        invariant Foreign(MachineSetController(ms.uid), old(plane.log), plane.log)
        invariant plane.calls == old(plane.calls) + looks
        invariant forall i :: 0 <= i < |looks| ==>
                    looks[i].GetCall? && looks[i].k == k && looks[i].got.Ok? && !looks[i].got.value.deleting
        decreases again
      {
        var r := plane.Get(MachineSetController(ms.uid), k);
        looks := looks + [GetCall(k, r)];
        if r == Err(NotFound) || (r.Ok? && r.value.deleting) {
          assert MissingAt(ms, plane.start, plane.log, k, plane.seen);
          return true, looks;
        } else if r.Err? || again <= 0 {
          return false, looks;
        }
        again := again - 1;
      }
    }

    method WaitForMachineDeletion(ms: MachineSet, machineList: seq<Machine>, ghost before: nat)
        returns (ok: bool, ghost polls: seq<seq<Call>>)
      requires plane.Valid() && before <= plane.seen
      modifies plane
      ensures plane.calls == Flat(old(plane.calls), polls) && WaitedDeletion(machineList, polls, ok)
      ensures plane.Valid() && old(plane.state).past <= plane.state.past && old(plane.seen) <= plane.seen
      ensures Foreign(MachineSetController(ms.uid), old(plane.log), plane.log)
      ensures ok ==> AllMissed(ms, plane.start, plane.log, machineList, before, plane.seen)
    {
      ghost var c0 := plane.calls;
      polls := [];
      for i := 0 to |machineList|
        invariant plane.Valid() && old(plane.state).past <= plane.state.past && old(plane.seen) <= plane.seen
        invariant Foreign(MachineSetController(ms.uid), old(plane.log), plane.log)
        invariant plane.calls == Flat(c0, polls) && WaitedDeletion(machineList[..i], polls, true)
        invariant AllMissed(ms, plane.start, plane.log, machineList[..i], before, plane.seen)
      {
        ghost var l, seen := plane.log, plane.seen;
        var gone, looks := PollDeleted(ms, machineList[i].key, before);
        OneMoreDeletionPoll(machineList, i, polls, looks, gone);
        FlatSnoc(c0, polls, looks);
        polls := polls + [looks];
        if !gone {
          return false, polls;
        }
        MissedOneMore(ms, plane.start, l, plane.log, machineList, i, before, seen, plane.seen);
      }
      assert machineList[..|machineList|] == machineList;
      return true, polls;
    }

    /** The branch of syncReplicas for too many machines. */
    method DeleteReplicas(ms: MachineSet, machines: array<Machine>, diff: nat)
      returns (r: Result<(), SyncError>, ghost chosen: seq<Machine>, ghost order: seq<nat>, ghost made: seq<Call>,
               ghost polls: seq<seq<Call>>)
      requires plane.Valid() && 0 < diff
      modifies plane, machines
      ensures plane.calls == Flat(old(plane.calls) + made, polls) && DeleteTrace(chosen, order, made, polls, r)
      ensures plane.Valid() && old(plane.state).past <= plane.state.past && old(plane.seen) <= plane.seen
      ensures multiset(machines[..]) == multiset(old(machines[..]))
      ensures |chosen| == (if diff <= machines.Length then diff else machines.Length) && chosen == machines[..|chosen|]
      ensures Preferred(chosen, machines[|chosen|..])
      ensures r == Err(Hangs) <==> diff > machines.Length
      ensures old(plane.log) <= plane.log && OnlyDeletes(ms.uid, plane.log, |old(plane.log)|, Keys(chosen))
      ensures r.Ok? ==>
                && AllMissed(ms, plane.start, plane.log, chosen, |old(plane.log)|, |plane.log|)
                && AllMissed(ms, plane.start, plane.log, chosen, old(plane.seen), plane.seen)
    {
      ghost var from, seen0 := |plane.log|, plane.seen;
      var machinesToDelete := DeletePolicy.GetMachinesToDeletePrioritized(machines, diff);
      chosen, polls := machinesToDelete, [];
      var hangs, err;
      hangs, err, order, made := DeleteAll(ms, machinesToDelete, diff);
      if hangs {
        return Err(Hangs), chosen, order, made, polls;
      }
      if err.Some? {
        return Err(DeleteFailed(err.value)), chosen, order, made, polls;
      }
      ghost var l := plane.log;
      var ok;
      ok, polls := WaitForMachineDeletion(ms, machinesToDelete, seen0);
      if !ok {
        return Err(NotConfirmed), chosen, order, made, polls;
      }
      MissedLater(ms, plane.start, l, plane.log, chosen, from, |l|, |plane.log|);
      return Ok(()), chosen, order, made, polls;
    }

    /** syncReplicas. It does not return exactly if the number of replicas is
        negative; it has then chosen every machine for deletion. */
    method SyncReplicas(ms: MachineSet, machines: array<Machine>)
      returns (r: Result<(), SyncError>, ghost chosen: seq<Machine>, ghost order: seq<nat>, ghost made: seq<Call>,
               ghost polls: seq<seq<Call>>)
      requires plane.Valid() && ValidSet(ms)
      requires DistinctKeys(machines[..]) && forall m :: m in machines[..] ==> Claimed(ms, plane.state, m)
      modifies plane, machines
      ensures plane.calls == Flat(old(plane.calls) + made, polls)
      ensures SyncTrace(ms, machines.Length, chosen, order, made, polls, r)
      ensures plane.Valid() && old(plane.state).past <= plane.state.past && old(plane.seen) <= plane.seen
      ensures multiset(machines[..]) == multiset(old(machines[..]))
      ensures |chosen| == DeletePolicy.Clamp(machines.Length - ms.replicas, machines.Length)
      ensures chosen == machines[..|chosen|] && Preferred(chosen, machines[|chosen|..])
      ensures old(plane.log) <= plane.log && DeletesOwn(ms.uid, plane.start, plane.log, |old(plane.log)|)
      ensures forall m :: m in chosen ==> m in old(machines[..])
      ensures machines.Length == ms.replicas ==> r.Ok? && plane.log == old(plane.log)
      ensures r == Err(Hangs) <==> ms.replicas < 0
      ensures r == Err(Hangs) ==> chosen == machines[..]
      ensures r.Ok? && !Selectors.Empty(ms.selector) ==>
                SyncDone(ms, plane.start, old(plane.log), plane.log, old(plane.seen), plane.seen, machines.Length,
                    chosen)
    {
      ghost var l0, listed := plane.log, machines[..];
      var diff := machines.Length - ms.replicas;
      chosen, order, made, polls := [], [], [], [];
      if diff < 0 {
        r, made, polls := CreateReplicas(ms, -diff);
      } else if diff > 0 {
        r, chosen, order, made, polls := DeleteReplicas(ms, machines, diff);
        PermutedKeys(listed, machines[..]);
        assert forall m :: m in chosen ==> m in machines[..];
        DeletesClaimed(ms, plane.start, l0, plane.log, chosen);
      } else {
        r := Ok(());
      }
    }

    // ---- The pass ---------------------------------------------------------------------------

    /** filterMachines and syncReplicas on a list of the machines in the set's
        namespace. */
    method Scale(ms: MachineSet, all: seq<Machine>)
      returns (r: Result<(), SyncError>, filtered: array<Machine>, ghost before: seq<Machine>,
               ghost steps: seq<Filtering>, ghost chosen: seq<Machine>, ghost order: seq<nat>, ghost made: seq<Call>,
               ghost polls: seq<seq<Call>>)
      requires plane.Valid() && ValidSet(ms) && DistinctKeys(all)
      requires forall m :: m in all ==> m in plane.state.past && m.key.ns == ms.key.ns
      modifies plane
      ensures plane.calls == Flat(old(plane.calls) + CallsOf(steps) + made, polls)
      ensures FilterTrace(ms, all, steps) && before == KeptOf(steps)
      ensures SyncTrace(ms, |before|, chosen, order, made, polls, r)
      ensures AdoptsAll(ms, plane.state, all, steps, before)
      ensures plane.Valid() && old(plane.state).past <= plane.state.past && old(plane.seen) <= plane.seen
      ensures fresh(filtered) && multiset(filtered[..]) == multiset(before)
      ensures Filtered(ms, plane.state, all, |all|, before)
      ensures old(plane.log) <= plane.log && DeletesOwn(ms.uid, plane.start, plane.log, |old(plane.log)|)
      ensures r == Err(Hangs) <==> ms.replicas < 0
      ensures OneTooMany(ms, plane.start, old(plane.log), plane.log, all) && r.Ok? ==>
                |Kept(ms, plane.state)| == ms.replicas + 1
      ensures Trusted(ms, plane.start, old(plane.log), plane.log, old(plane.seen), all) ==>
                && filtered.Length == |Kept(ms, old(plane.state))|
                && (r.Ok? ==> |Kept(ms, plane.state)| == ms.replicas && Settled(ms, plane.start, plane.log, plane.seen))
    {
      ghost var l0, seen0 := plane.log, plane.seen;
      filtered, steps := FilterMachines(ms, all);
      ghost var s1, l1, seen1, listed := plane.state, plane.log, plane.seen, filtered[..];
      before := listed;
      assert DeletesOwn(ms.uid, plane.start, l1, |l0|);
      r, chosen, order, made, polls := SyncReplicas(ms, filtered);
      DeletesOwnJoin(ms.uid, plane.start, l1, plane.log, |l0|);
      FilteredLater(ms, s1, plane.state, all, listed);
      AdoptsAllLater(ms, s1, plane.state, all, steps, listed);
      if OneTooMany(ms, plane.start, l0, plane.log, all) && r.Ok? {
        StaleListAddsOne(ms, plane.start, l0, l1, plane.log, seen1, plane.seen, all, listed, chosen);
      }
      if Trusted(ms, plane.start, l0, plane.log, seen0, all) && r.Ok? {
        assert l1 == l0;
        SettledForLater(ms, plane.start, l0, seen0, seen1);
        KeysMonotone(chosen, listed);
        SyncReachesReplicas(ms, plane.start, l0, plane.log, seen1, plane.seen, |listed|, chosen);
      }
    }

    /** The checks before a set is scaled: it must be valid, its cluster must be
        there, and it must carry the finalizer and not be in deletion. */
    method Admit(read: MachineSet) returns (early: Option<SetOutcome>, ms: MachineSet, ghost heard: seq<SetAnswer>)
      modifies store
      ensures store.answers == old(store.answers) + heard && AdmitTrace(read, heard, early, ms)
      ensures ms == read.(owned := ms.owned, finalizers := ms.finalizers)
      ensures early.None? ==>
                && ValidSet(read) && ms == read.(owned := true)
                && !read.deleting && FOREGROUND_DELETION in read.finalizers
      ensures early != Some(Hung)
      ensures early == Some(Done) ==> ValidSet(read) && read.deleting
      ensures early == Some(RequeueNow) ==> ValidSet(read) && !read.deleting && FOREGROUND_DELETION !in read.finalizers
    {
      ms, heard := read, [];
      if !ValidSet(read) {
        return Some(Failing(Invalid)), ms, heard;
      }
      var clusters := store.ListClusters(read.key.ns);
      heard := [ClustersListed(read.key.ns, clusters)];
      if clusters.Err? || |clusters.value| != 1 {
        return Some(Failing(NoCluster)), ms, heard;
      }
      var k := Key(read.key.ns, clusters.value[0]);
      var cluster := store.GetCluster(k);
      heard := heard + [ClusterRead(k, cluster)];
      if cluster.Err? {
        return Some(Failing(NoCluster)), ms, heard;
      }
      if !ms.owned {
        ms := ms.(owned := true);
      }
      var hasFinalizer := Util.ContainsString(ms.finalizers, FOREGROUND_DELETION);
      if !ms.deleting && !hasFinalizer {
        ms := ms.(finalizers := ms.finalizers + [FOREGROUND_DELETION]);
        var updated := store.UpdateSet(ms);
        heard := heard + [SetUpdated(ms, updated)];
        return Some(if updated.Err? then Failing(UpdateFailed) else RequeueNow), ms, heard;
      }
      if ms.deleting {
        return Some(Done), ms, heard;
      }
      return None, ms, heard;
    }

    /** calculateStatus and updateStatus: phase and counts are written into the
        copy of the set that a fresh read gave, whether or not the sync went well. */
    method UpdateStatus(ms: MachineSet, synced: bool, filtered: array<Machine>)
        returns (stored: Option<MachineSet>, ghost heard: seq<SetAnswer>)
      modifies store
      ensures store.answers == old(store.answers) + heard
      ensures StatusTrace(ms.key, StatusOf(ms, filtered[..], synced), heard, stored)
    {
      var own := ms.(status := ms.status.(phase := if synced then ReadySet else ErrorSet));
      var newStatus := CalculateStatus(own, filtered);
      var latest := store.GetSet(ms.key);
      heard := [SetRead(ms.key, latest)];
      if latest.Err? {
        return None, heard;
      }
      var copy := latest.value.(status := newStatus);
      var updated := store.StoreStatus(copy);
      heard := heard + [StatusStored(copy, updated)];
      return if updated.Err? then None else Some(copy), heard;
    }

    /** Reconcile on a copy of the set. Reads and writes of the cluster and of
        the set itself may fail. `written` is the status that was stored; it
        counts the machines `before` the sync sorted and changed them. */
    method Reconcile(read: MachineSet)
      returns (outcome: SetOutcome, written: Option<SetStatus>, ghost before: seq<Machine>, ghost pass: SetPass)
      requires plane.Valid()
      modifies plane, store
      ensures plane.calls == SetPassCalls(old(plane.calls), pass)
      ensures store.answers == SetPassAnswers(old(store.answers), pass)
      ensures SetPassOk(read, pass, outcome)
      ensures pass.early.None? ==> AdoptsAll(pass.admitted, plane.state, pass.all, pass.steps, before)
      ensures plane.Valid() && old(plane.state).past <= plane.state.past && old(plane.seen) <= plane.seen
      ensures old(plane.log) <= plane.log && DeletesOwn(read.uid, plane.start, plane.log, |old(plane.log)|)
      ensures read.deleting || !ValidSet(read) || FOREGROUND_DELETION !in read.finalizers ==>
                Foreign(MachineSetController(read.uid), old(plane.log), plane.log) && written.None?
      ensures outcome == Done ==>
                ValidSet(read) && (read.deleting
                    || (FOREGROUND_DELETION in read.finalizers && written.Some? && read.replicas >= 0))
      ensures outcome == RequeueNow ==> !read.deleting && FOREGROUND_DELETION !in read.finalizers
      ensures outcome == Hung ==> read.replicas < 0 && written.None?
      ensures PassWell(read, plane.start, old(plane.log), plane.log, old(plane.seen), plane.seen, outcome)
      ensures written.Some? ==>
                && written.value == SetStatus(if outcome.Failing? then ErrorSet else ReadySet,
                                              |before|, CountMatching(before, read.template.labels))
                && AllClaimed(read, plane.state, before)
      ensures Reliable(read, plane.start, old(plane.log), old(plane.seen), plane.log) && written.Some? ==>
                |before| == |Kept(read, old(plane.state))|
    {
      ghost var l0, seen0, c0, a0 := plane.log, plane.seen, plane.calls, store.answers;
      before, written := [], None;
      var early, ms, list;
      early, ms, list, pass := Begin(read);
      ghost var l1, seen1 := plane.log, plane.seen;
      if early.Some? {
        outcome := early.value;
        NoMoreCalls(c0, a0, pass);
        EndedAtOnce(read, pass, outcome, list);
        return;
      }
      ghost var begun := pass;
      outcome, written, before, pass := ScaleAndReport(ms, list, pass);
      SetPassFromParts(read, begun, pass, outcome);
      DeletesOwnJoin(read.uid, plane.start, l1, plane.log, |l0|);
      PassEnds(read, ms, plane.start, l0, l1, plane.log, seen0, seen1, plane.seen, list, |before|, outcome == Done);
      SameClaims(read, ms, plane.state, before);
    }

    /** Lists the machines and looks whether the set may be scaled. */
    method Begin(read: MachineSet)
      returns (early: Option<SetOutcome>, ms: MachineSet, list: seq<Machine>, ghost pass: SetPass)
      requires plane.Valid()
      modifies plane, store
      ensures plane.calls == old(plane.calls) + pass.listing && store.answers == old(store.answers) + pass.admitting
      ensures NothingSynced(pass) && BeginTrace(read, pass, early, list) && pass.admitted == ms
      ensures plane.Valid() && old(plane.state).past <= plane.state.past && old(plane.seen) <= plane.seen
      ensures Foreign(MachineSetController(read.uid), old(plane.log), plane.log)
      ensures DeletesOwn(read.uid, plane.start, plane.log, |old(plane.log)|)
      ensures early.None? ==>
                && ValidSet(read) && ms == read.(owned := true)
                && !read.deleting && FOREGROUND_DELETION in read.finalizers
      ensures early != Some(Hung)
      ensures early == Some(Done) ==> ValidSet(read) && read.deleting
      ensures early == Some(RequeueNow) ==> ValidSet(read) && !read.deleting && FOREGROUND_DELETION !in read.finalizers
      ensures early.None? ==>
                && (forall m :: m in list <==> m in plane.Cached().machines.Values && m.key.ns == read.key.ns)
                && DistinctKeys(list) && forall m :: m in list ==> m in plane.state.past
      ensures early.Some? ==> PassWell(read, plane.start, old(plane.log), plane.log, old(plane.seen), plane.seen,
                                       early.value)
      ensures early.Some? ==> pass.early.Some? || pass.all == []
    {
      ghost var l0, seen0 := plane.log, plane.seen;
      var listed := plane.List(MachineSetController(read.uid), read.key.ns);
      pass := NoPass([ListCall(read.key.ns, listed)], read);
      list := [];
      if listed.Err? {
        return Some(Failing(ListFailed)), read, list, pass;
      }
      list := listed.value;
      if Reliable(read, plane.start, l0, seen0, plane.log) {
        ReliableList(read, plane.start, l0, plane.log, seen0, plane.seen, list);
      }
      ghost var admitting;
      early, ms, admitting := Admit(read);
      pass := pass.(admitting := admitting, admitted := ms, early := early, all := list);
    }

    /** The pass over a set that may be scaled: the status is written whether or not
        the sync went well. */
    method ScaleAndReport(ms: MachineSet, all: seq<Machine>, ghost begun: SetPass)
      returns (outcome: SetOutcome, written: Option<SetStatus>, ghost before: seq<Machine>, ghost pass: SetPass)
      requires plane.Valid() && ValidSet(ms) && DistinctKeys(all) && begun.admitted == ms && begun.all == all
      requires forall m :: m in all ==> m in plane.state.past && m.key.ns == ms.key.ns
      modifies plane, store
      ensures plane.calls == Flat(old(plane.calls) + CallsOf(pass.steps) + pass.made, pass.polls)
      ensures store.answers == old(store.answers) + pass.storing
      ensures ScaledTrace(pass, outcome) && before == KeptOf(pass.steps)
      ensures AdoptsAll(ms, plane.state, all, pass.steps, before)
      ensures pass.listing == begun.listing && pass.admitting == begun.admitting && pass.admitted == ms
              && pass.early == begun.early && pass.all == all
      ensures plane.Valid() && old(plane.state).past <= plane.state.past && old(plane.seen) <= plane.seen
      ensures AllClaimed(ms, plane.state, before)
      ensures old(plane.log) <= plane.log && DeletesOwn(ms.uid, plane.start, plane.log, |old(plane.log)|)
      ensures outcome == Hung <==> ms.replicas < 0
      ensures outcome == Done || outcome == Hung || outcome.Failing?
      ensures outcome == Done ==> written.Some?
      ensures outcome == Hung ==> written.None?
      ensures written.Some? ==> written.value == StatusOf(ms, before, !outcome.Failing?)
      ensures Trusted(ms, plane.start, old(plane.log), plane.log, old(plane.seen), all) ==>
                && |before| == |Kept(ms, old(plane.state))|
                && (outcome == Done ==>
                      |Kept(ms, plane.state)| == ms.replicas && Settled(ms, plane.start, plane.log, plane.seen))
    {
      var synced, filtered;
      ghost var steps, chosen, order, made, polls;
      synced, filtered, before, steps, chosen, order, made, polls := Scale(ms, all);
      pass := begun.(steps := steps, chosen := chosen, order := order, made := made, polls := polls, synced := synced);
      if synced == Err(Hangs) {
        pass := pass.(storing := []);
        ScaledFromParts(pass, Hung);
        return Hung, None, before, pass;
      }
      outcome, written, pass := Report(ms, synced, filtered, before, pass);
    }

    /** The end of the pass: the status is written whether or not the sync went
        well, and the first error is reported. */
    method Report(ms: MachineSet, synced: Result<(), SyncError>, filtered: array<Machine>, ghost before: seq<Machine>,
                  ghost scaled: SetPass)
      returns (outcome: SetOutcome, written: Option<SetStatus>, ghost pass: SetPass)
      requires synced != Err(Hangs) && scaled.admitted == ms && scaled.synced == synced
      requires before == KeptOf(scaled.steps) && multiset(filtered[..]) == multiset(before)
      requires FilterTrace(ms, scaled.all, scaled.steps)
      requires SyncTrace(ms, |before|, scaled.chosen, scaled.order, scaled.made, scaled.polls, synced)
      modifies store
      ensures store.answers == old(store.answers) + pass.storing
      ensures pass == scaled.(storing := pass.storing, stored := pass.stored) && ScaledTrace(pass, outcome)
      ensures outcome == Done || outcome.Failing?
      ensures outcome == Done ==> synced.Ok? && written.Some?
      ensures written.Some? ==> written.value == StatusOf(ms, before, !outcome.Failing?)
    {
      CountIgnoresOrder(filtered[..], before, ms.template.labels);
      var stored, storing := UpdateStatus(ms, synced.Ok?, filtered);
      pass := scaled.(storing := storing, stored := stored);
      written := if stored.None? then None else Some(stored.value.status);
      if synced.Err? {
        outcome := Failing(SyncFailed(synced.error));
      } else {
        outcome := if stored.None? then Failing(StatusFailed) else Done;
      }
      ScaledFromParts(pass, outcome);
    }

    /** Any number of passes over the set ms, each on a copy of any age, with the
        other controllers running in between. As long as no pass fails and
        nobody outside adds or removes machines of the set, every pass that does
        not find the set in deletion ends with exactly the replicas its copy asks
        for, all of them controlled by the set. In every run the passes delete only
        machines of the set, and a pass after which there is no other hangs on a
        negative number of replicas. */
    method RunPasses(ms: MachineSet, copies: seq<MachineSet>)
        returns (outcomes: seq<SetOutcome>, ghost ends: seq<nat>, ghost passes: seq<SetPass>)
      requires plane.Valid() && plane.log == []
      requires forall r :: r in copies ==> SameSet(ms, r)
      modifies plane, store
      ensures plane.Valid() && |outcomes| == |ends| <= |copies|
      ensures PassesMade(copies, passes, outcomes, old(plane.calls), plane.calls, old(store.answers), store.answers)
      ensures |outcomes| < |copies| ==> outcomes != [] && outcomes[|outcomes| - 1] == Hung
      ensures HungMeansNegative(copies, outcomes)
      ensures AllReached(ms, plane.start, plane.log, copies, outcomes, ends)
      ensures DeletesOwn(ms.uid, plane.start, plane.log, 0)
    {
      outcomes, ends, passes := [], [], [];
      SettledAtFirst(ms, plane.start);
      for i := 0 to |copies|
        invariant |outcomes| == i
        invariant SoFar(ms, copies, outcomes, ends, passes, old(plane.calls), old(store.answers))
      {
        assert copies[i] in copies;
        outcomes, ends, passes := NextPass(ms, copies, outcomes, ends, passes, old(plane.calls), old(store.answers));
        if outcomes[i] == Hung {
          // The only worker never comes back.
          return;
        }
      }
    }

    /** What holds of the passes made so far. */
    ghost predicate SoFar(ms: MachineSet, copies: seq<MachineSet>, outcomes: seq<SetOutcome>, ends: seq<nat>,
                          passes: seq<SetPass>, calls: seq<Call>, answers: seq<SetAnswer>)
      reads this, plane, store
    {
      && plane.Valid() && |outcomes| == |ends| <= |copies|
      && PassesMade(copies, passes, outcomes, calls, plane.calls, answers, store.answers)
      && DeletesOwn(ms.uid, plane.start, plane.log, 0)
      && AllReached(ms, plane.start, plane.log, copies, outcomes, ends)
      && SettledIfFine(ms, plane.start, plane.log, outcomes, plane.seen)
      && HungMeansNegative(copies, outcomes)
    }

    method NextPass(ms: MachineSet, copies: seq<MachineSet>, outcomes: seq<SetOutcome>, ghost ends: seq<nat>,
                    ghost passes: seq<SetPass>, ghost calls: seq<Call>, ghost answers: seq<SetAnswer>)
      returns (outcomes2: seq<SetOutcome>, ghost ends2: seq<nat>, ghost passes2: seq<SetPass>)
      requires |outcomes| < |copies| && SameSet(ms, copies[|outcomes|])
      requires SoFar(ms, copies, outcomes, ends, passes, calls, answers)
      modifies plane, store
      ensures |outcomes2| == |outcomes| + 1
      ensures SoFar(ms, copies, outcomes2, ends2, passes2, calls, answers)
    {
      ghost var l, seen, c, a := plane.log, plane.seen, plane.calls, store.answers;
      var outcome, _, _, pass := Reconcile(copies[|outcomes|]);
      OnePassMade(copies, passes, outcomes, calls, c, answers, a, pass, outcome);
      DeletesOwnJoin(ms.uid, plane.start, l, plane.log, 0);
      OneMorePass(ms, plane.start, l, plane.log, seen, plane.seen, copies, outcomes, ends, outcome);
      outcomes2, ends2, passes2 := outcomes + [outcome], ends + [|plane.log|], passes + [pass];
    }
  }
}
