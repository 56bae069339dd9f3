/** Runs that end with two live machines on one system. Each of the promises in
    `Uniqueness.NoSharedSystem` is kept by some run that shares a system, so none
    of them can be left out. */
module Sharing {
  import opened Objects
  import opened World
  import opened Lifecycle
  import opened Uniqueness
  import Util

  // ---- Passes of the machine controller ---------------------------------------------

  const END := Step(MachineController, EndPass)

  /** MAAS hands out x, and it is recorded in o. */
  function Recording(o: Machine, x: string): seq<Step> {
    [Step(MachineController, Allocate(x)), RecordStep(o, x)]
  }

  function CreationPass(o: Machine, x: string): seq<Step> {
    Recording(o, x) + [END]
  }

  function ReleaseStep(m: Machine): Step {
    Step(MachineController, Release(m.systemId, true, Some(m.uid)))
  }

  /** The write by which a deletion pass takes the machine finalizer away. */
  function RemovalStep(m: Machine): Step {
    Step(MachineController, Write(m.(finalizers := Util.Without(m.finalizers, MACHINE_FINALIZER))))
  }

  /** A deletion pass whose second write is refused. */
  function ReleasingPass(m: Machine): seq<Step> {
    [ReleaseStep(m), END]
  }

  /** A deletion pass whose second write is accepted. */
  function RemovingPass(m: Machine): seq<Step> {
    [ReleaseStep(m), RemovalStep(m), END]
  }

  function GivingBack(x: string): seq<Step> {
    [Step(MachineController, Release(x, true, None)), END]
  }

  /** The pass takes the lost reply to the recording write for a refusal. */
  function GivingBackPass(o: Machine, x: string): seq<Step> {
    Recording(o, x) + GivingBack(x)
  }

  // ---- Which promises a run keeps ------------------------------------------------------

  predicate NoGiveBack(log: seq<Step>) {
    forall step :: step in log && step.event.Release? ==> step.event.cause.Some?
  }

  predicate NoDeletion(log: seq<Step>) {
    forall step :: step in log && step.event.Release? ==> step.event.cause.None?
  }

  lemma NoGiveBackMeansHeld(s: State, log: seq<Step>)
    requires NoGiveBack(log)
    ensures ReleasesOnlyHeld(s, log)
  {
  }

  lemma NoDeletionMeansAccepted(s: State, log: seq<Step>)
    requires NoDeletion(log)
    ensures RemovalsAccepted(s, log)
  {
  }

  lemma FreeConcat(s: State, a: seq<Step>, b: seq<Step>)
    requires OnlyFreeHandedOut(s, a) && OnlyFreeHandedOut(Exec(s, a), b)
    ensures OnlyFreeHandedOut(s, a + b)
  {
    var log := a + b;
    forall i | 0 <= i < |log| && log[i].event.Allocate?
      ensures log[i].event.systemId in Exec(s, log[..i]).maas.free
    {
      if i < |a| {
        assert log[..i] == a[..i];
      } else {
        assert log[..i] == a + b[..i - |a|];
        ExecConcat(s, a, b[..i - |a|]);
      }
    }
  }

  /** Only the first step may hand out a system, and it is free. */
  lemma FreeFirst(s: State, log: seq<Step>)
    requires forall i :: 1 <= i < |log| ==> !log[i].event.Allocate?
    requires log != [] && log[0].event.Allocate? ==> log[0].event.systemId in s.maas.free
    ensures OnlyFreeHandedOut(s, log)
  {
    if log != [] {
      assert log[..0] == [];
    }
  }

  // ---- What the passes do ----------------------------------------------------------

  lemma EndEffect(s: State)
    requires Inv(s)
    ensures var t := Next(s, END);
            && Inv(t) && t.machines == s.machines && t.past == s.past && t.maas.free == s.maas.free
            && t.revision == s.revision && t.nextUid == s.nextUid
  {
    StepKeepsInv(s, END);
  }

  /** After that nothing but MAAS has changed. */
  lemma StillRecorded(s: State, t: State, u: State, x: string, c: Key)
    requires RecordedIn(s, t, x, c) && Inv(u) && u.machines == t.machines && u.past == t.past
    ensures RecordedIn(s, u, x, c)
  {
  }

  lemma CreationEffect(s: State, o: Machine, x: string)
    requires Inv(s) && Waiting(s, o.key) && s.machines[o.key] == o && x != ""
    ensures RecordedIn(s, Exec(s, CreationPass(o, x)), x, o.key)
    ensures x in s.maas.free ==> OnlyFreeHandedOut(s, CreationPass(o, x))
    ensures NoGiveBack(CreationPass(o, x)) && NoDeletion(CreationPass(o, x))
  {
    var t := Exec(s, Recording(o, x));
    AllocateAndRecordEffect(s, x, o.key);
    EndEffect(t);
    ExecSnoc(s, Recording(o, x), END);
    StillRecorded(s, t, Exec(s, CreationPass(o, x)), x, o.key);
    CreationKeeps(s, o, x);
  }

  lemma CreationKeeps(s: State, o: Machine, x: string)
    ensures x in s.maas.free ==> OnlyFreeHandedOut(s, CreationPass(o, x))
    ensures NoGiveBack(CreationPass(o, x)) && NoDeletion(CreationPass(o, x))
  {
    if x in s.maas.free {
      FreeFirst(s, CreationPass(o, x));
    }
  }

  lemma ReleaseMarks(s: State, m: Machine)
    requires Inv(s) && m in s.past && m.phase == Deleting && m.systemId != ""
    ensures var t := Next(s, ReleaseStep(m));
            && Inv(t) && t.machines == s.machines && t.past == s.past
            && m.systemId !in t.maas.open && m.systemId in t.maas.free && m.uid in t.maas.releasedFor
  {
    ReleaseEffect(s, m);
    StepKeepsInv(s, ReleaseStep(m));
  }

  lemma ReleasingEffect(s: State, m: Machine)
    requires Inv(s) && m in s.past && m.phase == Deleting && m.systemId != ""
    ensures var t := Exec(s, ReleasingPass(m));
            Inv(t) && t.machines == s.machines && t.past == s.past && m.systemId in t.maas.free
    ensures OnlyFreeHandedOut(s, ReleasingPass(m)) && NoGiveBack(ReleasingPass(m))
  {
    ReleaseMarks(s, m);
    EndEffect(Next(s, ReleaseStep(m)));
    TwoSteps(s, ReleaseStep(m), END);
    FreeFirst(s, ReleasingPass(m));
  }

  /** A system is released for m once more, and then recorded in o. */
  function ReleasedAndRecorded(m: Machine, o: Machine): seq<Step> {
    ReleasingPass(m) + CreationPass(o, m.systemId)
  }

  lemma ReleaseThenRecord(s: State, m: Machine, o: Machine)
    requires Inv(s) && m in s.past && m.phase == Deleting && m.systemId != ""
    requires Waiting(s, o.key) && s.machines[o.key] == o
    ensures RecordedIn(s, Exec(s, ReleasedAndRecorded(m, o)), m.systemId, o.key)
    ensures OnlyFreeHandedOut(s, ReleasedAndRecorded(m, o)) && NoGiveBack(ReleasedAndRecorded(m, o))
  {
    ReleasingEffect(s, m);
    CreationEffect(Exec(s, ReleasingPass(m)), o, m.systemId);
    ExecConcat(s, ReleasingPass(m), CreationPass(o, m.systemId));
    FreeConcat(s, ReleasingPass(m), CreationPass(o, m.systemId));
  }

  lemma Shared(s: State, k1: Key, k2: Key)
    requires k1 in s.machines && k2 in s.machines && k1 != k2
    requires Live(s.machines[k1]) && Live(s.machines[k2]) && s.machines[k1].systemId == s.machines[k2].systemId
    ensures !LiveDistinct(s)
  {
  }

  // ---- The second write of a deletion pass is refused ------------------------------------

  /** Two deletion passes over d, each of which requests the release of d's
      system and then fails to write the finalizer away, with a creation pass
      for c1 after the first and one for c2 after the second. */
  function TwiceReleased(s: State, d: Key, c1: Key, c2: Key): seq<Step>
    requires d in s.machines && c1 in s.machines && c2 in s.machines
  {
    ReleasedAndRecorded(s.machines[d], s.machines[c1]) + ReleasedAndRecorded(s.machines[d], s.machines[c2])
  }

  /** Such a run ends with two live machines on one system, although MAAS only
      handed out free systems and phase Deleting was stored before each release. */
  lemma TwiceReleasedIsShared(s: State, d: Key, c1: Key, c2: Key)
    requires Inv(s) && d in s.machines && s.machines[d].phase == Deleting && s.machines[d].systemId != ""
    requires Waiting(s, c1) && Waiting(s, c2) && c1 != c2
    ensures !LiveDistinct(Exec(s, TwiceReleased(s, d, c1, c2)))
    ensures OnlyFreeHandedOut(s, TwiceReleased(s, d, c1, c2)) && NoGiveBack(TwiceReleased(s, d, c1, c2))
  {
    var m, first := s.machines[d], ReleasedAndRecorded(s.machines[d], s.machines[c1]);
    ReleaseThenRecord(s, m, s.machines[c1]);
    var t, second := Exec(s, first), ReleasedAndRecorded(m, s.machines[c2]);
    ReleaseThenRecord(t, m, s.machines[c2]);
    ExecConcat(s, first, second);
    FreeConcat(s, first, second);
    Shared(Exec(t, second), c1, c2);
  }

  // ---- It is accepted, but a later pass finds the machine again -------------------------

  /** The removal is accepted, and only then is the system recorded for c1; a
      further deletion pass releases it again, and it is recorded for c2. */
  function ReleasedAfterRemoval(s: State, d: Key, c1: Key, c2: Key): seq<Step>
    requires d in s.machines && c1 in s.machines && c2 in s.machines
  {
    var m := s.machines[d];
    RemovingPass(m) + CreationPass(s.machines[c1], m.systemId) + ReleasedAndRecorded(m, s.machines[c2])
  }

  /** t is s without m, or with m in phase Deleting but without our finalizer if
      another one keeps it. */
  ghost predicate RemovedIn(s: State, t: State, m: Machine) {
    && s.past <= t.past
    && (forall k :: k != m.key ==> (k in t.machines <==> k in s.machines))
    && (forall k :: k != m.key && k in s.machines ==> t.machines[k] == s.machines[k])
    && if Util.Without(m.finalizers, MACHINE_FINALIZER) == [] then m.key !in t.machines
       else
         && m.key in t.machines && t.machines[m.key].phase == Deleting
         && MACHINE_FINALIZER !in t.machines[m.key].finalizers
  }

  lemma RemovalEffect(s: State, m: Machine)
    requires Inv(s) && m.key in s.machines && s.machines[m.key] == m && m.phase == Deleting
    requires m.systemId !in s.maas.open && m.uid in s.maas.releasedFor
    ensures var t := Next(s, RemovalStep(m));
            RemovedIn(s, t, m) && t.maas == s.maas && Inv(t)
  {
    RemovalEnabled(s, m);
    RemovalApplies(s, m);
    StepKeepsInv(s, RemovalStep(m));
  }

  lemma RemovalApplies(s: State, m: Machine)
    requires m.key in s.machines && s.machines[m.key] == m && m.phase == Deleting && m.deleting
    requires Enabled(s, RemovalStep(m))
    ensures RemovedIn(s, Next(s, RemovalStep(m)), m) && Next(s, RemovalStep(m)).maas == s.maas
  {
  }

  lemma RemovalEnabled(s: State, m: Machine)
    requires Inv(s) && m.key in s.machines && s.machines[m.key] == m && m.phase == Deleting
    requires m.systemId !in s.maas.open && m.uid in s.maas.releasedFor
    ensures Enabled(s, RemovalStep(m)) && m.deleting
  {
    assert Retires(m, RemovalStep(m).event.m, s.maas);
    assert MachineOk(m);
  }

  lemma ReleaseAndRemove(s: State, m: Machine)
    requires Inv(s) && m.key in s.machines && s.machines[m.key] == m && m.phase == Deleting && m.systemId != ""
    ensures var t := Exec(s, [ReleaseStep(m), RemovalStep(m)]);
            Inv(t) && RemovedIn(s, t, m) && m in t.past && m.systemId in t.maas.free
  {
    ReleaseMarks(s, m);
    RemovalEffect(Next(s, ReleaseStep(m)), m);
    TwoSteps(s, ReleaseStep(m), RemovalStep(m));
  }

  lemma RemovingEffect(s: State, m: Machine)
    requires Inv(s) && m.key in s.machines && s.machines[m.key] == m && m.phase == Deleting && m.systemId != ""
    ensures var t := Exec(s, RemovingPass(m));
            Inv(t) && RemovedIn(s, t, m) && m in t.past && m.systemId in t.maas.free
    ensures OnlyFreeHandedOut(s, RemovingPass(m)) && NoGiveBack(RemovingPass(m))
  {
    var pair := [ReleaseStep(m), RemovalStep(m)];
    ReleaseAndRemove(s, m);
    EndEffect(Exec(s, pair));
    ExecSnoc(s, pair, END);
    assert RemovingPass(m) == pair + [END];
    RemovingKeeps(s, m);
  }

  lemma RemovingKeeps(s: State, m: Machine)
    ensures OnlyFreeHandedOut(s, RemovingPass(m)) && NoGiveBack(RemovingPass(m))
  {
    FreeFirst(s, RemovingPass(m));
  }

  /** An accepted removal does not prevent sharing as long as a later pass can
      still find the machine in phase Deleting: in an old copy, if the object is
      gone, or in the store, if some other finalizer keeps it. */
  lemma ReleasedAfterRemovalIsShared(s: State, d: Key, c1: Key, c2: Key)
    requires Inv(s) && d in s.machines && s.machines[d].phase == Deleting && s.machines[d].systemId != ""
    requires Waiting(s, c1) && Waiting(s, c2) && c1 != c2
    ensures !LiveDistinct(Exec(s, ReleasedAfterRemoval(s, d, c1, c2)))
    ensures OnlyFreeHandedOut(s, ReleasedAfterRemoval(s, d, c1, c2)) && NoGiveBack(ReleasedAfterRemoval(s, d, c1, c2))
  {
    var m, o1, o2 := s.machines[d], s.machines[c1], s.machines[c2];
    var create, again := CreationPass(o1, m.systemId), ReleasedAndRecorded(m, o2);
    RemovingEffect(s, m);
    var s1 := Exec(s, RemovingPass(m));
    CreationEffect(s1, o1, m.systemId);
    ExecConcat(s, RemovingPass(m), create);
    FreeConcat(s, RemovingPass(m), create);
    var s2 := Exec(s1, create);
    ReleaseThenRecord(s2, m, o2);
    ExecConcat(s, RemovingPass(m) + create, again);
    FreeConcat(s, RemovingPass(m) + create, again);
    Shared(Exec(s2, again), c1, c2);
  }

  // ---- The reply to the recording write is lost -----------------------------------------

  /** The pass for c1 records x, takes the lost reply for a refusal and gives x
      back; the pass for c2 is handed x again. */
  function RecordedAndGivenBack(s: State, x: string, c1: Key, c2: Key): seq<Step>
    requires c1 in s.machines && c2 in s.machines
  {
    GivingBackPass(s.machines[c1], x) + CreationPass(s.machines[c2], x)
  }

  lemma GiveBackEffect(s: State, x: string)
    requires Inv(s) && x != ""
    ensures var t := Exec(s, GivingBack(x));
            Inv(t) && t.machines == s.machines && t.past == s.past && x in t.maas.free
  {
    var back := Step(MachineController, Release(x, true, None));
    GiveBackFrees(s, x);
    EndEffect(Next(s, back));
    TwoSteps(s, back, END);
  }

  lemma GiveBackFrees(s: State, x: string)
    requires Inv(s) && x != ""
    ensures var t := Next(s, Step(MachineController, Release(x, true, None)));
            Inv(t) && t.machines == s.machines && t.past == s.past && x in t.maas.free
  {
    StepKeepsInv(s, Step(MachineController, Release(x, true, None)));
  }

  lemma GivingBackEffect(s: State, o: Machine, x: string)
    requires Inv(s) && Waiting(s, o.key) && s.machines[o.key] == o && x in s.maas.free && x != ""
    ensures var t := Exec(s, GivingBackPass(o, x));
            RecordedIn(s, t, x, o.key) && x in t.maas.free
    ensures OnlyFreeHandedOut(s, GivingBackPass(o, x)) && NoDeletion(GivingBackPass(o, x))
  {
    var t := Exec(s, Recording(o, x));
    AllocateAndRecordEffect(s, x, o.key);
    GiveBackEffect(t, x);
    ExecConcat(s, Recording(o, x), GivingBack(x));
    StillRecorded(s, t, Exec(t, GivingBack(x)), x, o.key);
    GivingBackKeeps(s, o, x);
  }

  lemma GivingBackKeeps(s: State, o: Machine, x: string)
    requires x in s.maas.free
    ensures OnlyFreeHandedOut(s, GivingBackPass(o, x)) && NoDeletion(GivingBackPass(o, x))
  {
    FreeFirst(s, GivingBackPass(o, x));
  }

  /** Such a run, too, ends with two live machines on one system. */
  lemma RecordedAndGivenBackIsShared(s: State, x: string, c1: Key, c2: Key)
    requires Inv(s) && x in s.maas.free && x != ""
    requires Waiting(s, c1) && Waiting(s, c2) && c1 != c2
    ensures !LiveDistinct(Exec(s, RecordedAndGivenBack(s, x, c1, c2)))
    ensures OnlyFreeHandedOut(s, RecordedAndGivenBack(s, x, c1, c2)) && NoDeletion(RecordedAndGivenBack(s, x, c1, c2))
  {
    var o1, o2 := s.machines[c1], s.machines[c2];
    GivingBackEffect(s, o1, x);
    var t := Exec(s, GivingBackPass(o1, x));
    CreationEffect(t, o2, x);
    ExecConcat(s, GivingBackPass(o1, x), CreationPass(o2, x));
    FreeConcat(s, GivingBackPass(o1, x), CreationPass(o2, x));
    Shared(Exec(t, CreationPass(o2, x)), c1, c2);
  }

  // ---- Runs from the beginning ------------------------------------------------------

  /** The object a user creates. */
  function Fresh(s: State, k: Key): Machine {
    Machine(k, s.nextUid, s.revision + 1, map[], map[], [], [], false, [], "", Unset, "", "", "")
  }

  function CreateStep(s: State, k: Key): Step {
    Step(User, World.Create(Fresh(s, k)))
  }

  lemma CreateEffect(s: State, k: Key)
    requires Inv(s) && k !in s.machines
    ensures var t := Next(s, CreateStep(s, k));
            && Inv(t) && t.machines == s.machines[k := Fresh(s, k)] && t.maas == s.maas && Waiting(t, k)
            && t.revision == s.revision + 1
  {
    StepKeepsInv(s, CreateStep(s, k));
  }

  /** A user creates two machines. */
  function TwoMachines(s: State, c1: Key, c2: Key): seq<Step> {
    [CreateStep(s, c1), CreateStep(Next(s, CreateStep(s, c1)), c2)]
  }

  lemma TwoMachinesWait(s: State, c1: Key, c2: Key)
    requires Inv(s) && c1 !in s.machines && c2 !in s.machines && c1 != c2
    ensures var t := Exec(s, TwoMachines(s, c1, c2));
            && Inv(t) && Waiting(t, c1) && Waiting(t, c2) && t.maas == s.maas
            && t.machines.Keys == s.machines.Keys + {c1, c2}
  {
    var t := Next(s, CreateStep(s, c1));
    CreateEffect(s, c1);
    CreateEffect(t, c2);
    TwoSteps(s, CreateStep(s, c1), CreateStep(t, c2));
  }

  lemma TwoMachinesKeep(s: State, c1: Key, c2: Key)
    ensures OnlyFreeHandedOut(s, TwoMachines(s, c1, c2))
    ensures NoGiveBack(TwoMachines(s, c1, c2)) && NoDeletion(TwoMachines(s, c1, c2))
  {
    FreeFirst(s, TwoMachines(s, c1, c2));
  }

  function MarkStep(m: Machine): Step {
    Step(MachineController, Write(m.(phase := Deleting)))
  }

  function Marked(s: State, m: Machine): seq<Step> {
    [Step(User, World.Delete(m.key)), MarkStep(m.(deleting := true, version := s.revision + 1))]
  }

  /** A user deletes m, and a pass marks it and then fails. */
  function DeletedAndMarked(s: State, m: Machine): seq<Step> {
    Marked(s, m) + [END]
  }

  /** m is stored, and the other machines are as they were. */
  ghost predicate OneChanged(s: State, t: State, m: Machine) {
    && m.key in t.machines && t.machines[m.key] == m
    && forall j :: j != m.key && j in s.machines ==> j in t.machines && t.machines[j] == s.machines[j]
  }

  lemma DeleteEffect(s: State, m: Machine)
    requires m.key in s.machines && s.machines[m.key] == m && m.finalizers != [] && !m.deleting
    ensures OneChanged(s, Next(s, Step(User, World.Delete(m.key))), m.(deleting := true, version := s.revision + 1))
  {
  }

  lemma MarkEffect(s: State, m: Machine)
    requires m.key in s.machines && s.machines[m.key] == m && m.finalizers != [] && m.deleting && m.phase != Deleting
    ensures OneChanged(s, Next(s, MarkStep(m)), m.(phase := Deleting, version := s.revision + 1))
  {
    assert MarksDeleting(m, MarkStep(m).event.m);
  }

  /** The first two steps. */
  lemma DeleteThenMark(s: State, m: Machine)
    requires Inv(s) && m.key in s.machines && s.machines[m.key] == m && Live(m) && !m.deleting
    ensures var deleted := m.(deleting := true, version := s.revision + 1);
            var s1 := Next(s, Step(User, World.Delete(m.key)));
            Inv(Next(s1, MarkStep(deleted))) && InDeletion(s, Next(s1, MarkStep(deleted)), m.key, m.systemId)
  {
    var deleted := m.(deleting := true, version := s.revision + 1);
    var s1 := Next(s, Step(User, World.Delete(m.key)));
    assert MachineOk(m);
    DeleteEffect(s, m);
    MarkEffect(s1, deleted);
    StepKeepsInv(s, Step(User, World.Delete(m.key)));
    StepKeepsInv(s1, MarkStep(deleted));
    ChangedTwice(s, s1, Next(s1, MarkStep(deleted)), deleted, m.systemId);
  }

  lemma ChangedTwice(s: State, t: State, u: State, m: Machine, x: string)
    requires OneChanged(s, t, m) && exists v :: OneChanged(t, u, m.(phase := Deleting, version := v)) && m.systemId == x
    ensures InDeletion(s, u, m.key, x)
  {
  }

  lemma MarkedEffect(s: State, m: Machine)
    requires Inv(s) && m.key in s.machines && s.machines[m.key] == m && Live(m) && !m.deleting
    ensures var t := Exec(s, Marked(s, m));
            Inv(t) && InDeletion(s, t, m.key, m.systemId)
  {
    TwoSteps(s, Step(User, World.Delete(m.key)), MarkStep(m.(deleting := true, version := s.revision + 1)));
    DeleteThenMark(s, m);
  }

  lemma DeletedAndMarkedEffect(s: State, m: Machine)
    requires Inv(s) && m.key in s.machines && s.machines[m.key] == m && Live(m) && !m.deleting
    ensures var t := Exec(s, DeletedAndMarked(s, m));
            Inv(t) && InDeletion(s, t, m.key, m.systemId)
  {
    MarkedEffect(s, m);
    EndEffect(Exec(s, Marked(s, m)));
    ExecSnoc(s, Marked(s, m), END);
  }

  lemma DeletedAndMarkedKeeps(s: State, m: Machine)
    ensures OnlyFreeHandedOut(s, DeletedAndMarked(s, m)) && NoGiveBack(DeletedAndMarked(s, m))
  {
    FreeFirst(s, DeletedAndMarked(s, m));
  }

  /** The machine under k, with system x, is in phase Deleting, and the others are
      as they were. */
  ghost predicate InDeletion(s: State, t: State, k: Key, x: string) {
    && k in t.machines && t.machines[k].phase == Deleting && t.machines[k].systemId == x
    && forall j :: j != k && j in s.machines ==> j in t.machines && t.machines[j] == s.machines[j]
  }

  /** A user creates a machine, a pass records x in it, the user deletes it, and
      a pass marks it and then fails. */
  lemma MachineInDeletion(s: State, k: Key, x: string) returns (log: seq<Step>)
    requires Inv(s) && k !in s.machines && x in s.maas.free && x != ""
    ensures Inv(Exec(s, log)) && InDeletion(s, Exec(s, log), k, x)
    ensures OnlyFreeHandedOut(s, log) && NoGiveBack(log)
  {
    var t, recorded := CreatedAndRecorded(s, k, x);
    var m := t.machines[k];
    DeletedAndMarkedEffect(t, m);
    DeletedAndMarkedKeeps(t, m);
    log := recorded + DeletedAndMarked(t, m);
    ExecConcat(s, recorded, DeletedAndMarked(t, m));
    FreeConcat(s, recorded, DeletedAndMarked(t, m));
  }

  lemma CreatedAndRecorded(s: State, k: Key, x: string) returns (t: State, log: seq<Step>)
    requires Inv(s) && k !in s.machines && x in s.maas.free && x != ""
    ensures t == Exec(s, log) && Inv(t) && k in t.machines && t.machines[k].key == k
    ensures Live(t.machines[k]) && !t.machines[k].deleting && t.machines[k].systemId == x
    ensures forall j :: j != k && j in s.machines ==> j in t.machines && t.machines[j] == s.machines[j]
    ensures OnlyFreeHandedOut(s, log) && NoGiveBack(log)
  {
    var s1, create := Created(s, k);
    var pass := CreationPass(s1.machines[k], x);
    CreationEffect(s1, s1.machines[k], x);
    log := create + pass;
    ExecConcat(s, create, pass);
    FreeConcat(s, create, pass);
    t := Exec(s, log);
  }

  lemma Created(s: State, k: Key) returns (t: State, log: seq<Step>)
    requires Inv(s) && k !in s.machines
    ensures t == Exec(s, log) && Inv(t) && Waiting(t, k) && t.machines[k].key == k && t.maas == s.maas
    ensures forall j :: j != k && j in s.machines ==> j in t.machines && t.machines[j] == s.machines[j]
    ensures OnlyFreeHandedOut(s, log) && NoGiveBack(log)
  {
    log := [CreateStep(s, k)];
    CreateEffect(s, k);
    SingleStep(s, CreateStep(s, k));
    FreeFirst(s, log);
    t := Exec(s, log);
  }

  lemma Beginning(start: State, x: string, d: Key, c1: Key, c2: Key) returns (log: seq<Step>)
    requires Initial(start) && x in start.maas.free && x != "" && d != c1 && d != c2 && c1 != c2
    ensures var s := Exec(start, log);
            && Inv(s) && d in s.machines && s.machines[d].phase == Deleting && s.machines[d].systemId == x
            && Waiting(s, c1) && Waiting(s, c2)
    ensures OnlyFreeHandedOut(start, log) && NoGiveBack(log)
  {
    RunKeepsInv(start, []);
    var two := TwoMachines(start, c1, c2);
    TwoMachinesWait(start, c1, c2);
    TwoMachinesKeep(start, c1, c2);
    var rest := MachineInDeletion(Exec(start, two), d, x);
    log := two + rest;
    ExecConcat(start, two, rest);
    FreeConcat(start, two, rest);
  }

  /** Where the first run begins: a machine in deletion, and two that wait. It goes
      on with two refused updates, or with an accepted one and a copy from before
      it. Systems are handed out while they are free and given back while they are
      held, and still two machines share one. */
  lemma RemovalsAreNeeded(start: State, x: string, d: Key, c1: Key, c2: Key) returns (log: seq<Step>)
    requires Initial(start) && x in start.maas.free && x != "" && d != c1 && d != c2 && c1 != c2
    ensures var s := Exec(start, log);
            && d in s.machines && c1 in s.machines && c2 in s.machines
            && SharesDespite(start, log + TwiceReleased(s, d, c1, c2))
            && SharesDespite(start, log + ReleasedAfterRemoval(s, d, c1, c2))
  {
    log := Beginning(start, x, d, c1, c2);
    var s := Exec(start, log);
    TwiceReleasedIsShared(s, d, c1, c2);
    GoesOn(start, log, TwiceReleased(s, d, c1, c2));
    ReleasedAfterRemovalIsShared(s, d, c1, c2);
    GoesOn(start, log, ReleasedAfterRemoval(s, d, c1, c2));
  }

  ghost predicate SharesDespite(start: State, log: seq<Step>) {
    !LiveDistinct(Exec(start, log)) && OnlyFreeHandedOut(start, log) && ReleasesOnlyHeld(start, log)
  }

  lemma GoesOn(start: State, log: seq<Step>, rest: seq<Step>)
    requires OnlyFreeHandedOut(start, log) && OnlyFreeHandedOut(Exec(start, log), rest)
    requires NoGiveBack(log) && NoGiveBack(rest) && !LiveDistinct(Exec(Exec(start, log), rest))
    ensures SharesDespite(start, log + rest)
  {
    ExecConcat(start, log, rest);
    FreeConcat(start, log, rest);
    NoGiveBackMeansHeld(start, log + rest);
  }

  /** MAAS hands out only free systems, every deletion is completed, and a pass
      gives back what it has recorded. */
  lemma HoldingIsNeeded(start: State, x: string, c1: Key, c2: Key)
    requires Initial(start) && x in start.maas.free && x != "" && c1 != c2
    ensures var s := Exec(start, TwoMachines(start, c1, c2));
            && c1 in s.machines && c2 in s.machines
            && var log := TwoMachines(start, c1, c2) + RecordedAndGivenBack(s, x, c1, c2);
               !LiveDistinct(Exec(start, log)) && OnlyFreeHandedOut(start, log) && RemovalsAccepted(start, log)
  {
    var two := TwoMachines(start, c1, c2);
    RunKeepsInv(start, []);
    TwoMachinesWait(start, c1, c2);
    TwoMachinesKeep(start, c1, c2);
    var s := Exec(start, two);
    RecordedAndGivenBackIsShared(s, x, c1, c2);
    ExecConcat(start, two, RecordedAndGivenBack(s, x, c1, c2));
    FreeConcat(start, two, RecordedAndGivenBack(s, x, c1, c2));
    NoDeletionMeansAccepted(start, two + RecordedAndGivenBack(s, x, c1, c2));
  }

  /** MAAS hands out one system twice, with nothing deleted or given back. */
  lemma FreedomIsNeeded(start: State, x: string, c1: Key, c2: Key)
    requires Initial(start) && x != "" && c1 != c2
    ensures var s := Exec(start, TwoMachines(start, c1, c2));
            && c1 in s.machines && c2 in s.machines
            && var log := TwoMachines(start, c1, c2)
                          + (CreationPass(s.machines[c1], x) + CreationPass(s.machines[c2], x));
               !LiveDistinct(Exec(start, log)) && RemovalsAccepted(start, log) && ReleasesOnlyHeld(start, log)
  {
    var two := TwoMachines(start, c1, c2);
    RunKeepsInv(start, []);
    TwoMachinesWait(start, c1, c2);
    TwoMachinesKeep(start, c1, c2);
    var s := Exec(start, two);
    var first, second := CreationPass(s.machines[c1], x), CreationPass(s.machines[c2], x);
    CreationEffect(s, s.machines[c1], x);
    CreationEffect(Exec(s, first), s.machines[c2], x);
    ExecConcat(s, first, second);
    ExecConcat(start, two, first + second);
    Shared(Exec(start, two + (first + second)), c1, c2);
    NoDeletionMeansAccepted(start, two + (first + second));
    NoGiveBackMeansHeld(start, two + (first + second));
  }
}
