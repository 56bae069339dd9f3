/** When two machines can come to share one MAAS system. */
module Uniqueness {
  import opened Objects
  import opened World
  import opened Lifecycle
  import Accounting
  import Util

  /** The machine records a system and no release was requested for it. */
  predicate Claims(s: State, k: Key) {
    k in s.machines && s.machines[k].systemId != "" && s.machines[k].uid !in s.maas.releasedFor
  }

  ghost predicate Distinct(s: State) {
    && (forall k :: Claims(s, k) ==> s.machines[k].systemId !in s.maas.free && s.machines[k].systemId !in s.maas.held)
    && (forall k1, k2 :: Claims(s, k1) && Claims(s, k2) && k1 != k2 ==>
        s.machines[k1].systemId != s.machines[k2].systemId)
    && s.maas.held !! s.maas.free
  }

  /** No two live machines hold the same system. */
  ghost predicate LiveDistinct(s: State) {
    forall k1, k2 ::
      k1 in s.machines && k2 in s.machines && k1 != k2 && Live(s.machines[k1]) && Live(s.machines[k2]) ==>
        s.machines[k1].systemId != s.machines[k2].systemId
  }

  /** MAAS hands out only free systems; a pass that gives a system back still
      holds it; a release on behalf of a machine object is requested once. */
  predicate CarefulStep(s: State, step: Step) {
    Enabled(s, step) ==>
      match step.event
      case Allocate(x) => x in s.maas.free
      case Release(x, _, None) => x in s.maas.held
      case Release(_, _, Some(u)) => u !in s.maas.releasedFor
      case _ => true
  }

  predicate Careful(s: State, log: seq<Step>) {
    log == [] || (Careful(s, log[..|log| - 1]) && CarefulStep(Exec(s, log[..|log| - 1]), log[|log| - 1]))
  }

  lemma LiveClaims(s: State, k: Key)
    requires Inv(s) && k in s.machines && Live(s.machines[k])
    ensures Claims(s, k)
  {
    if s.machines[k].uid in s.maas.releasedFor {
      var p :| p in s.past && p.uid == s.machines[k].uid && p.phase == Deleting;
      StoredIsLatest(s, k, p);
    }
  }

  lemma DistinctLive(s: State)
    requires Inv(s) && Distinct(s)
    ensures LiveDistinct(s)
    ensures forall k :: k in s.machines && Live(s.machines[k]) ==> s.machines[k].systemId !in s.maas.free
  {
    forall k | k in s.machines && Live(s.machines[k])
      ensures Claims(s, k)
    {
      LiveClaims(s, k);
    }
  }

  /** At most one claim is new, and it is for a system that was held. */
  lemma OneNewClaim(s: State, t: State, key: Key)
    requires Distinct(s) && t.maas.free == s.maas.free && t.maas.held <= s.maas.held
    requires forall k :: k != key && Claims(t, k) ==> Claims(s, k) && t.machines[k].systemId == s.machines[k].systemId
    requires Claims(t, key) ==>
               || (Claims(s, key) && t.machines[key].systemId == s.machines[key].systemId)
               || t.machines[key].systemId in s.maas.held - t.maas.held
    ensures Distinct(t)
  {
  }

  /** A write may turn a held system into a claim of the written machine, and
      touches no other claim. */
  lemma WriteKeepsDistinct(s: State, step: Step)
    requires Inv(s) && Distinct(s) && Enabled(s, step) && step.event.Write?
    ensures Distinct(Apply(s, step))
  {
    var t, m := Apply(s, step), step.event.m;
    PermittedWrite(step.actor, s.machines[m.key], m, s.maas);
    OneNewClaim(s, t, m.key);
  }

  /** Creations and deletions of objects keep the claims apart. */
  lemma ObjectStepKeepsDistinct(s: State, step: Step)
    requires Inv(s) && Distinct(s) && Enabled(s, step)
    requires step.event.Create? || step.event.Delete?
    ensures Distinct(Apply(s, step))
  {
    var t := Apply(s, step);
    forall k | Claims(t, k) ensures Claims(s, k) && t.machines[k].systemId == s.machines[k].systemId {}
  }

  /** A first release on behalf of an object frees a system nobody else claims. */
  lemma ReleaseKeepsDistinct(s: State, step: Step)
    requires Inv(s) && Distinct(s) && Enabled(s, step) && step.event.Release?
    requires forall k :: Claims(s, k) && s.machines[k].systemId == step.event.systemId ==>
               step.event.cause == Some(s.machines[k].uid)
    ensures Distinct(Apply(s, step))
  {
    var t := Apply(s, step);
    forall k | Claims(t, k) ensures Claims(s, k) && s.machines[k].systemId != step.event.systemId {}
  }

  lemma CarefulStepKeepsDistinct(s: State, step: Step)
    requires Inv(s) && Distinct(s) && CarefulStep(s, step)
    ensures Distinct(Next(s, step))
  {
    if Enabled(s, step) {
      match step.event {
        case Allocate(_) =>
          var t := Apply(s, step);
          forall k | Claims(t, k) ensures Claims(s, k) {}
        case EndPass =>
          var t := Apply(s, step);
          forall k | Claims(t, k) ensures Claims(s, k) {}
        case Release(x, _, cause) =>
          if cause.Some? {
            var p :| p in s.past && p.uid == cause.value && p.phase == Deleting && p.systemId == x;
            StoredIsLatest(s, p.key, p);
            assert Claims(s, p.key);
          }
          ReleaseKeepsDistinct(s, step);
        case Write(_) => WriteKeepsDistinct(s, step);
        case _ => ObjectStepKeepsDistinct(s, step);
      }
    }
  }

  lemma {:induction false} CarefulRunKeepsDistinct(s: State, log: seq<Step>)
    requires Inv(s) && Distinct(s) && Careful(s, log)
    ensures Inv(Exec(s, log)) && Distinct(Exec(s, log))
  {
    if log != [] {
      var front := log[..|log| - 1];
      CarefulRunKeepsDistinct(s, front);
      StepKeepsInv(Exec(s, front), log[|log| - 1]);
      CarefulStepKeepsDistinct(Exec(s, front), log[|log| - 1]);
    }
  }

  /** In every careful run no two machines in phase Creating or Ready hold the
      same system, and MAAS does not consider such a system free. */
  lemma CarefulMeansDistinct(s: State, log: seq<Step>)
    requires Initial(s) && Careful(s, log)
    ensures Apart(Exec(s, log))
  {
    CarefulRunKeepsDistinct(s, log);
    DistinctLive(Exec(s, log));
  }

  /** No two live machines hold the same system, nor is one of those free. */
  ghost predicate Apart(s: State) {
    && LiveDistinct(s)
    && forall k :: k in s.machines && Live(s.machines[k]) ==> s.machines[k].systemId !in s.maas.free
  }

  // ---- When a run is careful ------------------------------------------------------

  /** MAAS hands out only systems that are free. */
  ghost predicate OnlyFreeHandedOut(s: State, log: seq<Step>) {
    forall i :: 0 <= i < |log| && log[i].event.Allocate? ==> log[i].event.systemId in Exec(s, log[..i]).maas.free
  }

  /** Step j is an accepted update that takes the last finalizer of the object
      with uid u, which is in deletion. */
  predicate Removes(s: State, log: seq<Step>, j: nat, u: nat)
    requires j < |log|
  {
    && log[j].event.Write? && Enabled(Exec(s, log[..j]), log[j])
    && log[j].event.m.uid == u && log[j].event.m.deleting && log[j].event.m.finalizers == []
  }

  /** Step j is the next one of the machine controller after step i. */
  predicate NextOwn(log: seq<Step>, i: nat, j: nat) {
    && i < j < |log| && log[j].actor == MachineController
    && forall k :: i < k < j ==> log[k].actor != MachineController
  }

  /** Every release for a deletion is followed by the accepted update that
      removes the object. */
  ghost predicate RemovalsAccepted(s: State, log: seq<Step>) {
    forall i :: 0 <= i < |log| && log[i].event.Release? && log[i].event.cause.Some? ==>
      exists j: nat {:trigger NextOwn(log, i, j)} :: NextOwn(log, i, j) && Removes(s, log, j, log[i].event.cause.value)
  }

  /** A release for no deletion is of a system the pass still holds. */
  ghost predicate ReleasesOnlyHeld(s: State, log: seq<Step>) {
    forall i ::
      0 <= i < |log| && Enabled(Exec(s, log[..i]), log[i]) && log[i].event.Release? && log[i].event.cause.None? ==>
        log[i].event.systemId in Exec(s, log[..i]).maas.held
  }

  /** A release for a deletion was requested by some step. */
  lemma {:induction false} ReleasedByStep(s: State, log: seq<Step>, n: nat, u: nat) returns (j: nat)
    requires Initial(s) && n <= |log| && u in Exec(s, log[..n]).maas.releasedFor
    ensures j < n && log[j].event.Release? && log[j].event.cause == Some(u)
    decreases n
  {
    ExecPrefix(s, log, n - 1);
    if u in Exec(s, log[..n - 1]).maas.releasedFor {
      j := ReleasedByStep(s, log, n - 1, u);
    } else {
      j := n - 1;
    }
  }

  /** After the removal no object has the uid. */
  lemma RemovedIsGone(s: State, log: seq<Step>, j: nat, u: nat)
    requires Initial(s) && j < |log| && Removes(s, log, j, u)
    ensures Accounting.Gone(Exec(s, log[..j + 1]), u)
  {
    var t, m := Exec(s, log[..j]), log[j].event.m;
    RunKeepsInv(s, log[..j]);
    ExecPrefix(s, log, j);
    PermittedWrite(log[j].actor, t.machines[m.key], m, t.maas);
    forall k | k in t.machines && k != m.key
      ensures t.machines[k].uid != u
    {
      UidsDiffer(t, k, m.key);
    }
  }

  lemma RemovedWasThere(s: State, log: seq<Step>, j: nat, u: nat)
    requires Initial(s) && j < |log| && Removes(s, log, j, u)
    ensures !Accounting.Gone(Exec(s, log[..j]), u)
  {
    var t, m := Exec(s, log[..j]), log[j].event.m;
    RunKeepsInv(s, log[..j]);
    PermittedWrite(log[j].actor, t.machines[m.key], m, t.maas);
  }

  /** So no deletion has its system released twice: the second release would
      have to be followed by the removal of an object that is gone. */
  lemma NoSecondRelease(s: State, log: seq<Step>, i: nat, n: nat, u: nat)
    requires Initial(s) && RemovalsAccepted(s, log) && i < n < |log|
    requires log[i].event.Release? && log[i].event.cause == Some(u)
    requires log[n].event.Release? && log[n].actor == MachineController
    ensures log[n].event.cause != Some(u)
  {
    if log[n].event.cause == Some(u) {
      var j := RemovalAfter(s, log, i, u);
      var l := RemovalAfter(s, log, n, u);
      RemovedWasThere(s, log, l, u);
      RemovedStaysGone(s, log, j, l, u);
    }
  }

  lemma RemovalAfter(s: State, log: seq<Step>, i: nat, u: nat) returns (j: nat)
    requires RemovalsAccepted(s, log) && i < |log| && log[i].event.Release? && log[i].event.cause == Some(u)
    ensures NextOwn(log, i, j) && Removes(s, log, j, u)
  {
    j :| NextOwn(log, i, j) && Removes(s, log, j, u);
  }

  lemma RemovedStaysGone(s: State, log: seq<Step>, j: nat, l: nat, u: nat)
    requires Initial(s) && j < l <= |log| && Removes(s, log, j, u)
    ensures Accounting.Gone(Exec(s, log[..l]), u)
  {
    RemovedIsGone(s, log, j, u);
    assert log[..l][..j + 1] == log[..j + 1];
    Accounting.GoneStaysGone(s, log[..l], j + 1, u);
  }

  lemma StepIsCareful(s: State, log: seq<Step>, n: nat)
    requires Initial(s) && n < |log|
    requires OnlyFreeHandedOut(s, log) && RemovalsAccepted(s, log) && ReleasesOnlyHeld(s, log)
    ensures CarefulStep(Exec(s, log[..n]), log[n])
  {
    var t, step := Exec(s, log[..n]), log[n];
    if Enabled(t, step) && step.event.Release? && step.event.cause.Some?
       && step.event.cause.value in t.maas.releasedFor
    {
      var i := ReleasedByStep(s, log, n, step.event.cause.value);
      NoSecondRelease(s, log, i, n, step.event.cause.value);
    }
  }

  lemma {:induction false} PrefixIsCareful(s: State, log: seq<Step>, n: nat)
    requires Initial(s) && n <= |log|
    requires OnlyFreeHandedOut(s, log) && RemovalsAccepted(s, log) && ReleasesOnlyHeld(s, log)
    ensures Careful(s, log[..n])
    decreases n
  {
    if n > 0 {
      PrefixIsCareful(s, log, n - 1);
      StepIsCareful(s, log, n - 1);
      assert log[..n][..n - 1] == log[..n - 1];
    }
  }

  /** In every run in which MAAS hands out only free systems, the update after a
      release for a deletion is accepted and removes the object, and passes give
      back only what they hold: at every moment no two machines in phase Creating
      or Ready hold the same system, and none of those systems is free. */
  lemma NoSharedSystem(s: State, log: seq<Step>, n: nat)
    requires Initial(s) && n <= |log|
    requires OnlyFreeHandedOut(s, log) && RemovalsAccepted(s, log) && ReleasesOnlyHeld(s, log)
    ensures Apart(Exec(s, log[..n]))
  {
    PrefixIsCareful(s, log, n);
    CarefulMeansDistinct(s, log[..n]);
  }

  // ---- The condition is exact ----------------------------------------------------

  predicate Waiting(s: State, k: Key) {
    k in s.machines && s.machines[k].phase == Unset && !s.machines[k].deleting
  }

  function RecordStep(o: Machine, x: string): Step {
    Step(MachineController, Write(o.(phase := Creating, systemId := x, finalizers := WithFinalizer(o.finalizers))))
  }

  /** One pass that allocates x and records it in the machine under c. */
  function AllocateAndRecord(s: State, x: string, c: Key): seq<Step>
    requires c in s.machines
  {
    [Step(MachineController, Allocate(x)), RecordStep(s.machines[c], x)]
  }

  /** t is s with x recorded in the live machine under c, and nothing else changed. */
  ghost predicate RecordedIn(s: State, t: State, x: string, c: Key) {
    && Inv(t) && c in t.machines && Live(t.machines[c]) && t.machines[c].systemId == x && !t.machines[c].deleting
    && (forall k :: k != c ==> (k in t.machines <==> k in s.machines))
    && (forall k :: k != c && k in s.machines ==> t.machines[k] == s.machines[k])
    && s.past <= t.past
  }

  lemma RecordEffect(s: State, x: string, c: Key)
    requires Inv(s) && Waiting(s, c) && x in s.maas.held
    ensures var t := Next(s, RecordStep(s.machines[c], x));
            RecordedIn(s, t, x, c) && t.maas.releasedFor == s.maas.releasedFor
  {
    var o, step := s.machines[c], RecordStep(s.machines[c], x);
    assert Records(o, step.event.m, s.maas.held);
    StepKeepsInv(s, step);
  }

  lemma AllocateEffect(s: State, x: string)
    requires Inv(s) && x != ""
    ensures var t := Next(s, Step(MachineController, Allocate(x)));
            && Inv(t) && t.machines == s.machines && t.past == s.past
            && x in t.maas.held && t.maas.releasedFor == s.maas.releasedFor
  {
    StepKeepsInv(s, Step(MachineController, Allocate(x)));
  }

  lemma AllocateAndRecordEffect(s: State, x: string, c: Key)
    requires Inv(s) && Waiting(s, c) && x != ""
    ensures var t := Exec(s, AllocateAndRecord(s, x, c));
            RecordedIn(s, t, x, c) && t.maas.releasedFor == s.maas.releasedFor
    ensures x in s.maas.free ==> Careful(s, AllocateAndRecord(s, x, c))
  {
    var allocate, record := Step(MachineController, Allocate(x)), RecordStep(s.machines[c], x);
    AllocateEffect(s, x);
    RecordEffect(Next(s, allocate), x, c);
    TwoSteps(s, allocate, record);
    if x in s.maas.free {
      CarefulPair(s, allocate, record);
    }
  }

  lemma CarefulPair(s: State, first: Step, second: Step)
    requires CarefulStep(s, first) && CarefulStep(Next(s, first), second)
    ensures Careful(s, [first, second])
  {
    SingleStep(s, first);
    SingleStep(Next(s, first), second);
    CarefulConcat(s, [first], [second]);
    assert [first, second] == [first] + [second];
  }

  lemma TwoSteps(s: State, first: Step, second: Step)
    ensures Exec(s, [first, second]) == Next(Next(s, first), second)
  {
    SingleStep(s, first);
    SingleStep(Next(s, first), second);
    ExecConcat(s, [first], [second]);
    assert [first, second] == [first] + [second];
  }

  lemma SingleStep(t: State, step: Step)
    ensures Exec(t, [step]) == Next(t, step)
    ensures Careful(t, [step]) <==> CarefulStep(t, step)
  {
    assert [step][..|[step]| - 1] == [];
    assert Exec(t, []) == t && Careful(t, []);
  }

  lemma {:induction false} ExecConcat(s: State, a: seq<Step>, b: seq<Step>)
    ensures Exec(s, a + b) == Exec(Exec(s, a), b)
  {
    if b == [] {
      assert a + b == a;
    } else {
      ExecConcat(s, a, b[..|b| - 1]);
      assert (a + b)[..|a + b| - 1] == a + b[..|b| - 1];
    }
  }

  lemma {:induction false} CarefulConcat(s: State, a: seq<Step>, b: seq<Step>)
    requires Careful(s, a) && Careful(Exec(s, a), b)
    ensures Careful(s, a + b)
  {
    if b == [] {
      assert a + b == a;
    } else {
      CarefulConcat(s, a, b[..|b| - 1]);
      ExecConcat(s, a, b[..|b| - 1]);
      assert (a + b)[..|a + b| - 1] == a + b[..|b| - 1];
    }
  }

  /** Every careful continuation keeps live machines apart. */
  ghost predicate Safe(s: State) {
    forall log :: Careful(s, log) ==> LiveDistinct(Exec(s, log))
  }

  lemma NotSafe(s: State, log: seq<Step>)
    requires Careful(s, log) && !LiveDistinct(Exec(s, log))
    ensures !Safe(s)
  {
  }

  /** A free system that a live machine records will be given out again. */
  lemma FreedLiveIsUnsafe(t: State, k: Key, c: Key)
    requires Inv(t) && k in t.machines && Live(t.machines[k]) && t.machines[k].systemId in t.maas.free
    requires Waiting(t, c)
    ensures !Safe(t)
  {
    var x := t.machines[k].systemId;
    var log := AllocateAndRecord(t, x, c);
    AllocateAndRecordEffect(t, x, c);
    assert k != c;
    NotSafe(t, log);
  }

  lemma ReleaseEffect(t: State, m: Machine)
    requires m in t.past && m.phase == Deleting && m.systemId != ""
    ensures var again := Step(MachineController, Release(m.systemId, true, Some(m.uid)));
            && Enabled(t, again)
            && Next(t, again).machines == t.machines
            && m.systemId in Next(t, again).maas.free
            && (m.uid !in t.maas.releasedFor ==> CarefulStep(t, again))
  {
  }

  lemma CarefulPrefix(t: State, first: seq<Step>)
    requires Careful(t, first) && !Safe(Exec(t, first))
    ensures !Safe(t)
  {
    var rest :| Careful(Exec(t, first), rest) && !LiveDistinct(Exec(Exec(t, first), rest));
    ExecConcat(t, first, rest);
    CarefulConcat(t, first, rest);
    NotSafe(t, first + rest);
  }

  /** A further release of a system that a live machine records is unsafe. */
  lemma ReleasingLiveIsUnsafe(t: State, m: Machine, k: Key, c: Key)
    requires Inv(t) && m in t.past && m.phase == Deleting && m.systemId != "" && m.uid !in t.maas.releasedFor
    requires k in t.machines && Live(t.machines[k]) && t.machines[k].systemId == m.systemId
    requires Waiting(t, c)
    ensures !Safe(t)
  {
    var again := Step(MachineController, Release(m.systemId, true, Some(m.uid)));
    ReleaseEffect(t, m);
    StepKeepsInv(t, again);
    FreedLiveIsUnsafe(Next(t, again), k, c);
    SingleStep(t, again);
    CarefulPrefix(t, [again]);
  }

  /** A free system that a machine in deletion still claims is first given to
      another machine, then released once more for the deletion, then given
      out again. */
  lemma FreedDeletingIsUnsafe(t: State, k: Key, c1: Key, c2: Key)
    requires Inv(t) && Claims(t, k) && t.machines[k].phase == Deleting && t.machines[k].systemId in t.maas.free
    requires Waiting(t, c1) && Waiting(t, c2) && c1 != c2
    ensures !Safe(t)
  {
    var m := t.machines[k];
    var first := AllocateAndRecord(t, m.systemId, c1);
    AllocateAndRecordEffect(t, m.systemId, c1);
    ReleasingLiveIsUnsafe(Exec(t, first), m, c1, c2);
    CarefulPrefix(t, first);
  }

  /** Exactly when a release is safe. With two machines waiting for a system,
      a release that MAAS carries out keeps all careful continuations free of
      sharing if and only if no machine other than the one being deleted
      claims the system. */
  lemma ReleaseIsSafeIff(s: State, step: Step, c1: Key, c2: Key)
    requires Inv(s) && Distinct(s)
    requires Enabled(s, step) && step.event.Release? && step.event.freed
    requires Waiting(s, c1) && Waiting(s, c2) && c1 != c2
    ensures Safe(Next(s, step)) <==>
              forall k :: Claims(s, k) && s.machines[k].systemId == step.event.systemId ==>
                step.event.cause == Some(s.machines[k].uid)
  {
    var t := Next(s, step);
    StepKeepsInv(s, step);
    if k :| Claims(s, k) && s.machines[k].systemId == step.event.systemId
            && step.event.cause != Some(s.machines[k].uid)
    {
      OtherClaimIsUnsafe(s, step, k, c1, c2);
    } else {
      ReleaseKeepsDistinct(s, step);
      DistinctIsSafe(t);
    }
  }

  lemma DistinctIsSafe(t: State)
    requires Inv(t) && Distinct(t)
    ensures Safe(t)
  {
    forall log | Careful(t, log)
      ensures LiveDistinct(Exec(t, log))
    {
      CarefulRunKeepsDistinct(t, log);
      DistinctLive(Exec(t, log));
    }
  }

  lemma OtherClaimIsUnsafe(s: State, step: Step, k: Key, c1: Key, c2: Key)
    requires Inv(s) && Inv(Next(s, step)) && Enabled(s, step) && step.event.Release? && step.event.freed
    requires Waiting(s, c1) && Waiting(s, c2) && c1 != c2
    requires Claims(s, k) && s.machines[k].systemId == step.event.systemId
        && step.event.cause != Some(s.machines[k].uid)
    ensures !Safe(Next(s, step))
  {
    var t := Next(s, step);
    assert Claims(t, k) && t.machines == s.machines;
    if Live(t.machines[k]) {
      FreedLiveIsUnsafe(t, k, c1);
    } else {
      FreedDeletingIsUnsafe(t, k, c1, c2);
    }
  }
}
