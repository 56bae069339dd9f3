/** Whole-run consequences of the invariant: where every allocated MAAS system
    is, and how one machine object may change over a run. */
module Accounting {
  import opened Objects
  import opened World
  import opened Lifecycle

  /** Values once stored stay in the history. */
  lemma {:induction false} PastMonotone(s: State, log: seq<Step>, i: nat)
    requires i <= |log|
    ensures Exec(s, log[..i]).past <= Exec(s, log).past
    ensures Exec(s, log[..i]).nextUid <= Exec(s, log).nextUid
    ensures Exec(s, log[..i]).revision <= Exec(s, log).revision
    decreases |log|
  {
    if i == |log| {
      assert log[..i] == log;
    } else {
      var front := log[..|log| - 1];
      assert front[..i] == log[..i];
      PastMonotone(s, front, i);
    }
  }

  predicate Releases(step: Step, x: string) {
    step.event.Release? && step.event.systemId == x
  }

  /** A system stays open until its release is requested. */
  lemma {:induction false} OpenUntilReleased(s: State, log: seq<Step>, i: nat, x: string)
    requires i <= |log|
    requires x in Exec(s, log[..i]).maas.open
    requires forall j :: i <= j < |log| ==> !Releases(log[j], x)
    ensures x in Exec(s, log).maas.open
    decreases |log|
  {
    if i == |log| {
      assert log[..i] == log;
    } else {
      var front := log[..|log| - 1];
      assert front[..i] == log[..i];
      OpenUntilReleased(s, front, i, x);
      assert !Releases(log[|log| - 1], x);
    }
  }

  /** Whole-run accounting. Take any allocation in any run. If no release of
      that system is requested after it, then at the end a stored machine with
      the finalizer records the system, or the running pass still holds it, or
      it was lost when a pass ended. */
  lemma EveryAllocationIsAccounted(s: State, log: seq<Step>, i: nat)
    requires Initial(s)
    requires i < |log| && log[i].event.Allocate? && Enabled(Exec(s, log[..i]), log[i])
    requires forall j :: i < j < |log| ==> !Releases(log[j], log[i].event.systemId)
    ensures var x, t := log[i].event.systemId, Exec(s, log);
            Recorded(t, x) || x in t.maas.held || x in t.maas.abandoned
  {
    var x := log[i].event.systemId;
    ExecPrefix(s, log, i);
    OpenUntilReleased(s, log, i + 1, x);
    RunKeepsInv(s, log);
  }

  /** Object history. Whatever the interleaving, two values of one object taken
      at two moments of a run differ only as `Evolves` allows: the phase moves
      forward, Failed is reached only from the empty phase, Deleting is final,
      the system is written once, the controller reference never changes. */
  lemma ObjectHistory(s: State, log: seq<Step>, i: nat, j: nat, k1: Key, k2: Key)
    requires Initial(s) && i <= j <= |log|
    requires var a, b := Exec(s, log[..i]), Exec(s, log[..j]);
             k1 in a.machines && k2 in b.machines && a.machines[k1].uid == b.machines[k2].uid
    ensures var p, q := Exec(s, log[..i]).machines[k1], Exec(s, log[..j]).machines[k2];
            Evolves(p, q) && MachineOk(p) && MachineOk(q) && k1 == k2
  {
    RunKeepsInv(s, log[..i]);
    RunKeepsInv(s, log[..j]);
    assert log[..j][..i] == log[..i];
    PastMonotone(s, log[..j], i);
    StoredIsLatest(Exec(s, log[..j]), k2, Exec(s, log[..i]).machines[k1]);
  }

  /** A machine never has two controllers, neither at once nor one after the
      other, under every interleaving of cluster and machine-set claims. */
  lemma ControllerIsUnique(s: State, log: seq<Step>, i: nat, j: nat, k: Key, u1: nat, u2: nat)
    requires Initial(s) && i <= j <= |log|
    requires var a, b := Exec(s, log[..i]), Exec(s, log[..j]);
             k in a.machines && k in b.machines && a.machines[k].uid == b.machines[k].uid
    requires ControlledBy(Exec(s, log[..i]).machines[k], u1)
    requires exists r :: r in Exec(s, log[..j]).machines[k].owners && r.controller && r.uid == u2
    ensures u1 == u2
  {
    ObjectHistory(s, log, i, j, k, k);
    var q := Exec(s, log[..j]).machines[k];
    var r :| r in q.owners && r.controller && r.uid == u2;
    assert r in Controllers(q.owners);
  }

  ghost predicate Gone(s: State, u: nat) {
    u < s.nextUid && forall k :: k in s.machines ==> s.machines[k].uid != u
  }

  lemma StoredUid(s: State, step: Step, k: Key)
    requires forall j :: j in s.machines ==> s.machines[j].key == j
    requires Enabled(s, step) && k in Apply(s, step).machines
    ensures var uid := Apply(s, step).machines[k].uid;
            (k in s.machines && uid == s.machines[k].uid) || (step.event.Create? && uid == s.nextUid)
  {
    match step.event {
      case Write(m) => assert m.uid == s.machines[m.key].uid;
      case _ =>
    }
  }

  lemma StepKeepsGone(s: State, step: Step, u: nat)
    requires forall k :: k in s.machines ==> s.machines[k].key == k
    requires Gone(s, u)
    ensures Gone(Next(s, step), u)
  {
    if Enabled(s, step) {
      var t := Apply(s, step);
      forall k | k in t.machines
        ensures t.machines[k].uid != u
      {
        StoredUid(s, step, k);
      }
    }
  }

  /** An object that left the store never comes back: its uid is not reused. */
  lemma {:induction false} GoneStaysGone(s: State, log: seq<Step>, i: nat, u: nat)
    requires Initial(s) && i <= |log|
    requires Gone(Exec(s, log[..i]), u)
    ensures Gone(Exec(s, log), u)
    decreases |log|
  {
    if i == |log| {
      assert log[..i] == log;
    } else {
      var front := log[..|log| - 1];
      assert front[..i] == log[..i];
      GoneStaysGone(s, front, i, u);
      RunKeepsInv(s, front);
      StepKeepsGone(Exec(s, front), log[|log| - 1], u);
    }
  }
}
