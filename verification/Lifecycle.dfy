/** What every run of the machine world keeps: the phase discipline, the
    controller reference, and the account of allocated MAAS systems. */
module Lifecycle {
  import opened Objects
  import opened World

  // ---- Invariants -----------------------------------------------------------

  /** The phase may only move along "" -> Creating -> Ready, "" -> Failed, and
      from anywhere to Deleting, which is final. */
  predicate PhaseReaches(p: MachinePhase, q: MachinePhase) {
    p == q || q == Deleting || (p == Unset && (q == Creating || q == Ready || q == Failed))
        || (p == Creating && q == Ready)
  }

  /** How a later value q of the same object may differ from an earlier p. */
  predicate Evolves(p: Machine, q: Machine) {
    && p.key == q.key
    && PhaseReaches(p.phase, q.phase)
    && (p.systemId != "" ==> q.systemId == p.systemId)
    && (Controllers(p.owners) != [] ==> Controllers(q.owners) == Controllers(p.owners))
    && (p.deleting ==> q.deleting)
  }

  predicate Live(m: Machine) {
    m.phase == Creating || m.phase == Ready
  }

  predicate MachineOk(m: Machine) {
    && (Live(m) ==> m.systemId != "" && MACHINE_FINALIZER in m.finalizers)
    && (m.phase == Unset || m.phase == Failed ==> m.systemId == "")
    && (m.phase == Deleting ==> m.deleting)
    && m.phase != Upgrading
    && |Controllers(m.owners)| <= 1
    && (m.deleting ==> m.finalizers != [])
  }

  /** Versions identify values, and values of one object follow each other. */
  predicate Ordered(p: Machine, q: Machine) {
    && (p.version == q.version ==> p == q)
    && (p.uid == q.uid && p.version <= q.version ==> Evolves(p, q))
  }

  predicate NotNewer(p: Machine, m: Machine) {
    p.uid == m.uid ==> p.version <= m.version
  }

  ghost predicate StoreOk(s: State) {
    && (forall k :: k in s.machines ==> s.machines[k].key == k && s.machines[k] in s.past)
    && (forall p :: p in s.past ==> p.version <= s.revision && p.uid < s.nextUid && MachineOk(p))
    && (forall k, p {:trigger NotNewer(p, s.machines[k])} :: k in s.machines && p in s.past ==>
        NotNewer(p, s.machines[k]))
  }

  ghost predicate HistoryOk(s: State) {
    forall p, q {:trigger Ordered(p, q)} :: p in s.past && q in s.past ==> Ordered(p, q)
  }

  /** An object that recorded a system stays stored, with the finalizer, until
      a release was requested on its behalf. */
  ghost predicate KeptUntilRelease(s: State) {
    && (forall p :: p in s.past && p.systemId != "" && p.uid !in s.maas.releasedFor ==>
          p.key in s.machines && s.machines[p.key].uid == p.uid)
    && (forall k :: k in s.machines && s.machines[k].systemId != "" && s.machines[k].uid !in s.maas.releasedFor ==>
          MACHINE_FINALIZER in s.machines[k].finalizers)
    && (forall u :: u in s.maas.releasedFor ==> exists p :: p in s.past && p.uid == u && p.phase == Deleting)
  }

  predicate Recorded(s: State, x: string) {
    exists k :: k in s.machines && s.machines[k].systemId == x && MACHINE_FINALIZER in s.machines[k].finalizers
  }

  /** Every allocation that was not followed by a release request is recorded
      in a stored machine, or held by the running pass, or lost with a pass. */
  ghost predicate Accounted(s: State) {
    && (forall x :: x in s.maas.open ==> x in s.maas.held || x in s.maas.abandoned || Recorded(s, x))
    && "" !in s.maas.held && "" !in s.maas.open
  }

  ghost predicate Inv(s: State) {
    StoreOk(s) && HistoryOk(s) && KeptUntilRelease(s) && Accounted(s)
  }

  // ---- One stored version replaces another ---------------------------------------

  lemma EvolvesTransitive(p: Machine, q: Machine, r: Machine)
    requires Evolves(p, q) && Evolves(q, r)
    ensures Evolves(p, r)
  {
  }

  /** Any earlier value of a stored object evolved into the stored one. */
  lemma StoredIsLatest(s: State, k: Key, p: Machine)
    requires StoreOk(s) && HistoryOk(s)
    requires k in s.machines && p in s.past && p.uid == s.machines[k].uid
    ensures Evolves(p, s.machines[k]) && p.key == k
  {
    assert NotNewer(p, s.machines[k]);
    assert Ordered(p, s.machines[k]);
  }

  /** A copy with the stored version is the stored object. */
  lemma VersionIdentifies(s: State, k: Key, copy: Machine)
    requires StoreOk(s) && HistoryOk(s)
    requires k in s.machines && copy in s.past && copy.version == s.machines[k].version
    ensures copy == s.machines[k]
  {
    assert Ordered(copy, s.machines[k]);
  }

  /** Two stored keys never carry the same uid. */
  lemma UidsDiffer(s: State, k1: Key, k2: Key)
    requires StoreOk(s) && HistoryOk(s)
    requires k1 in s.machines && k2 in s.machines && k1 != k2
    ensures s.machines[k1].uid != s.machines[k2].uid
  {
    if s.machines[k1].uid == s.machines[k2].uid {
      StoredIsLatest(s, k1, s.machines[k2]);
    }
  }

  /** Replacing a stored object by a value it may evolve to. */
  lemma PutEvolved(s: State, m: Machine)
    requires StoreOk(s) && HistoryOk(s)
    requires m.key in s.machines && s.machines[m.key].uid == m.uid
    requires Evolves(s.machines[m.key], m) && MachineOk(m)
    ensures StoreOk(Put(s, m)) && HistoryOk(Put(s, m))
  {
    var o := s.machines[m.key];
    var t := Put(s, m);
    var stored := m.(version := s.revision + 1);
    forall p, q | p in t.past && q in t.past
      ensures Ordered(p, q)
    {
      if p in s.past && q in s.past {
        assert Ordered(p, q);
      } else if p in s.past && p.uid == m.uid {
        StoredIsLatest(s, m.key, p);
        EvolvesTransitive(p, o, stored);
      }
    }
    forall k, p | k in t.machines && p in t.past
      ensures NotNewer(p, t.machines[k])
    {
      if k != m.key {
        UidsDiffer(s, k, m.key);
        if p in s.past {
          assert NotNewer(p, s.machines[k]);
        }
      }
    }
  }

  /** Storing an object under a uid that was never used. */
  lemma PutFresh(s: State, m: Machine)
    requires StoreOk(s) && HistoryOk(s)
    requires m.key !in s.machines && m.uid == s.nextUid && MachineOk(m)
    ensures StoreOk(Put(s, m).(nextUid := s.nextUid + 1)) && HistoryOk(Put(s, m).(nextUid := s.nextUid + 1))
  {
    FreshStore(s, m);
    FreshHistory(s, m);
  }

  lemma FreshStore(s: State, m: Machine)
    requires StoreOk(s) && m.key !in s.machines && m.uid == s.nextUid && MachineOk(m)
    ensures StoreOk(Put(s, m).(nextUid := s.nextUid + 1))
  {
    var t := Put(s, m).(nextUid := s.nextUid + 1);
    assert MachineOk(t.machines[m.key]);
    forall k, p | k in t.machines && p in t.past
      ensures NotNewer(p, t.machines[k])
    {
      FreshNotNewer(s, m, k, p);
    }
  }

  lemma FreshNotNewer(s: State, m: Machine, k: Key, p: Machine)
    requires StoreOk(s) && m.uid == s.nextUid && k in Put(s, m).machines && p in Put(s, m).past
    ensures NotNewer(p, Put(s, m).machines[k])
  {
    if k != m.key && p in s.past {
      assert NotNewer(p, s.machines[k]);
    }
  }

  lemma FreshHistory(s: State, m: Machine)
    requires StoreOk(s) && HistoryOk(s) && m.uid == s.nextUid
    ensures HistoryOk(Put(s, m))
  {
    var t := Put(s, m);
    forall p, q | p in t.past && q in t.past
      ensures Ordered(p, q)
    {
      assert p in s.past && q in s.past ==> Ordered(p, q);
    }
  }

  lemma RemoveKeeps(s: State, k: Key)
    requires StoreOk(s) && HistoryOk(s)
    ensures StoreOk(Remove(s, k)) && HistoryOk(Remove(s, k))
  {
    var t := Remove(s, k);
    forall j, p | j in t.machines && p in t.past
      ensures NotNewer(p, t.machines[j])
    {
      assert NotNewer(p, s.machines[j]);
    }
    forall p, q | p in t.past && q in t.past
      ensures Ordered(p, q)
    {
      assert p in s.past && q in s.past;
    }
  }

  // ---- Each kind of step keeps the invariant -----------------------------------

  /** What a permitted write does to the one object it touches. */
  lemma PermittedWrite(actor: Actor, o: Machine, m: Machine, maas: Maas)
    requires Permitted(actor, o, m, maas) && MachineOk(o)
    requires "" !in maas.held
    ensures m.uid == o.uid && m.key == o.key && m.deleting == o.deleting && Evolves(o, m)
    ensures !(m.deleting && m.finalizers == []) ==> MachineOk(m)
    ensures m.systemId != o.systemId ==>
              o.systemId == "" && m.systemId in maas.held && MACHINE_FINALIZER in m.finalizers
    ensures m.systemId == o.systemId && MACHINE_FINALIZER in o.finalizers && MACHINE_FINALIZER !in m.finalizers ==>
              actor == MachineController && Retires(o, m, maas)
  {
    match actor {
      case User =>
      case MachineController =>
      case _ =>
        ControllersAppend(o.owners, m.owners[|m.owners| - 1]);
    }
  }

  lemma WriteKeepsStore(s: State, step: Step)
    requires Inv(s) && step.event.Write? && Enabled(s, step)
    ensures StoreOk(Apply(s, step)) && HistoryOk(Apply(s, step))
  {
    var m := step.event.m;
    PermittedWrite(step.actor, s.machines[m.key], m, s.maas);
    if m.deleting && m.finalizers == [] {
      RemoveKeeps(s, m.key);
    } else {
      PutEvolved(s, m);
    }
  }

  lemma WriteKeepsKept(s: State, step: Step)
    requires Inv(s) && step.event.Write? && Enabled(s, step)
    ensures KeptUntilRelease(Apply(s, step))
  {
    var m := step.event.m;
    var o := s.machines[m.key];
    var t := Apply(s, step);
    PermittedWrite(step.actor, o, m, s.maas);
    forall p | p in t.past && p.systemId != "" && p.uid !in t.maas.releasedFor
      ensures p.key in t.machines && t.machines[p.key].uid == p.uid
    {
      if p in s.past && p.key == m.key {
        StoredIsLatest(s, m.key, p);
      }
    }
    PastGrows(s, step);
  }

  lemma PastGrows(s: State, step: Step)
    requires Enabled(s, step)
    ensures s.past <= Apply(s, step).past
  {
  }

  /** A recorded system stays recorded while no write retires its machine. */
  lemma RecordedStays(s: State, t: State, x: string)
    requires Recorded(s, x)
    requires forall k ::
               k in s.machines && MACHINE_FINALIZER in s.machines[k].finalizers && s.machines[k].systemId == x ==>
               k in t.machines && t.machines[k].systemId == x && MACHINE_FINALIZER in t.machines[k].finalizers
    ensures Recorded(t, x)
  {
    var k :| k in s.machines && s.machines[k].systemId == x && MACHINE_FINALIZER in s.machines[k].finalizers;
    assert k in t.machines;
  }

  lemma WriteKeepsRecorded(s: State, step: Step, x: string)
    requires step.event.Write? && Enabled(s, step) && "" !in s.maas.held
    requires MachineOk(s.machines[step.event.m.key]) && s.machines[step.event.m.key].key == step.event.m.key
    requires Recorded(s, x) && x in s.maas.open && x != ""
    ensures Recorded(Apply(s, step), x)
  {
    PermittedWrite(step.actor, s.machines[step.event.m.key], step.event.m, s.maas);
    RecordedStays(s, Apply(s, step), x);
  }

  lemma WriteKeepsAccount(s: State, step: Step)
    requires Inv(s) && step.event.Write? && Enabled(s, step)
    ensures Accounted(Apply(s, step))
  {
    var m := step.event.m;
    var t := Apply(s, step);
    PermittedWrite(step.actor, s.machines[m.key], m, s.maas);
    forall x | x in t.maas.open
      ensures x in t.maas.held || x in t.maas.abandoned || Recorded(t, x)
    {
      if x in s.maas.held {
        if x !in t.maas.held {
          assert m.key in t.machines && t.machines[m.key].systemId == x;
        }
      } else if x !in s.maas.abandoned {
        WriteKeepsRecorded(s, step, x);
      }
    }
  }

  lemma DeleteKeepsStore(s: State, step: Step)
    requires Inv(s) && step.event.Delete? && Enabled(s, step)
    ensures StoreOk(Apply(s, step)) && HistoryOk(Apply(s, step))
  {
    var m := s.machines[step.event.key].(deleting := true);
    if m.finalizers == [] {
      RemoveKeeps(s, m.key);
    } else {
      PutEvolved(s, m);
    }
  }

  lemma DeleteKeepsKept(s: State, step: Step)
    requires Inv(s) && step.event.Delete? && Enabled(s, step)
    ensures KeptUntilRelease(Apply(s, step))
  {
    var k := step.event.key;
    forall p | p in s.past && p.key == k && p.systemId != "" && p.uid !in s.maas.releasedFor
      ensures p.uid == s.machines[k].uid && s.machines[k].systemId != ""
    {
      StoredIsLatest(s, k, p);
    }
    DeletedKept(s, step);
    PastGrows(s, step);
  }

  lemma DeletedKept(s: State, step: Step)
    requires KeptUntilRelease(s) && step.event.Delete? && Enabled(s, step)
    requires s.machines[step.event.key].key == step.event.key
    requires forall p ::
               p in s.past && p.key == step.event.key && p.systemId != "" && p.uid !in s.maas.releasedFor ==>
                 p.uid == s.machines[step.event.key].uid && s.machines[step.event.key].systemId != ""
    ensures KeptUntilRelease(Apply(s, step))
  {
    PastGrows(s, step);
  }

  lemma DeleteKeepsAccount(s: State, step: Step)
    requires Accounted(s) && step.event.Delete? && Enabled(s, step)
    requires s.machines[step.event.key].key == step.event.key
    ensures Accounted(Apply(s, step))
  {
    var t := Apply(s, step);
    forall x | x in t.maas.open && x !in t.maas.held && x !in t.maas.abandoned
      ensures Recorded(t, x)
    {
      RecordedStays(s, t, x);
    }
  }

  lemma CreateKeeps(s: State, step: Step)
    requires Inv(s) && step.event.Create? && Enabled(s, step)
    ensures Inv(Apply(s, step))
  {
    PutFresh(s, step.event.m);
    CreateKeepsKept(s, step);
    CreateKeepsAccount(s, step);
  }

  lemma CreateKeepsKept(s: State, step: Step)
    requires KeptUntilRelease(s) && step.event.Create? && Enabled(s, step)
    ensures KeptUntilRelease(Apply(s, step))
  {
    PastGrows(s, step);
  }

  lemma CreateKeepsAccount(s: State, step: Step)
    requires Accounted(s) && step.event.Create? && Enabled(s, step)
    ensures Accounted(Apply(s, step))
  {
    var t := Apply(s, step);
    forall x | x in t.maas.open && x !in t.maas.held && x !in t.maas.abandoned
      ensures Recorded(t, x)
    {
      RecordedStays(s, t, x);
    }
  }

  lemma MaasKeeps(s: State, step: Step)
    requires Inv(s) && Enabled(s, step)
    requires step.event.Allocate? || step.event.Release? || step.event.EndPass?
    ensures Inv(Apply(s, step))
  {
    var t := Apply(s, step);
    assert t.machines == s.machines && t.past == s.past && t.revision == s.revision && t.nextUid == s.nextUid;
    assert StoreOk(t) && HistoryOk(t) by {
      forall k, p | k in t.machines && p in t.past
        ensures NotNewer(p, t.machines[k])
      {
        assert NotNewer(p, s.machines[k]);
      }
      forall p, q | p in t.past && q in t.past
        ensures Ordered(p, q)
      {
        assert p in s.past && q in s.past;
      }
    }
    forall x | x in t.maas.open && x !in t.maas.held && x !in t.maas.abandoned
      ensures Recorded(t, x)
    {
      RecordedStays(s, t, x);
    }
  }

  /** Every step, by whatever actor, keeps the invariant. */
  lemma StepKeepsInv(s: State, step: Step)
    requires Inv(s)
    ensures Inv(Next(s, step))
  {
    if Enabled(s, step) {
      match step.event {
        case Create(_) => CreateKeeps(s, step);
        case Write(_) => WriteKeepsStore(s, step); WriteKeepsKept(s, step); WriteKeepsAccount(s, step);
        case Delete(_) => DeleteKeepsStore(s, step); DeleteKeepsKept(s, step); DeleteKeepsAccount(s, step);
        case _ => MaasKeeps(s, step);
      }
    }
  }

  /** Every state of every run satisfies the invariant. */
  lemma {:induction false} RunKeepsInv(s: State, log: seq<Step>)
    requires Initial(s)
    ensures Inv(Exec(s, log))
  {
    if log != [] {
      RunKeepsInv(s, log[..|log| - 1]);
      StepKeepsInv(Exec(s, log[..|log| - 1]), log[|log| - 1]);
    }
  }
}
