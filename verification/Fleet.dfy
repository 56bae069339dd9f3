/** The machines a machine set works with, over a run: what changes their number,
    and when the informer cache shows the right number. */
module Fleet {
  import opened Objects
  import opened World
  import opened ControlPlane
  import opened MachineSets
  import Lifecycle

  /** A pass over the set that sees this machine counts it, if need be after
      adopting it. */
  predicate Candidate(ms: MachineSet, m: Machine) {
    m.key.ns == ms.key.ns && !ShouldExclude(ms, m)
  }

  function Kept(ms: MachineSet, s: State): set<Key> {
    set k | k in s.machines && Candidate(ms, s.machines[k])
  }

  predicate NoOrphans(ms: MachineSet, s: State) {
    forall k :: k in Kept(ms, s) ==> Controllers(s.machines[k].owners) != []
  }

  /** What matters of a state to the set: its machines, and whether all of them
      are claimed. */
  datatype View = View(kept: set<Key>, claimed: bool)

  function Look(ms: MachineSet, s: State): View {
    View(Kept(ms, s), NoOrphans(ms, s))
  }

  function ViewAt(ms: MachineSet, start: State, log: seq<Step>, i: nat): View
    requires i <= |log|
  {
    Look(ms, Exec(start, log[..i]))
  }

  /** From one view to the other the set lost at most these names, and no
      orphan appeared. */
  predicate Shrinks(a: View, b: View, names: set<Key>) {
    a.kept - names <= b.kept <= a.kept && (a.claimed ==> b.claimed)
  }

  /** It gained exactly n machines, and no orphan appeared. */
  predicate Grows(a: View, b: View, n: nat) {
    a.kept <= b.kept && |b.kept| == |a.kept| + n && (a.claimed ==> b.claimed)
  }

  predicate QuietAt(ms: MachineSet, start: State, log: seq<Step>, i: nat)
    requires i < |log|
  {
    Shrinks(ViewAt(ms, start, log, i), ViewAt(ms, start, log, i + 1), {})
  }

  /** No outside machines: from position `from` on, nobody but the controller
      working on the set adds machines to it or takes some away. */
  ghost predicate Calm(ms: MachineSet, start: State, log: seq<Step>, from: nat) {
    forall i {:trigger QuietAt(ms, start, log, i)} ::
      from <= i < |log| && log[i].actor != MachineSetController(ms.uid) ==> QuietAt(ms, start, log, i)
  }

  predicate Agrees(ms: MachineSet, start: State, log: seq<Step>, i: nat)
    requires i <= |log|
  {
    ViewAt(ms, start, log, i) == View(Kept(ms, Exec(start, log)), true)
  }

  /** Whatever the cache shows now or later, up to the present, it shows the
      same machines of the set, and no orphan. */
  ghost predicate Settled(ms: MachineSet, start: State, log: seq<Step>, seen: nat) {
    forall i {:trigger Agrees(ms, start, log, i)} :: seen <= i <= |log| ==> Agrees(ms, start, log, i)
  }

  // ---- Who can disturb a set -------------------------------------------------------

  lemma ClaimKeepsOut(ms: MachineSet, o: Machine, m: Machine, ref: OwnerRef)
    requires Adopts(o, m, ref) && ref.uid != ms.uid
    ensures !Candidate(ms, m)
  {
    ControllersAppend(o.owners, ref);
  }

  lemma UnseenChange(ms: MachineSet, s: State, t: State, k: Key)
    requires k in s.machines && k in t.machines ==> (Candidate(ms, s.machines[k]) <==> Candidate(ms, t.machines[k]))
    requires k in s.machines && k !in t.machines ==> !Candidate(ms, s.machines[k])
    requires k !in s.machines && k in t.machines ==> !Candidate(ms, t.machines[k])
    requires forall j :: j != k ==> (j in s.machines <==> j in t.machines)
    requires forall j :: j != k && j in s.machines ==> t.machines[j] == s.machines[j]
    requires k in s.machines && k in t.machines && Candidate(ms, t.machines[k]) ==>
        t.machines[k].owners == s.machines[k].owners
    ensures Shrinks(Look(ms, s), Look(ms, t), {})
  {
    forall j ensures j in Kept(ms, t) <==> j in Kept(ms, s) {}
  }

  lemma WriteKeepsCandidate(ms: MachineSet, s: State, actor: Actor, m: Machine)
    requires Lifecycle.Inv(s) && NoOrphans(ms, s) && m.key in s.machines
    requires Permitted(actor, s.machines[m.key], m, s.maas)
    requires actor != User && actor != MachineSetController(ms.uid)
    requires actor == ClusterController && m.owners != [] ==> m.owners[|m.owners| - 1].uid != ms.uid
    ensures Candidate(ms, m.(version := s.revision + 1)) == Candidate(ms, s.machines[m.key])
    ensures m.deleting == s.machines[m.key].deleting && m.uid == s.machines[m.key].uid
    ensures Candidate(ms, m) ==> m.owners == s.machines[m.key].owners
  {
    var o := s.machines[m.key];
    Lifecycle.PermittedWrite(actor, o, m, s.maas);
    if actor != MachineController {
      ClaimKeepsOut(ms, o, m, m.owners[|m.owners| - 1]);
      assert !Candidate(ms, o) by {
        assert m.key in Kept(ms, s) <==> Candidate(ms, o);
      }
    }
  }

  /** Only users and deletions disturb a set that has no orphans: not the other
      writes of the machine controller, not the claims of the cluster controller,
      not the passes over other sets. */
  lemma OnlyUsersAndDeletionsDisturb(ms: MachineSet, s: State, step: Step)
    requires Lifecycle.Inv(s) && NoOrphans(ms, s)
    requires step.actor != User && step.actor != MachineSetController(ms.uid) && !step.event.Delete?
    requires step.actor == ClusterController && step.event.Write? && step.event.m.owners != [] ==>
               step.event.m.owners[|step.event.m.owners| - 1].uid != ms.uid
    ensures Shrinks(Look(ms, s), Look(ms, Next(s, step)), {})
  {
    if Enabled(s, step) {
      if step.event.Create? {
        UnseenChange(ms, s, Apply(s, step), step.event.m.key);
      } else if step.event.Write? {
        OtherWrites(ms, s, step);
      }
    }
  }

  lemma OtherWrites(ms: MachineSet, s: State, step: Step)
    requires Lifecycle.Inv(s) && NoOrphans(ms, s) && Enabled(s, step) && step.event.Write?
    requires step.actor != User && step.actor != MachineSetController(ms.uid)
    requires step.actor == ClusterController && step.event.m.owners != [] ==>
               step.event.m.owners[|step.event.m.owners| - 1].uid != ms.uid
    ensures Shrinks(Look(ms, s), Look(ms, Apply(s, step)), {})
  {
    var m := step.event.m;
    WriteKeepsCandidate(ms, s, step.actor, m);
    UnseenWrite(ms, s, step);
  }

  lemma UnseenWrite(ms: MachineSet, s: State, step: Step)
    requires step.event.Write? && Enabled(s, step)
    requires var m, o := step.event.m, s.machines[step.event.m.key];
             && Candidate(ms, m.(version := s.revision + 1)) == Candidate(ms, o)
             && m.deleting == o.deleting && (Candidate(ms, m) ==> m.owners == o.owners)
    ensures Shrinks(Look(ms, s), Look(ms, Apply(s, step)), {})
  {
    UnseenChange(ms, s, Apply(s, step), step.event.m.key);
  }

  // ---- Runs that only continue ------------------------------------------------------

  lemma ViewPrefix(ms: MachineSet, start: State, a: seq<Step>, b: seq<Step>, i: nat)
    requires a <= b && i <= |a|
    ensures ViewAt(ms, start, a, i) == ViewAt(ms, start, b, i)
    ensures i == |a| ==> ViewAt(ms, start, b, i) == Look(ms, Exec(start, a))
  {
    assert a[..i] == b[..i];
    assert a[..|a|] == a;
  }

  lemma CalmPrefix(ms: MachineSet, start: State, a: seq<Step>, b: seq<Step>, from: nat, later: nat)
    requires a <= b && from <= later && Calm(ms, start, b, from)
    ensures Calm(ms, start, a, later)
  {
    forall i | later <= i < |a| && a[i].actor != MachineSetController(ms.uid)
      ensures QuietAt(ms, start, a, i)
    {
      ViewPrefix(ms, start, a, b, i);
      ViewPrefix(ms, start, a, b, i + 1);
      assert QuietAt(ms, start, b, i);
    }
  }

  /** The views of a run, one per moment. */
  function History(ms: MachineSet, start: State, log: seq<Step>): (views: seq<View>)
    ensures |views| == |log| + 1
    ensures forall i :: 0 <= i <= |log| ==> views[i] == ViewAt(ms, start, log, i)
  {
    seq(|log| + 1, i requires 0 <= i <= |log| => ViewAt(ms, start, log, i))
  }

  lemma {:induction false} ShrinkChain(views: seq<View>, names: set<Key>, i: nat, j: nat)
    requires i <= j < |views|
    requires forall n :: i <= n < j ==> Shrinks(views[n], views[n + 1], names)
    ensures Shrinks(views[i], views[j], names)
    decreases j
  {
    if i < j {
      ShrinkChain(views, names, i, j - 1);
      assert Shrinks(views[j - 1], views[j - 1 + 1], names);
    }
  }

  /** While only others act, and calmly, the set does not change. */
  lemma ForeignIsQuiet(ms: MachineSet, start: State, a: seq<Step>, b: seq<Step>, i: nat)
    requires Foreign(MachineSetController(ms.uid), a, b) && Calm(ms, start, b, |a|)
    requires |a| <= i <= |b|
    ensures Shrinks(Look(ms, Exec(start, a)), ViewAt(ms, start, b, i), {})
  {
    var views := History(ms, start, b);
    forall n | |a| <= n < i
      ensures Shrinks(views[n], views[n + 1], {})
    {
      assert QuietAt(ms, start, b, n);
    }
    ShrinkChain(views, {}, |a|, i);
    ViewPrefix(ms, start, a, b, |a|);
  }

  /** The cache stays settled while only others act, and catches up. */
  lemma SettledStays(ms: MachineSet, start: State, a: seq<Step>, b: seq<Step>, seen: nat, later: nat)
    requires Foreign(MachineSetController(ms.uid), a, b) && Calm(ms, start, b, |a|)
    requires Settled(ms, start, a, seen) && seen <= later <= |b| && seen <= |a|
    ensures Settled(ms, start, b, later)
    ensures Kept(ms, Exec(start, b)) == Kept(ms, Exec(start, a))
  {
    ViewPrefix(ms, start, b, b, |b|);
    ForeignIsQuiet(ms, start, a, b, |b|);
    assert Agrees(ms, start, a, |a|);
    ViewPrefix(ms, start, a, a, |a|);
    forall i | later <= i <= |b|
      ensures Agrees(ms, start, b, i)
    {
      if i <= |a| {
        ViewPrefix(ms, start, a, b, i);
        assert Agrees(ms, start, a, i);
      } else {
        ForeignIsQuiet(ms, start, a, b, i);
      }
    }
  }

  // ---- Runs in which the set's controller creates machines ------------------------------

  /** The machine is a copy of the set's template. */
  predicate FromTemplate(ms: MachineSet, m: Machine) {
    && m.labels == ms.template.labels && m.annotations == ms.template.annotations
        && m.finalizers == ms.template.finalizers
    && m.roles == ms.template.roles && m.instanceType == ms.template.instanceType
    && m.owners == [ControllerRef(ms)]
  }

  predicate AddsAt(ms: MachineSet, start: State, log: seq<Step>, i: nat)
    requires i < |log|
  {
    && log[i].event.Create? && Enabled(Exec(start, log[..i]), log[i])
    && Candidate(ms, log[i].event.m) && Controllers(log[i].event.m.owners) != []
    && FromTemplate(ms, log[i].event.m)
  }

  /** All own steps create machines for the set. */
  ghost predicate OnlyAdds(ms: MachineSet, start: State, log: seq<Step>, from: nat) {
    forall i {:trigger AddsAt(ms, start, log, i)} ::
      from <= i < |log| && log[i].actor == MachineSetController(ms.uid) ==> AddsAt(ms, start, log, i)
  }

  lemma CreateAdds(ms: MachineSet, s: State, c: Machine, step: Step)
    requires step.event == World.Create(c) && Enabled(s, step) && Candidate(ms, c) && Controllers(c.owners) != []
    ensures Grows(Look(ms, s), Look(ms, Next(s, step)), 1)
  {
    var t := Next(s, step);
    forall k ensures k in Kept(ms, t) <==> k in Kept(ms, s) || k == c.key {}
    assert Kept(ms, t) == Kept(ms, s) + {c.key};
  }

  lemma OwnSnoc(me: Actor, log: seq<Step>, from: nat, i: nat)
    requires from <= i < |log|
    ensures Own(me, log[..i + 1], from) == Own(me, log[..i], from) + if log[i].actor == me then [log[i].event] else []
  {
    assert log[..i + 1][..i] == log[..i];
  }

  lemma {:induction false} GrowChain(views: seq<View>, me: Actor, log: seq<Step>, from: nat, i: nat)
    requires |views| == |log| + 1 && from <= i <= |log|
    requires forall n :: from <= n < i ==> Grows(views[n], views[n + 1], if log[n].actor == me then 1 else 0)
    ensures Grows(views[from], views[i], |Own(me, log[..i], from)|)
    decreases i
  {
    if i > from {
      GrowChain(views, me, log, from, i - 1);
      OwnSnoc(me, log, from, i - 1);
      assert Grows(views[i - 1], views[i - 1 + 1], if log[i - 1].actor == me then 1 else 0);
    }
  }

  lemma ShrinksByNothing(a: View, b: View)
    requires Shrinks(a, b, {})
    ensures a.kept == b.kept && Grows(a, b, 0)
  {
    assert a.kept - {} == a.kept;
  }

  lemma GrowsAt(ms: MachineSet, start: State, log: seq<Step>, i: nat)
    requires i < |log|
    requires if log[i].actor == MachineSetController(ms.uid) then AddsAt(ms, start, log, i)
        else QuietAt(ms, start, log, i)
    ensures Grows(ViewAt(ms, start, log, i), ViewAt(ms, start, log, i + 1),
                  if log[i].actor == MachineSetController(ms.uid) then 1 else 0)
  {
    if log[i].actor == MachineSetController(ms.uid) {
      ExecPrefix(start, log, i);
      CreateAdds(ms, Exec(start, log[..i]), log[i].event.m, log[i]);
    } else {
      ShrinksByNothing(ViewAt(ms, start, log, i), ViewAt(ms, start, log, i + 1));
    }
  }

  /** Each creation counts: the set grows by exactly the number of own steps. */
  lemma AddsCount(ms: MachineSet, start: State, log: seq<Step>, from: nat)
    requires from <= |log|
    requires Calm(ms, start, log, from) && OnlyAdds(ms, start, log, from)
    ensures Grows(ViewAt(ms, start, log, from), Look(ms, Exec(start, log)),
        |Own(MachineSetController(ms.uid), log, from)|)
  {
    var me := MachineSetController(ms.uid);
    var views := History(ms, start, log);
    forall n | from <= n < |log|
      ensures Grows(views[n], views[n + 1], if log[n].actor == me then 1 else 0)
    {
      assert log[n].actor != me ==> QuietAt(ms, start, log, n);
      assert log[n].actor == me ==> AddsAt(ms, start, log, n);
      GrowsAt(ms, start, log, n);
    }
    GrowChain(views, me, log, from, |log|);
    assert log[..|log|] == log;
  }

  // ---- Runs in which it deletes machines ---------------------------------------------------

  /** All own steps delete machines under one of the names. */
  ghost predicate OnlyDeletes(uid: nat, log: seq<Step>, from: nat, names: set<Key>) {
    forall i :: from <= i < |log| && log[i].actor == MachineSetController(uid) ==>
      log[i].event.Delete? && log[i].event.key in names
  }

  lemma DeleteDrops(ms: MachineSet, s: State, step: Step)
    requires step.event.Delete? && forall k :: k in s.machines ==> s.machines[k].key == k
    ensures Shrinks(Look(ms, s), Look(ms, Next(s, step)), {step.event.key})
  {
    if Enabled(s, step) {
      var k := step.event.key;
      DropsOut(ms, s, Next(s, step), k);
    }
  }

  /** The object under k is gone or marked, and nothing else has changed. */
  lemma DropsOut(ms: MachineSet, s: State, t: State, k: Key)
    requires forall j :: j != k ==> (j in s.machines <==> j in t.machines)
    requires forall j :: j != k && j in s.machines ==> t.machines[j] == s.machines[j]
    requires k in t.machines ==> t.machines[k].deleting
    ensures Shrinks(Look(ms, s), Look(ms, t), {k})
  {
    assert k !in Kept(ms, t);
  }

  lemma ShrinksAt(ms: MachineSet, start: State, log: seq<Step>, names: set<Key>, i: nat)
    requires Initial(start) && i < |log|
    requires if log[i].actor == MachineSetController(ms.uid) then log[i].event.Delete? && log[i].event.key in names
             else QuietAt(ms, start, log, i)
    ensures Shrinks(ViewAt(ms, start, log, i), ViewAt(ms, start, log, i + 1), names)
  {
    if log[i].actor == MachineSetController(ms.uid) {
      ExecPrefix(start, log, i);
      Lifecycle.RunKeepsInv(start, log[..i]);
      DeleteDrops(ms, Exec(start, log[..i]), log[i]);
    }
  }

  /** Meanwhile the set only shrinks, and only by those names. */
  lemma DeletesShrink(ms: MachineSet, start: State, log: seq<Step>, from: nat, names: set<Key>, i: nat, j: nat)
    requires Initial(start) && from <= i <= j <= |log|
    requires Calm(ms, start, log, from) && OnlyDeletes(ms.uid, log, from, names)
    ensures Shrinks(ViewAt(ms, start, log, i), ViewAt(ms, start, log, j), names)
  {
    var views := History(ms, start, log);
    forall n | i <= n < j
      ensures Shrinks(views[n], views[n + 1], names)
    {
      assert log[n].actor != MachineSetController(ms.uid) ==> QuietAt(ms, start, log, n);
      ShrinksAt(ms, start, log, names, n);
    }
    ShrinkChain(views, names, i, j);
  }

  predicate MissingAt(ms: MachineSet, start: State, log: seq<Step>, k: Key, i: nat)
    requires i <= |log|
  {
    k !in ViewAt(ms, start, log, i).kept
  }

  /** At some moment between the two positions the name was not in the set. */
  ghost predicate MissingBetween(ms: MachineSet, start: State, log: seq<Step>, k: Key, from: nat, to: nat) {
    exists i {:trigger MissingAt(ms, start, log, k, i)} :: from <= i <= to && i <= |log|
        && MissingAt(ms, start, log, k, i)
  }

  lemma MissingLater(ms: MachineSet, start: State, a: seq<Step>, b: seq<Step>, k: Key, from: nat, to: nat, later: nat)
    requires a <= b && to <= later && MissingBetween(ms, start, a, k, from, to)
    ensures MissingBetween(ms, start, b, k, from, later)
  {
    var i :| from <= i <= to && i <= |a| && MissingAt(ms, start, a, k, i);
    ViewPrefix(ms, start, a, b, i);
    assert MissingAt(ms, start, b, k, i);
  }

  /** Once every name was seen missing, from then on the set is what it was
      without them. */
  lemma AllMissing(ms: MachineSet, start: State, log: seq<Step>, from: nat, names: set<Key>, to: nat, j: nat)
    requires Initial(start) && from <= to <= j <= |log|
    requires Calm(ms, start, log, from) && OnlyDeletes(ms.uid, log, from, names)
    requires forall k :: k in names ==> MissingBetween(ms, start, log, k, from, to)
    ensures ViewAt(ms, start, log, j).kept == ViewAt(ms, start, log, from).kept - names
    ensures ViewAt(ms, start, log, from).claimed ==> ViewAt(ms, start, log, j).claimed
  {
    DeletesShrink(ms, start, log, from, names, from, j);
    forall k | k in names
      ensures k !in ViewAt(ms, start, log, j).kept
    {
      var i :| from <= i <= to && i <= |log| && MissingAt(ms, start, log, k, i);
      DeletesShrink(ms, start, log, from, names, i, j);
    }
  }

  // ---- When the cache is settled again -------------------------------------------------

  /** Every step of `me` is in the part of the run that the cache shows. */
  ghost predicate CaughtUp(me: Actor, log: seq<Step>, seen: nat) {
    forall i :: seen <= i < |log| ==> log[i].actor != me
  }

  lemma SettledSince(ms: MachineSet, start: State, log: seq<Step>, seen: nat)
    requires seen <= |log| && CaughtUp(MachineSetController(ms.uid), log, seen)
    requires Calm(ms, start, log, seen) && ViewAt(ms, start, log, seen).claimed
    ensures Settled(ms, start, log, seen)
  {
    var shown := log[..seen];
    ForeignIsQuiet(ms, start, shown, log, |log|);
    assert log[..|log|] == log;
    forall i | seen <= i <= |log|
      ensures Agrees(ms, start, log, i)
    {
      ForeignIsQuiet(ms, start, shown, log, i);
      ShrinksByNothing(ViewAt(ms, start, log, seen), ViewAt(ms, start, log, i));
      ShrinksByNothing(ViewAt(ms, start, log, seen), Look(ms, Exec(start, log)));
    }
  }

  /** After creations the cache is settled as soon as it shows all of them. */
  lemma SettledAfterCreation(ms: MachineSet, start: State, a: seq<Step>, b: seq<Step>, seen: nat)
    requires a <= b && |a| <= seen <= |b| && NoOrphans(ms, Exec(start, a))
    requires Calm(ms, start, b, |a|) && OnlyAdds(ms, start, b, |a|)
    requires CaughtUp(MachineSetController(ms.uid), b, seen)
    ensures Settled(ms, start, b, seen)
  {
    var shown := b[..seen];
    CalmPrefix(ms, start, shown, b, |a|, |a|);
    OnlyAddsPrefix(ms, start, shown, b, |a|);
    AddsCount(ms, start, shown, |a|);
    ViewPrefix(ms, start, a, shown, |a|);
    CalmPrefix(ms, start, b, b, |a|, seen);
    SettledSince(ms, start, b, seen);
  }

  lemma OnlyAddsPrefix(ms: MachineSet, start: State, a: seq<Step>, b: seq<Step>, from: nat)
    requires a <= b && OnlyAdds(ms, start, b, from)
    ensures OnlyAdds(ms, start, a, from)
  {
    forall i | from <= i < |a| && a[i].actor == MachineSetController(ms.uid)
      ensures AddsAt(ms, start, a, i)
    {
      assert a[..i] == b[..i];
      assert AddsAt(ms, start, b, i);
    }
  }

  lemma OnlyAddsJoin(ms: MachineSet, start: State, a: seq<Step>, b: seq<Step>, from: nat)
    requires a <= b && OnlyAdds(ms, start, a, from) && OnlyAdds(ms, start, b, |a|)
    ensures OnlyAdds(ms, start, b, from)
  {
    forall i | from <= i < |b| && b[i].actor == MachineSetController(ms.uid)
      ensures AddsAt(ms, start, b, i)
    {
      if i < |a| {
        assert a[..i] == b[..i];
        assert AddsAt(ms, start, a, i);
      }
    }
  }

  /** A machine every settled cache shows can only be missed after that. */
  lemma MissingOnlyAfter(ms: MachineSet, start: State, a: seq<Step>, b: seq<Step>, k: Key, before: nat, seen: nat)
    requires a <= b && before <= |a| && seen <= |b|
    requires Settled(ms, start, a, before) && k in Kept(ms, Exec(start, a))
    requires MissingBetween(ms, start, b, k, before, seen)
    ensures |a| <= seen && MissingBetween(ms, start, b, k, |a|, seen)
  {
    var i :| before <= i <= seen && i <= |b| && MissingAt(ms, start, b, k, i);
    assert i <= |a| ==> Agrees(ms, start, a, i);
    if i <= |a| {
      ViewPrefix(ms, start, a, b, i);
    }
  }

  /** A cache that was settled before deletions is settled again once it has
      shown each of the names missing. */
  lemma SettledAfterDeletion(ms: MachineSet, start: State, a: seq<Step>, b: seq<Step>, names: set<Key>, before: nat,
      seen: nat)
    requires Initial(start) && a <= b && before <= |a| && seen <= |b|
    requires Settled(ms, start, a, before) && names != {} && names <= Kept(ms, Exec(start, a))
    requires Calm(ms, start, b, |a|) && OnlyDeletes(ms.uid, b, |a|, names)
    requires forall k :: k in names ==> MissingBetween(ms, start, b, k, before, seen)
    ensures Settled(ms, start, b, seen) && Kept(ms, Exec(start, b)) == Kept(ms, Exec(start, a)) - names
  {
    assert Agrees(ms, start, a, |a|);
    ViewPrefix(ms, start, a, b, |a|);
    ViewPrefix(ms, start, b, b, |b|);
    forall k | k in names
      ensures MissingBetween(ms, start, b, k, |a|, seen) && |a| <= seen
    {
      MissingOnlyAfter(ms, start, a, b, k, before, seen);
    }
    forall j | seen <= j <= |b|
      ensures ViewAt(ms, start, b, j) == View(Kept(ms, Exec(start, a)) - names, true)
    {
      AllMissing(ms, start, b, |a|, names, seen, j);
    }
    forall j | seen <= j <= |b|
      ensures Agrees(ms, start, b, j)
    {}
  }

  // ---- Copies of one machine set --------------------------------------------------------

  /** Two copies that work with the same machines: the replicas, the template,
      the status and the finalizers may differ. */
  predicate SameSet(a: MachineSet, b: MachineSet) {
    a.key.ns == b.key.ns && a.uid == b.uid && a.selector == b.selector
  }

  lemma SameLook(a: MachineSet, b: MachineSet, s: State)
    requires SameSet(a, b)
    ensures Look(a, s) == Look(b, s)
  {
    forall m ensures Candidate(a, m) == Candidate(b, m) {}
    assert Kept(a, s) == Kept(b, s);
  }

  lemma SameCalm(a: MachineSet, b: MachineSet, start: State, log: seq<Step>, from: nat)
    requires SameSet(a, b) && Calm(a, start, log, from)
    ensures Calm(b, start, log, from)
  {
    forall i | from <= i < |log| && log[i].actor != MachineSetController(b.uid)
      ensures QuietAt(b, start, log, i)
    {
      SameLook(a, b, Exec(start, log[..i]));
      SameLook(a, b, Exec(start, log[..i + 1]));
      assert QuietAt(a, start, log, i);
    }
  }

  lemma SameSettled(a: MachineSet, b: MachineSet, start: State, log: seq<Step>, seen: nat)
    requires SameSet(a, b) && Settled(a, start, log, seen)
    ensures Settled(b, start, log, seen)
  {
    SameLook(a, b, Exec(start, log));
    forall i | seen <= i <= |log|
      ensures Agrees(b, start, log, i)
    {
      SameLook(a, b, Exec(start, log[..i]));
      assert Agrees(a, start, log, i);
    }
  }

  // ---- Names and copies ----------------------------------------------------------------

  function Keys(s: seq<Machine>): set<Key> {
    set m | m in s :: m.key
  }

  predicate DistinctKeys(s: seq<Machine>) {
    forall i, j :: 0 <= i < j < |s| ==> s[i].key != s[j].key
  }

  lemma KeysSnoc(front: seq<Machine>, last: Machine)
    ensures Keys(front + [last]) == Keys(front) + {last.key}
    ensures DistinctKeys(front + [last]) <==> DistinctKeys(front) && last.key !in Keys(front)
  {
    var s := front + [last];
    if last.key in Keys(front) {
      var m :| m in front && m.key == last.key;
      var i :| 0 <= i < |front| && front[i] == m;
      assert s[i].key == s[|front|].key;
    } else {
      assert forall i :: 0 <= i < |front| ==> front[i].key in Keys(front);
    }
    if DistinctKeys(s) {
      forall i, j | 0 <= i < j < |front|
        ensures front[i].key != front[j].key
      {
        assert s[i].key != s[j].key;
      }
    }
  }

  lemma {:induction false} KeysCount(s: seq<Machine>)
    ensures |Keys(s)| <= |s|
    ensures |Keys(s)| == |s| <==> DistinctKeys(s)
  {
    if s == [] {
      assert Keys(s) == {};
    } else {
      var front, last := s[..|s| - 1], s[|s| - 1];
      KeysCount(front);
      KeysSnoc(front, last);
      assert s == front + [last];
    }
  }

  lemma PermutedKeys(s: seq<Machine>, t: seq<Machine>)
    requires multiset(s) == multiset(t) && DistinctKeys(s)
    ensures DistinctKeys(t) && Keys(t) == Keys(s) && forall m :: m in t <==> m in s
  {
    assert forall m :: m in t <==> m in multiset(t);
    assert forall m :: m in s <==> m in multiset(s);
    assert Keys(t) == Keys(s);
    KeysCount(s);
    KeysCount(t);
    assert |multiset(s)| == |s| && |multiset(t)| == |t|;
  }

  /** A machine under this name was once controlled by the owner with the uid. */
  ghost predicate OnceControlled(s: State, k: Key, uid: nat) {
    exists p :: p in s.past && p.key == k && ControlledBy(p, uid)
  }

  ghost predicate NamesNotReused(s: State) {
    forall p, q :: p in s.past && q in s.past && p.key == q.key ==> p.uid == q.uid
  }

  /** Even an old copy tells who controls the machine for ever: its stored
      value, if there is one, has the same controller. */
  lemma CopyTellsController(s: State, p: Machine, k: Key, uid: nat)
    requires Lifecycle.Inv(s) && p in s.past && ControlledBy(p, uid)
    requires k in s.machines && (s.machines[k].uid == p.uid || (NamesNotReused(s) && k == p.key))
    ensures ControlledBy(s.machines[k], uid)
  {
    Lifecycle.StoredIsLatest(s, k, p);
  }

  /** Two owners never both count one machine, even on copies of different age. */
  lemma NeverShared(s: State, p: Machine, q: Machine, u1: nat, u2: nat)
    requires Lifecycle.Inv(s) && p in s.past && q in s.past && p.uid == q.uid
    requires ControlledBy(p, u1) && ControlledBy(q, u2)
    ensures u1 == u2
  {
    assert Lifecycle.Ordered(p, q) && Lifecycle.Ordered(q, p);
  }
}
