/** Machine-set objects and the pure decisions about them
    (pkg/controller/machineset/machineset-utils.go, status.go). */
module MachineSets {
  import opened Objects
  import opened Selectors
  import World

  datatype Template = Template(
    labels: map<string, string>,
    annotations: map<string, string>,
    finalizers: seq<string>,
    roles: seq<string>,
    instanceType: string)

  datatype SetPhase = NoPhase | ReadySet | ErrorSet

  datatype SetStatus = SetStatus(phase: SetPhase, replicas: nat, fullyLabeled: nat)

  datatype MachineSet = MachineSet(
    key: Key,
    uid: nat,
    labels: map<string, string>,
    owned: bool,
    finalizers: seq<string>,
    deleting: bool,
    replicas: int,
    selector: Selector,
    template: Template,
    status: SetStatus)

  /** ValidateMachineSet. */
  predicate ValidSet(ms: MachineSet) {
    Convertible(ms.selector) && Matches(ms.selector, ms.template.labels)
  }

  /** hasMatchingLabels: an unreadable or empty selector matches nothing. */
  predicate HasMatchingLabels(ms: MachineSet, m: Machine) {
    Convertible(ms.selector) && !Empty(ms.selector) && Matches(ms.selector, m.labels)
  }

  /** shouldExcludeMachine. */
  predicate ShouldExclude(ms: MachineSet, m: Machine) {
    (Controllers(m.owners) != [] && !ControlledBy(m, ms.uid)) || m.deleting || !HasMatchingLabels(ms, m)
  }

  /** A pass over the set would try to adopt the machine. */
  predicate WouldAdopt(ms: MachineSet, m: Machine) {
    !ShouldExclude(ms, m) && Controllers(m.owners) == []
  }

  function ControllerRef(ms: MachineSet): OwnerRef {
    OwnerRef(MachineSetOwner, ms.uid, true)
  }

  /** createMachine: the object handed to the API server. */
  method CreateMachine(ms: MachineSet) returns (m: Machine)
    ensures m.key.ns == ms.key.ns && m.labels == ms.template.labels && m.owners == [ControllerRef(ms)]
    ensures m.roles == ms.template.roles && m.instanceType == ms.template.instanceType
    ensures m.annotations == ms.template.annotations && m.finalizers == ms.template.finalizers
    ensures World.Creatable(World.MachineSetController(ms.uid), m)
    ensures !ShouldExclude(ms, m) <==> ValidSet(ms) && !Empty(ms.selector)
  {
    m := Machine(Key(ms.key.ns, ""), 0, 0, ms.template.labels, ms.template.annotations,
                 [OwnerRef(MachineSetOwner, ms.uid, true)], ms.template.finalizers, false,
                 ms.template.roles, ms.template.instanceType, Unset, "", "", "");
    assert Controllers(m.owners[1..]) == [];
  }

  // ---- Waking up sets for an orphan ------------------------------------------------

  function SetKeys(sets: seq<MachineSet>, m: Machine): seq<Key> {
    if sets == [] then []
    else SetKeys(sets[..|sets| - 1], m) +
         if HasMatchingLabels(sets[|sets| - 1], m) then [sets[|sets| - 1].key] else []
  }

  lemma {:induction false} SetKeysMembers(sets: seq<MachineSet>, m: Machine, k: Key)
    ensures k in SetKeys(sets, m) <==> exists i :: 0 <= i < |sets| && sets[i].key == k && HasMatchingLabels(sets[i], m)
  {
    if sets != [] {
      var front := sets[..|sets| - 1];
      SetKeysMembers(front, m, k);
      if k in SetKeys(front, m) {
        var i :| 0 <= i < |front| && front[i].key == k && HasMatchingLabels(front[i], m);
        assert sets[i] == front[i];
      }
      if i :| 0 <= i < |sets| && sets[i].key == k && HasMatchingLabels(sets[i], m) {
        assert i < |front| ==> front[i] == sets[i];
      }
    }
  }

  /** MachineToMachineSets and getMachineSetsForMachine: `read` and `listed` are
      what the reads of the machine and of the sets in its namespace answer. */
  method MachineToMachineSets(read: Result<Machine, ApiError>, listed: Result<seq<MachineSet>, ApiError>)
    returns (result: seq<Key>)
    ensures result == if read.Ok? then Requests(read.value, listed) else []
  {
    if read.Err? {
      return [];
    }
    var m := read.value;
    var ref := GetControllerOf(m);
    if ref.Some? {
      return [];
    }
    if |m.labels| == 0 {
      return [];
    }
    if listed.Err? {
      return [];
    }
    var sets := listed.value;
    result := [];
    for i := 0 to |sets|
      invariant result == SetKeys(sets[..i], m)
    {
      assert sets[..i + 1][..i] == sets[..i];
      if HasMatchingLabels(sets[i], m) {
        result := result + [sets[i].key];
      }
    }
    assert sets[..|sets|] == sets;
  }

  /** The sets that are asked to look at m. */
  function Requests(m: Machine, listed: Result<seq<MachineSet>, ApiError>): seq<Key> {
    if Controllers(m.owners) != [] || m.labels == map[] || listed.Err? then [] else SetKeys(listed.value, m)
  }

  /** The requests for m are exactly the sets that would adopt it. */
  predicate WakesAdopters(m: Machine, sets: seq<MachineSet>, result: seq<Key>) {
    forall i :: 0 <= i < |sets| ==> (sets[i].key in result <==> WouldAdopt(sets[i], m))
  }

  /** When wake-up is complete: for an orphan that is not being deleted the
      requests are exactly the adopting sets, unless the machine has no labels
      and some set has a selector that matches the empty label set. */
  lemma WakeUpIsCompleteIff(m: Machine, sets: seq<MachineSet>)
    requires Controllers(m.owners) == [] && !m.deleting
    requires forall i, j :: 0 <= i < j < |sets| ==> sets[i].key != sets[j].key
    ensures WakesAdopters(m, sets, Requests(m, Ok(sets))) <==>
              m.labels != map[] || forall i :: 0 <= i < |sets| ==> !HasMatchingLabels(sets[i], m)
  {
    forall i | 0 <= i < |sets|
      ensures sets[i].key in SetKeys(sets, m) <==> HasMatchingLabels(sets[i], m)
    {
      SetKeysMembers(sets, m, sets[i].key);
    }
    if m.labels == map[] {
      if i :| 0 <= i < |sets| && HasMatchingLabels(sets[i], m) {
        assert WouldAdopt(sets[i], m);
      }
    }
  }

  /** Selectors made of match labels only always wake up every adopter. */
  lemma WakeUpForMatchLabels(m: Machine, sets: seq<MachineSet>)
    requires Controllers(m.owners) == [] && !m.deleting
    requires forall i, j :: 0 <= i < j < |sets| ==> sets[i].key != sets[j].key
    requires forall i :: 0 <= i < |sets| ==> sets[i].selector.expressions == []
    ensures WakesAdopters(m, sets, Requests(m, Ok(sets)))
  {
    forall i | 0 <= i < |sets| && HasMatchingLabels(sets[i], m)
      ensures m.labels != map[]
    {
      MatchLabelsOnly(sets[i].selector, m.labels, map[]);
    }
    WakeUpIsCompleteIff(m, sets);
  }

  /** Where it is not: a set for everything but a = b, and an orphan without labels. */
  lemma UnlabelledIsNotWokenUp(ms: MachineSet, m: Machine)
    requires ms.selector == Selector(map[], [Expression("a", NotIn, ["b"])])
    requires ms.template.labels == map[] && m.labels == map[] && m.owners == [] && !m.deleting
    ensures ValidSet(ms) && WouldAdopt(ms, m) && !WakesAdopters(m, [ms], Requests(m, Ok([ms])))
  {
    var key := ms.selector.expressions[0].key;
    PlainNameIsKey(key);
    assert [ms][0] == ms;
  }

  // ---- Status -----------------------------------------------------------------------

  function CountMatching(machines: seq<Machine>, labels: map<string, string>): (n: nat)
    ensures n <= |machines|
  {
    if machines == [] then 0
    else CountMatching(machines[..|machines| - 1], labels) +
         if MatchesLabels(labels, machines[|machines| - 1].labels) then 1 else 0
  }

  lemma {:induction false} CountAppend(a: seq<Machine>, b: seq<Machine>, labels: map<string, string>)
    ensures CountMatching(a + b, labels) == CountMatching(a, labels) + CountMatching(b, labels)
  {
    if b == [] {
      assert a + b == a;
    } else {
      CountAppend(a, b[..|b| - 1], labels);
      assert (a + b)[..|a + b| - 1] == a + b[..|b| - 1];
    }
  }

  /** The count does not depend on the order of the machines. */
  lemma {:induction false} CountIgnoresOrder(a: seq<Machine>, b: seq<Machine>, labels: map<string, string>)
    requires multiset(a) == multiset(b)
    ensures |a| == |b| && CountMatching(a, labels) == CountMatching(b, labels)
  {
    if a == [] {
      assert |multiset(b)| == 0;
    } else {
      var m := a[|a| - 1];
      assert m in multiset(b);
      var i :| 0 <= i < |b| && b[i] == m;
      var rest := b[..i] + b[i + 1..];
      assert b == b[..i] + [m] + b[i + 1..];
      assert a == a[..|a| - 1] + [m];
      assert multiset(a) == multiset(a[..|a| - 1]) + multiset{m};
      assert multiset(b) == multiset(rest) + multiset{m};
      assert multiset(a[..|a| - 1]) == multiset(a) - multiset{m};
      CountIgnoresOrder(a[..|a| - 1], rest, labels);
      CountAppend(b[..i] + [m], b[i + 1..], labels);
      CountAppend(b[..i], [m], labels);
      CountAppend(b[..i], b[i + 1..], labels);
      CountAppend(a[..|a| - 1], [m], labels);
    }
  }

  /** calculateStatus over the machines in the shared slice. */
  method CalculateStatus(ms: MachineSet, machines: array<Machine>) returns (status: SetStatus)
    ensures status == ms.status.(replicas := machines.Length,
                                 fullyLabeled := CountMatching(machines[..], ms.template.labels))
    ensures status.fullyLabeled <= status.replicas
  {
    var count := 0;
    for i := 0 to machines.Length
      invariant count == CountMatching(machines[..i], ms.template.labels)
    {
      assert machines[..i + 1][..i] == machines[..i];
      if MatchesLabels(ms.template.labels, machines[i].labels) {
        count := count + 1;
      }
    }
    assert machines[..machines.Length] == machines[..];
    return ms.status.(replicas := machines.Length, fullyLabeled := count);
  }
}
