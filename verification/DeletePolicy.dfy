/** Which machines to delete first (pkg/controller/machineset/delete_policy.go). */
module DeletePolicy {
  import opened Objects

  const MUST_DELETE: int := 100
  const BETTER_DELETE: int := 50
  const COULD_DELETE: int := 20

  const DELETE_ANNOTATION := "cluster.k8s.io/delete-machine"

  /** randomDeletePolicy. */
  function Priority(m: Machine): int {
    if m.deleting then MUST_DELETE
    else if DELETE_ANNOTATION in m.annotations && m.annotations[DELETE_ANNOTATION] != "" then BETTER_DELETE
    else COULD_DELETE
  }

  /** A user has asked for this machine to go first. */
  predicate Annotated(m: Machine) {
    DELETE_ANNOTATION in m.annotations && m.annotations[DELETE_ANNOTATION] != ""
  }

  /** a may be chosen while b is left: machines in deletion go first, and then those
      with the annotation. */
  predicate MayGoBefore(a: Machine, b: Machine) {
    (b.deleting ==> a.deleting) && (Annotated(b) ==> a.deleting || Annotated(a))
  }

  /** The priorities say exactly that. */
  lemma PriorityIsPreference(a: Machine, b: Machine)
    ensures Priority(a) >= Priority(b) <==> MayGoBefore(a, b)
  {
  }

  predicate HighToLow(s: seq<Machine>) {
    forall i, j :: 0 <= i < j < |s| ==> Priority(s[i]) >= Priority(s[j])
  }

  /** sortableMachines: Len, Swap and Less over the shared slice, as sort.Sort
      uses them. */
  class SortableMachines {
    const machines: array<Machine>

    constructor (machines: array<Machine>)
      ensures this.machines == machines
    {
      this.machines := machines;
    }

    predicate Less(i: int, j: int)
      requires 0 <= i < machines.Length && 0 <= j < machines.Length
      reads machines
    {
      Priority(machines[j]) < Priority(machines[i])
    }

    method Swap(i: int, j: int)
      requires 0 <= i < machines.Length && 0 <= j < machines.Length
      modifies machines
      ensures machines[i] == old(machines[j]) && machines[j] == old(machines[i])
      ensures forall k :: 0 <= k < machines.Length && k != i && k != j ==> machines[k] == old(machines[k])
      ensures multiset(machines[..]) == multiset(old(machines[..]))
    {
      machines[i], machines[j] := machines[j], machines[i];
    }

    /** Everything before n is sorted, except that the element at k may belong
        further to the front. */
    predicate SortedBut(n: int, k: int)
      requires 0 <= k < n <= machines.Length
      reads machines
    {
      forall i, j :: 0 <= i < j < n && j != k ==> Priority(machines[i]) >= Priority(machines[j])
    }

    lemma PrefixSorted(n: int)
      requires 0 < n <= machines.Length && HighToLow(machines[..n - 1])
      ensures SortedBut(n, n - 1)
    {
      forall i, j | 0 <= i < j < n && j != n - 1
        ensures Priority(machines[i]) >= Priority(machines[j])
      {
        assert machines[..n - 1][i] == machines[i] && machines[..n - 1][j] == machines[j];
      }
    }

    /** No element after k has a higher priority. */
    predicate Leads(n: int, k: int)
      requires 0 <= k < n <= machines.Length
      reads machines
    {
      forall j :: k < j < n ==> Priority(machines[k]) >= Priority(machines[j])
    }

    lemma AllSorted(n: int, k: int)
      requires 0 <= k < n <= machines.Length && SortedBut(n, k) && Leads(n, k)
      requires k > 0 ==> !Less(k, k - 1)
      ensures HighToLow(machines[..n])
    {
      forall i, j | 0 <= i < j < n
        ensures Priority(machines[i]) >= Priority(machines[j])
      {
        assert j == k && i < k - 1 ==> Priority(machines[i]) >= Priority(machines[k - 1]);
      }
    }

    /** Moves the element at k one place to the front. */
    method MoveForward(n: int, k: int)
      requires 0 < k < n <= machines.Length && SortedBut(n, k) && Leads(n, k) && Less(k, k - 1)
      modifies machines
      ensures SortedBut(n, k - 1) && Leads(n, k - 1)
      ensures multiset(machines[..]) == multiset(old(machines[..]))
    {
      Swap(k, k - 1);
    }

    /** One round of insertion: moves the element at n - 1 to its place. */
    method Insert(n: int)
      requires 0 < n <= machines.Length && HighToLow(machines[..n - 1])
      modifies machines
      ensures HighToLow(machines[..n])
      ensures multiset(machines[..]) == multiset(old(machines[..]))
    {
      var k := n - 1;
      PrefixSorted(n);
      while k > 0 && Less(k, k - 1)
        invariant 0 <= k < n && SortedBut(n, k) && Leads(n, k)
        invariant multiset(machines[..]) == multiset(old(machines[..]))
      {
        MoveForward(n, k);
        k := k - 1;
      }
      AllSorted(n, k);
    }

    /** Stands for sort.Sort: all that is used of it is that it permutes the
        slice through Swap until Less says it is sorted. */
    method Sort()
      modifies machines
      ensures HighToLow(machines[..])
      ensures multiset(machines[..]) == multiset(old(machines[..]))
    {
      var n := 0;
      while n < machines.Length
        invariant 0 <= n <= machines.Length && HighToLow(machines[..n])
        invariant multiset(machines[..]) == multiset(old(machines[..]))
      {
        n := n + 1;
        Insert(n);
      }
      assert machines[..machines.Length] == machines[..];
    }
  }

  function Clamp(diff: int, len: nat): nat {
    if diff >= len then len else if diff <= 0 then 0 else diff
  }

  /** The chosen machines are a prefix of the slice, which is only permuted. If one
      that is not in deletion is chosen, none left behind is in deletion; if one is
      chosen that has not even the annotation, none left behind has it. */
  method GetMachinesToDeletePrioritized(filtered: array<Machine>, diff: int) returns (chosen: seq<Machine>)
    modifies filtered
    ensures multiset(filtered[..]) == multiset(old(filtered[..]))
    ensures |chosen| == Clamp(diff, filtered.Length) && chosen == filtered[..|chosen|]
    ensures forall c, r :: c in chosen && r in filtered[|chosen|..] ==> MayGoBefore(c, r)
    ensures diff <= 0 || diff >= filtered.Length ==> filtered[..] == old(filtered[..])
  {
    if diff >= filtered.Length {
      return filtered[..];
    } else if diff <= 0 {
      return [];
    }
    var sortable := new SortableMachines(filtered);
    sortable.Sort();
    chosen := filtered[..diff];
    forall c, r | c in chosen && r in filtered[diff..]
      ensures MayGoBefore(c, r)
    {
      var i :| 0 <= i < diff && c == filtered[..][i];
      var j :| diff <= j < filtered.Length && r == filtered[..][j];
      assert Priority(c) >= Priority(r);
      PriorityIsPreference(c, r);
    }
  }
}
