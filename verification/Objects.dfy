/** Values shared by every controller: optional values, API errors and the
    machine object of pkg/apis/cluster/v1alpha1/machine_types.go. */
module Objects {

  datatype Option<+T> = None | Some(value: T)

  datatype Result<+T, +E> = Ok(value: T) | Err(error: E)

  /** How a call to the API server can fail. `Timeout` is any other status
      error; `Transport` is an error that carries no API status at all. */
  datatype ApiError = NotFound | Conflict | AlreadyExists | Timeout | Transport

  datatype Key = Key(ns: string, name: string)

  datatype OwnerKind = ClusterOwner | MachineSetOwner | OtherOwner

  /** An owner reference; `controller` is false when it is unset. */
  datatype OwnerRef = OwnerRef(kind: OwnerKind, uid: nat, controller: bool)

  datatype MachinePhase = Unset | Creating | Ready | Upgrading | Deleting | Failed

  const MACHINE_FINALIZER := "cnctmachine.cluster.cnct.sds.samsung.com"

  const ROLE_MASTER := "master"

  /** A machine object. `deleting` says that a deletion timestamp is set and
      `version` is the resource version of the copy. */
  datatype Machine = Machine(
    key: Key,
    uid: nat,
    version: nat,
    labels: map<string, string>,
    annotations: map<string, string>,
    owners: seq<OwnerRef>,
    finalizers: seq<string>,
    deleting: bool,
    roles: seq<string>,
    instanceType: string,
    phase: MachinePhase,
    systemId: string,
    host: string,
    k8sVersion: string)

  /** The references whose controller flag is set, in order. */
  function Controllers(owners: seq<OwnerRef>): (refs: seq<OwnerRef>)
    ensures forall r :: r in refs <==> r in owners && r.controller
  {
    if owners == [] then []
    else if owners[0].controller then [owners[0]] + Controllers(owners[1..])
    else Controllers(owners[1..])
  }

  lemma ControllersAppend(owners: seq<OwnerRef>, ref: OwnerRef)
    requires ref.controller
    ensures Controllers(owners + [ref]) == Controllers(owners) + [ref]
  {
    if owners == [] {
      assert owners + [ref] == [ref];
    } else {
      assert (owners + [ref])[1..] == owners[1..] + [ref];
      ControllersAppend(owners[1..], ref);
    }
  }

  /** metav1.GetControllerOf and metav1.IsControlledBy. */
  method GetControllerOf(m: Machine) returns (ref: Option<OwnerRef>)
    ensures ref == None <==> Controllers(m.owners) == []
    ensures ref.Some? ==> ref.value == Controllers(m.owners)[0]
  {
    for i := 0 to |m.owners|
      invariant Controllers(m.owners) == Controllers(m.owners[i..])
    {
      if m.owners[i].controller {
        return Some(m.owners[i]);
      }
      assert m.owners[i..][1..] == m.owners[i + 1..];
    }
    return None;
  }

  predicate ControlledBy(m: Machine, uid: nat) {
    Controllers(m.owners) != [] && Controllers(m.owners)[0].uid == uid
  }
}
