/** The machine objects of the API server and the systems of MAAS, changed one
    accepted call at a time by users and by three controllers. A run is a
    sequence of steps; every state of a run is the result of replaying a
    prefix of it, which is also what a lagging informer cache shows. */
module World {
  import opened Objects
  import Util

  /** Who issues a call. `User` also stands for the garbage collector and the
      API front end. `MachineSetController(u)` works on the set with uid u. */
  datatype Actor =
    | User
    | MachineController
    | MachineSetController(uid: nat)
    | ClusterController

  /** MAAS as seen by the operator.
      free: systems MAAS would hand out;
      open: systems with no release requested since they were last allocated;
      held: systems known only to the machine pass that is running;
      abandoned: systems whose only record was lost when a pass ended;
      releasedFor: machine objects for whose deletion a release was requested. */
  datatype Maas = Maas(
    free: set<string>,
    open: set<string>,
    held: set<string>,
    abandoned: set<string>,
    releasedFor: set<nat>)

  /** `past` holds every machine value that was ever stored. */
  datatype State = State(
    machines: map<Key, Machine>,
    past: set<Machine>,
    revision: nat,
    nextUid: nat,
    maas: Maas)

  datatype Event =
    | Create(m: Machine)
    | Write(m: Machine)
    | Delete(key: Key)
    | Allocate(systemId: string)
    | Release(systemId: string, freed: bool, cause: Option<nat>)
    | EndPass

  datatype Step = Step(actor: Actor, event: Event)

  predicate Initial(s: State) {
    && s.machines == map[]
    && s.past == {}
    && s.maas.open == {} && s.maas.held == {} && s.maas.abandoned == {} && s.maas.releasedFor == {}
  }

  // ---- What each writer may turn a stored machine into --------------------

  predicate MarksDeleting(o: Machine, m: Machine) {
    o.deleting && o.phase != Deleting && m == o.(phase := Deleting)
  }

  predicate MarksReady(o: Machine, m: Machine) {
    o.phase == Creating && m == o.(phase := Ready)
  }

  predicate MarksFailed(o: Machine, m: Machine) {
    o.phase == Unset && m == o.(phase := Failed)
  }

  function WithFinalizer(finalizers: seq<string>): seq<string> {
    if MACHINE_FINALIZER in finalizers then finalizers else finalizers + [MACHINE_FINALIZER]
  }

  /** The system the pass holds is recorded, together with the finalizer. */
  predicate Records(o: Machine, m: Machine, held: set<string>) {
    && o.phase == Unset
    && m.systemId in held
    && m == o.(phase := Creating, systemId := m.systemId, finalizers := WithFinalizer(o.finalizers),
               host := m.host, k8sVersion := m.k8sVersion, annotations := m.annotations)
  }

  /** The finalizer goes only after the release was requested. */
  predicate Retires(o: Machine, m: Machine, maas: Maas) {
    && o.phase == Deleting
    && (o.systemId != "" ==> o.systemId !in maas.open && o.uid in maas.releasedFor)
    && m == o.(finalizers := Util.Without(o.finalizers, MACHINE_FINALIZER))
  }

  predicate Adopts(o: Machine, m: Machine, ref: OwnerRef) {
    Controllers(o.owners) == [] && ref.controller && m == o.(owners := o.owners + [ref])
  }

  /** Users edit metadata and spec, but neither the status, nor the controller
      reference, nor the machine finalizer. */
  predicate Edits(o: Machine, m: Machine) {
    && m == o.(labels := m.labels, annotations := m.annotations, owners := m.owners,
               finalizers := m.finalizers, roles := m.roles, instanceType := m.instanceType)
    && Controllers(m.owners) == Controllers(o.owners)
    && (MACHINE_FINALIZER in o.finalizers ==> MACHINE_FINALIZER in m.finalizers)
  }

  predicate Permitted(actor: Actor, o: Machine, m: Machine, maas: Maas) {
    match actor
    case User => Edits(o, m)
    case ClusterController => m.owners != [] && Adopts(o, m, m.owners[|m.owners| - 1])
    case MachineSetController(uid) =>
      m.owners != [] && Adopts(o, m, m.owners[|m.owners| - 1]) && m.owners[|m.owners| - 1].uid == uid
    case MachineController =>
      MarksDeleting(o, m) || MarksReady(o, m) || MarksFailed(o, m) || Records(o, m, maas.held) || Retires(o, m, maas)
  }

  /** A new object: empty status, at most one controller reference. */
  predicate Creatable(actor: Actor, m: Machine) {
    && m.phase == Unset && m.systemId == "" && !m.deleting
    && |Controllers(m.owners)| <= 1
    && match actor
       case User => true
       case MachineSetController(uid) => ControlledBy(m, uid)
       case _ => false
  }

  // ---- Steps ---------------------------------------------------------------

  predicate Enabled(s: State, step: Step) {
    match step.event
    case Create(m) =>
      && m.key !in s.machines && m.uid == s.nextUid && m.version == s.revision + 1
      && Creatable(step.actor, m)
    case Write(m) =>
      && m.key in s.machines && m.version == s.machines[m.key].version
      && Permitted(step.actor, s.machines[m.key], m, s.maas)
    case Delete(k) => k in s.machines && !s.machines[k].deleting && step.actor != ClusterController
    case Allocate(x) => step.actor == MachineController && x != ""
    case Release(x, _, cause) =>
      && step.actor == MachineController && x != ""
      && (cause.Some? ==>
            exists p :: p in s.past && p.uid == cause.value && p.phase == Deleting && p.systemId == x)
    case EndPass => step.actor == MachineController
  }

  /** Store `m` under the next resource version. */
  function Put(s: State, m: Machine): State {
    var stored := m.(version := s.revision + 1);
    s.(machines := s.machines[m.key := stored], past := s.past + {stored}, revision := s.revision + 1)
  }

  function Remove(s: State, k: Key): State {
    s.(machines := s.machines - {k}, revision := s.revision + 1)
  }

  /** The API server drops an object that is being deleted as soon as no
      finalizer is left. */
  function PutOrRemove(s: State, m: Machine): State {
    if m.deleting && m.finalizers == [] then Remove(s, m.key) else Put(s, m)
  }

  function MaasAfterWrite(maas: Maas, o: Machine, m: Machine): Maas {
    if o.systemId == m.systemId then maas else maas.(held := maas.held - {m.systemId})
  }

  function Apply(s: State, step: Step): State
    requires Enabled(s, step)
  {
    match step.event
    case Create(m) => Put(s, m).(nextUid := s.nextUid + 1)
    case Write(m) =>
      PutOrRemove(s, m).(maas := MaasAfterWrite(s.maas, s.machines[m.key], m))
    case Delete(k) => PutOrRemove(s, s.machines[k].(deleting := true))
    case Allocate(x) =>
      s.(maas := s.maas.(free := s.maas.free - {x}, open := s.maas.open + {x}, held := s.maas.held + {x}))
    case Release(x, freed, cause) =>
      s.(maas := s.maas.(free := if freed then s.maas.free + {x} else s.maas.free,
                         open := s.maas.open - {x},
                         held := s.maas.held - {x},
                         releasedFor := if cause.Some? then s.maas.releasedFor + {cause.value}
                                        else s.maas.releasedFor))
    case EndPass => s.(maas := s.maas.(held := {}, abandoned := s.maas.abandoned + s.maas.held))
  }

  /** A step that is not enabled changes nothing. */
  function Next(s: State, step: Step): State {
    if Enabled(s, step) then Apply(s, step) else s
  }

  /** The state after a whole run. */
  function Exec(s: State, log: seq<Step>): State {
    if log == [] then s else Next(Exec(s, log[..|log| - 1]), log[|log| - 1])
  }

  lemma ExecSnoc(s: State, log: seq<Step>, step: Step)
    ensures Exec(s, log + [step]) == Next(Exec(s, log), step)
  {
    assert (log + [step])[..|log|] == log;
  }

  lemma ExecPrefix(s: State, log: seq<Step>, i: nat)
    requires i < |log|
    ensures Exec(s, log[..i + 1]) == Next(Exec(s, log[..i]), log[i])
  {
    assert log[..i + 1] == log[..i] + [log[i]];
    ExecSnoc(s, log[..i], log[i]);
  }
}
