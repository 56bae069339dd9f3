/** The machine controller (pkg/controller/machine/machine_controller.go and
    delete.go): one pass per request, one pass at a time. */
module MachineControl {
  import opened Objects
  import opened World
  import opened ControlPlane
  import opened Outside
  import opened MaasClient
  import opened Preparation
  import opened Handover
  import opened Uniqueness
  import Accounting
  import CertBundle
  import Creator
  import Lifecycle
  import Tokens
  import Util

  datatype Outcome = Done | RequeueSoon | Failing(error: PassError)

  // ---- Waiting for the node ------------------------------------------------------------

  /** The node reports a ready kubelet. */
  predicate NodeReady(conditions: seq<Condition>) {
    exists i :: 0 <= i < |conditions| && conditions[i].reason == "KubeletReady" && conditions[i].status == "True"
  }

  /** What handleWaitingForReady does for each of the answers it hears: without a
      secret the machine is deleted, and only a node with a ready kubelet makes it
      Ready. */
  ghost predicate WaitTrace(m: Machine, err: Option<PassError>, heard: seq<Answer>, calls: seq<Call>,
                            events: seq<Event>)
  {
    && |heard| > 0 && heard[0].SecretRead? && heard[0].ns == m.key.ns
    && match heard[0].secret
       case Err(e) =>
         && |heard| == 1
         && if e == NotFound then DeletionTried(m, err, calls, events)
            else calls == [] && events == [] && err == Some(FromApi(e))
       case Ok(data) =>
         if CertBundle.HasKubeconfig(data)
         then NodeTrace(m, CertBundle.KubeconfigOf(data), err, heard[1..], calls, events)
         else |heard| == 1 && calls == [] && events == [] && err == Some(NotReady)
  }

  ghost predicate DeletionTried(m: Machine, err: Option<PassError>, calls: seq<Call>, events: seq<Event>) {
    && |calls| == 1 && calls[0].DeleteCall? && calls[0].k == m.key
    && (events == [] || events == [World.Delete(m.key)])
    && match calls[0].deleted
       case Ok(_) => err == Some(NotReady)
       case Err(e) => if e == NotFound then err == None && events == [] else err == Some(FromApi(e))
  }

  ghost predicate NodeTrace(m: Machine, config: CertBundle.Bytes, err: Option<PassError>, heard: seq<Answer>,
                            calls: seq<Call>, events: seq<Event>)
  {
    && |heard| > 0 && heard[0].ClientBuilt? && heard[0].config == config
    && if !heard[0].built then |heard| == 1 && calls == [] && events == [] && err == Some(Other)
       else
         && |heard| == 2 && heard[1].NodeRead? && heard[1].name == m.key.name
         && match heard[1].node
            case Err(e) => calls == [] && events == [] && err == Some(FromApi(e))
            case Ok(conditions) =>
              if NodeReady(conditions) then ReadyTried(m, err, calls, events)
              else calls == [] && events == [] && err == Some(NotReady)
  }

  ghost predicate ReadyTried(m: Machine, err: Option<PassError>, calls: seq<Call>, events: seq<Event>) {
    && |calls| == 1 && calls[0].UpdateCall? && calls[0].m == m.(phase := Ready)
    && (events == [] || events == [Write(m.(phase := Ready))])
    && match calls[0].updated
       case Ok(_) => err == None && events != []
       case Err(e) => err == Some(FromApi(e))
  }

  // ---- Deleting ------------------------------------------------------------------------

  /** The own steps of deleteMachine: the release comes first, and the write
      that removes the finalizer is the last step, if it is made at all. */
  ghost predicate DeleteTrace(copy: Machine, events: seq<Event>) {
    var removal := Write(copy.(finalizers := Util.Without(copy.finalizers, MACHINE_FINALIZER)));
    if copy.systemId == "" then events == [] || events == [removal]
    else exists freed :: events == [Release(copy.systemId, freed, Some(copy.uid))]
                         || events == [Release(copy.systemId, freed, Some(copy.uid)), removal]
  }

  /** The release of the recorded system, if there is one. */
  ghost predicate ReleaseTrace(copy: Machine, events: seq<Event>) {
    if copy.systemId == "" then events == []
    else exists freed :: events == [Release(copy.systemId, freed, Some(copy.uid))]
  }

  lemma ReleaseThenRemoval(copy: Machine, first: seq<Event>, second: seq<Event>)
    requires ReleaseTrace(copy, first)
    requires second == [] || second == [Write(copy.(finalizers := Util.Without(copy.finalizers, MACHINE_FINALIZER)))]
    ensures DeleteTrace(copy, first + second)
  {
    if copy.systemId != "" {
      var freed :| first == [Release(copy.systemId, freed, Some(copy.uid))];
      assert second == [] ==> first + second == first;
    }
  }

  /** Whether handleDelete goes on to the release, or stops with an error, for
      each of the answers it hears: the node must be gone or drained and removed,
      unless there is no cluster to take it from. */
  ghost predicate DeleteDecision(m: Machine, heard: seq<Answer>, stop: Option<PassError>) {
    && |heard| > 0 && heard[0].ClustersListed? && heard[0].ns == m.key.ns
    && match heard[0].clusters
       case Err(e) => |heard| == 1 && stop == Some(FromApi(e))
       case Ok(clusters) =>
         if |clusters| > 1 then |heard| == 1 && stop == Some(Other)
         else if clusters == [] || m.systemId == "" || clusters[0].deleting then |heard| == 1 && stop == None
         else SecretDecision(m, heard[1..], stop)
  }

  ghost predicate SecretDecision(m: Machine, heard: seq<Answer>, stop: Option<PassError>) {
    && |heard| > 0 && heard[0].SecretRead? && heard[0].ns == m.key.ns
    && match heard[0].secret
       case Err(e) => |heard| == 1 && stop == if e == NotFound then None else Some(FromApi(e))
       case Ok(data) =>
         if CertBundle.HasKubeconfig(data) then NodeDecision(m, CertBundle.KubeconfigOf(data), heard[1..], stop)
         else |heard| == 1 && stop == Some(NotReady)
  }

  ghost predicate NodeDecision(m: Machine, config: CertBundle.Bytes, heard: seq<Answer>, stop: Option<PassError>) {
    && |heard| > 0 && heard[0].ClientBuilt? && heard[0].config == config
    && if !heard[0].built then |heard| == 1 && stop == Some(Other)
       else
         && |heard| > 1 && heard[1].NodeRead? && heard[1].name == m.key.name
         && match heard[1].node
            case Err(e) => |heard| == 2 && stop == if e == NotFound then None else Some(FromApi(e))
            case Ok(_) => DrainDecision(m, heard[2..], stop)
  }

  ghost predicate DrainDecision(m: Machine, heard: seq<Answer>, stop: Option<PassError>) {
    && |heard| > 0 && heard[0].NodeDrained? && heard[0].name == m.key.name
    && match heard[0].drained
       case Err(e) => |heard| == 1 && stop == Some(FromApi(e))
       case Ok(_) =>
         && |heard| == 2 && heard[1].NodeRemoved? && heard[1].name == m.key.name
         && match heard[1].removed
            case Err(e) => stop == if e == NotFound then None else Some(FromApi(e))
            case Ok(_) => stop == None
  }

  /** The calls of deleteMachine: the release is requested, and then the finalizer
      is written away, whose answer decides. */
  ghost predicate DeleteCalls(m: Machine, err: Option<PassError>, calls: seq<Call>, events: seq<Event>) {
    var removal := m.(finalizers := Util.Without(m.finalizers, MACHINE_FINALIZER));
    var first := if m.systemId == "" then [] else [ReleaseCall(m.systemId)];
    && DeleteTrace(m, events)
    && |calls| == |first| + 1 && calls[..|first|] == first
    && calls[|first|].UpdateCall? && calls[|first|].m == removal
    && match calls[|first|].updated
       case Ok(_) => err == None && (removal != m ==> Write(removal) in events)
       case Err(e) => err == Some(FromApi(e))
  }

  ghost predicate DeleteHandled(m: Machine, err: Option<PassError>, heard: seq<Answer>, calls: seq<Call>,
                                events: seq<Event>)
  {
    if DeleteDecision(m, heard, None) then DeleteCalls(m, err, calls, events)
    else err.Some? && DeleteDecision(m, heard, err) && calls == [] && events == []
  }

  /** The object is gone, unless a finalizer other than ours keeps it. */
  predicate Retired(m: Machine, s: State) {
    if forall f :: f in m.finalizers ==> f == MACHINE_FINALIZER then m.key !in s.machines
    else m.key in s.machines && MACHINE_FINALIZER !in s.machines[m.key].finalizers
  }

  /** The own steps of one pass: marking the machine as deleting, the handler of
      its phase, the reaction to the handler's error. `read` is the copy the pass
      started from, `worked` the one it handled, `kept` what the handler left in the
      hands of the pass; opening, made and closing are the calls of the three parts. */
  datatype Pass = Pass(
    read: Option<Machine>,
    worked: Option<Machine>,
    marked: seq<Event>,
    handled: seq<Event>,
    cleanup: seq<Event>,
    opening: seq<Call>,
    made: seq<Call>,
    closing: seq<Call>,
    err: Option<PassError>,
    outcome: Outcome,
    given: Creator.Given,
    kept: set<string>)

  const NOTHING_DONE := Pass(None, None, [], [], [], [], [], [], None, Done, Creator.NOTHING_GIVEN, {})

  /** What the handler of the machine's phase did, for the answers it was given. */
  ghost predicate PhaseTrace(m: Machine, err: Option<PassError>, calls: seq<Call>, events: seq<Event>,
                             given: Creator.Given, held: set<string>, lost: set<Machine>)
  {
    && (m.phase != Unset ==> held == {} && given == Creator.NOTHING_GIVEN.(heard := given.heard)
                             && (err.Some? ==> !err.value.NeedsRelease? && err.value != Unrecoverable))
    && match m.phase
       case Creating => WaitTrace(m, err, given.heard, calls, events)
       case Deleting => DeleteHandled(m, err, given.heard, calls, events)
       case Unset => Creator.Outcome(m, err, given, calls, events, held, lost)
       case _ => err == None && given.heard == [] && calls == [] && events == []
  }

  /** The reaction to an error of the handler. */
  ghost predicate ErrorTrace(m: Machine, e: PassError, calls: seq<Call>, events: seq<Event>, outcome: Outcome) {
    match e
    case NeedsRelease(x) =>
      outcome == Failing(e) && calls == [ReleaseCall(x)] && exists freed :: events == [Release(x, freed, None)]
    case Unrecoverable =>
      && |calls| == 1 && calls[0].UpdateCall? && calls[0].m == m.(phase := Failed)
      && (events == [] || events == [Write(m.(phase := Failed))])
      && if calls[0].updated.Ok? then outcome == Done && events != [] else outcome == Failing(e)
    case _ =>
      && calls == [] && events == []
      && outcome == if e == Api(NotFound) || e == NotReady then RequeueSoon else Failing(e)
  }

  predicate NeedsMark(m: Machine) {
    m.deleting && m.phase != Deleting
  }

  /** A machine in deletion is handled only after phase Deleting was stored. */
  ghost predicate MarkedFirst(m: Machine, w: Machine, opening: seq<Call>, marked: seq<Event>) {
    if NeedsMark(m) then
      && opening == [GetCall(m.key, Ok(m)), UpdateCall(m.(phase := Deleting), Ok(w))]
      && marked == [Write(m.(phase := Deleting))] && w == m.(phase := Deleting, version := w.version)
    else
      opening == [GetCall(m.key, Ok(m))] && marked == [] && w == m
  }

  /** The pass ended before a handler was called: the machine could not be read,
      or phase Deleting not be stored. */
  ghost predicate EndedEarly(k: Key, pass: Pass) {
    && pass.err == None && pass.handled == [] && pass.cleanup == [] && pass.given == Creator.NOTHING_GIVEN
    && pass.made == [] && pass.closing == []
    && |pass.opening| > 0 && pass.opening[0].GetCall? && pass.opening[0].k == k
    && match pass.opening[0].got
       case Err(e) =>
         && |pass.opening| == 1 && pass.read == None && pass.marked == []
         && pass.outcome == if e == NotFound then Done else Failing(FromApi(e))
       case Ok(m) =>
         && |pass.opening| == 2 && pass.read == Some(m) && NeedsMark(m)
         && pass.opening[1].UpdateCall? && pass.opening[1].m == m.(phase := Deleting)
         && pass.opening[1].updated.Err? && pass.outcome == Failing(FromApi(pass.opening[1].updated.error))
         && (pass.marked == [] || pass.marked == [Write(m.(phase := Deleting))])
  }

  /** The own steps of the pass, in order. */
  function Events(pass: Pass): seq<Event> {
    pass.marked + pass.handled + pass.cleanup
  }

  /** Its calls, in order. */
  function Calls(pass: Pass): seq<Call> {
    pass.opening + pass.made + pass.closing
  }

  /** What the reaction to the handler's result did, and what is held after it. */
  ghost predicate Reacted(m: Machine, err: Option<PassError>, closing: seq<Call>, cleanup: seq<Event>,
                          outcome: Outcome, kept: set<string>, held: set<string>)
  {
    match err
    case None => closing == [] && cleanup == [] && outcome == Done && held == kept
    case Some(e) =>
      && ErrorTrace(m, e, closing, cleanup, outcome)
      && held == kept - if e.NeedsRelease? then {e.systemId} else {}
  }

  ghost predicate PassOk(k: Key, pass: Pass, held: set<string>, lost: set<Machine>) {
    if pass.worked.None? then EndedEarly(k, pass) && held == {}
    else
      && pass.read.Some? && pass.read.value.key == k
      && MarkedFirst(pass.read.value, pass.worked.value, pass.opening, pass.marked)
      && PhaseTrace(pass.worked.value, pass.err, pass.made, pass.handled, pass.given, pass.kept, lost)
      && Reacted(pass.worked.value, pass.err, pass.closing, pass.cleanup, pass.outcome, pass.kept, held)
  }

  /** The parts make a pass. */
  lemma PassFromParts(k: Key, pass: Pass, held: set<string>, lost: set<Machine>)
    requires pass.worked.Some? && pass.read.Some? && pass.read.value.key == k
    requires MarkedFirst(pass.read.value, pass.worked.value, pass.opening, pass.marked)
    requires PhaseTrace(pass.worked.value, pass.err, pass.made, pass.handled, pass.given, pass.kept, lost)
    requires Reacted(pass.worked.value, pass.err, pass.closing, pass.cleanup, pass.outcome, pass.kept, held)
    ensures PassOk(k, pass, held, lost)
  {
  }

  /** The answers by which a machine becomes Ready. */
  predicate SawReadyNode(m: Machine, heard: seq<Answer>) {
    && |heard| == 3 && heard[0].SecretRead? && heard[0].ns == m.key.ns
    && heard[0].secret.Ok? && CertBundle.HasKubeconfig(heard[0].secret.value)
    && heard[1] == ClientBuilt(CertBundle.KubeconfigOf(heard[0].secret.value), true)
    && heard[2].NodeRead? && heard[2].name == m.key.name && heard[2].node.Ok?
    && exists i :: 0 <= i < |heard[2].node.value| && heard[2].node.value[i] == Condition("KubeletReady", "True")
  }

  /** A machine that waits is written Ready exactly if its node was reached and has
      a ready kubelet, and it is deleted exactly if the secret is gone. */
  lemma ReadyIffKubeletReady(k: Key, pass: Pass, held: set<string>, lost: set<Machine>)
    requires PassOk(k, pass, held, lost) && pass.worked.Some? && pass.worked.value.phase == Creating
    ensures var m, heard := pass.worked.value, pass.given.heard;
            && ((exists r :: UpdateCall(m.(phase := Ready), r) in pass.made) <==> SawReadyNode(m, heard))
            && (Write(m.(phase := Ready)) in pass.handled ==> SawReadyNode(m, heard))
            && ((exists r :: DeleteCall(m.key, r) in pass.made) <==> heard == [SecretRead(m.key.ns, Err(NotFound))])
  {
    var m, heard, made := pass.worked.value, pass.given.heard, pass.made;
    if made != [] {
      assert made[0] in made;
      assert made[0].UpdateCall? ==> made[0] == UpdateCall(m.(phase := Ready), made[0].updated);
      assert made[0].DeleteCall? ==> made[0] == DeleteCall(m.key, made[0].deleted);
    }
    if |heard| == 3 && heard[2].NodeRead? && heard[2].node.Ok? {
      var conditions := heard[2].node.value;
      forall i | 0 <= i < |conditions| && conditions[i].reason == "KubeletReady" && conditions[i].status == "True"
        ensures conditions[i] == Condition("KubeletReady", "True")
      {}
    }
    if |heard| == 1 && heard[0].SecretRead? && heard[0].secret == Err(NotFound) {
      assert heard == [SecretRead(m.key.ns, Err(NotFound))];
    }
  }

  /** A node that could be read is drained and removed before its system is
      released. */
  lemma DrainedBeforeRelease(k: Key, pass: Pass, held: set<string>, lost: set<Machine>, i: nat)
    requires PassOk(k, pass, held, lost) && pass.worked.Some? && pass.worked.value.phase == Deleting
    requires exists x :: ReleaseCall(x) in pass.made
    requires i < |pass.given.heard| && pass.given.heard[i].NodeRead? && pass.given.heard[i].node.Ok?
    ensures var heard, name := pass.given.heard, pass.worked.value.key.name;
            && |heard| == i + 3 && heard[i].name == name
            && heard[i + 1] == NodeDrained(name, Ok(()))
            && heard[i + 2].NodeRemoved? && heard[i + 2].name == name
            && (heard[i + 2].removed.Err? ==> heard[i + 2].removed.error == NotFound)
  {
    var heard := pass.given.heard;
    assert DeleteDecision(pass.worked.value, heard, None);
    assert heard[1..][1..] == heard[2..] && heard[2..][2..] == heard[4..];
    if |heard| > 4 && heard[4].NodeDrained? && heard[4].drained.Ok? {
      assert heard[4].drained.value == ();
    }
  }

  // ---- What a pass loses ------------------------------------------------------------

  /** The branch of createKubeconfig that loses a system: MAAS has deployed one
      and reported its addresses, and then the kubeconfig could not be encoded or
      the secret not be stored. */
  predicate LosesSystem(given: Creator.Given) {
    && |given.maas| == 1 && given.maas[0].Ok? && given.maas[0].value.ips != []
    && Creator.Unpublished(given.published)
  }

  function Lost(given: Creator.Given): set<string> {
    if LosesSystem(given) then {given.maas[0].value.systemId} else {}
  }

  /** What is left in the hands of a pass is told by the answers it was given:
      nothing, unless its kubeconfig could not be published. That happens only
      to a master that has no system yet. */
  lemma LeftOver(k: Key, pass: Pass, held: set<string>, lost: set<Machine>)
    requires PassOk(k, pass, held, lost)
    ensures held == Lost(pass.given)
    ensures LosesSystem(pass.given) ==>
              pass.worked.Some? && pass.worked.value.phase == Unset && ROLE_MASTER in pass.worked.value.roles
  {
    if pass.worked.Some? && pass.worked.value.phase == Unset {
      Creator.WhatIsHeld(pass.worked.value, pass.err, pass.given, pass.made, pass.handled, pass.kept, lost);
    }
  }

  lemma LostGrows(m: Machine, err: Option<PassError>, calls: seq<Call>, events: seq<Event>, given: Creator.Given,
                  held: set<string>, lost: set<Machine>, more: set<Machine>)
    requires PhaseTrace(m, err, calls, events, given, held, lost) && lost <= more
    ensures PhaseTrace(m, err, calls, events, given, held, more)
  {
  }

  // ---- What many passes did ---------------------------------------------------------

  /** The own steps of the passes, each of which ends by forgetting. */
  function AllEvents(passes: seq<Pass>): seq<Event> {
    if passes == [] then []
    else AllEvents(passes[..|passes| - 1]) + (Events(passes[|passes| - 1]) + [EndPass])
  }

  /** The first answers, and then those the passes were given. */
  function AllGiven(first: Creator.Given, passes: seq<Pass>): Creator.Given {
    if passes == [] then first
    else
      var before, last := AllGiven(first, passes[..|passes| - 1]), passes[|passes| - 1].given;
      Creator.Given(before.maas + last.maas, before.published + last.published, before.heard + last.heard)
  }

  /** The first calls, and then those of the passes. */
  function AllCalls(first: seq<Call>, passes: seq<Pass>): seq<Call> {
    if passes == [] then first else AllCalls(first, passes[..|passes| - 1]) + Calls(passes[|passes| - 1])
  }

  /** The systems that the passes lost. */
  function AllLost(passes: seq<Pass>): set<string> {
    if passes == [] then {} else AllLost(passes[..|passes| - 1]) + Lost(passes[|passes| - 1].given)
  }

  /** How many passes could not publish the kubeconfig of a deployed system. */
  function Failures(passes: seq<Pass>): nat {
    if passes == [] then 0
    else Failures(passes[..|passes| - 1]) + if LosesSystem(passes[|passes| - 1].given) then 1 else 0
  }

  lemma {:induction false} LostAtMost(passes: seq<Pass>)
    ensures |AllLost(passes)| <= Failures(passes)
    ensures Failures(passes) <= |passes|
    ensures Failures(passes) == 0 ==> AllLost(passes) == {}
  {
    if passes != [] {
      var front, last := passes[..|passes| - 1], passes[|passes| - 1];
      LostAtMost(front);
      assert |AllLost(front) + Lost(last.given)| <= |AllLost(front)| + |Lost(last.given)|;
    }
  }

  lemma PassOkStays(k: Key, pass: Pass, held: set<string>, lost: set<Machine>, more: set<Machine>)
    requires PassOk(k, pass, held, lost) && lost <= more
    ensures PassOk(k, pass, held, more)
  {
    if pass.worked.Some? {
      LostGrows(pass.worked.value, pass.err, pass.made, pass.handled, pass.given, pass.kept, lost, more);
    }
  }

  /** No reply to the write that records a system was lost. */
  predicate NoRecordLost(lost: set<Machine>) {
    forall m :: m in lost ==> m.phase != Creating
  }

  /** If the replies to recording writes arrive, a pass gives back only what it
      holds. */
  lemma PassGivesBackHeld(k: Key, pass: Pass, held: set<string>, lost: set<Machine>)
    requires PassOk(k, pass, held, lost) && NoRecordLost(lost)
    ensures GivesBackHeld(Events(pass) + [EndPass])
  {
    if pass.worked.Some? && pass.worked.value.phase == Unset {
      HandledGivesBack(pass.worked.value, pass, held, lost);
    } else {
      OthersGiveNothingBack(k, pass, held, lost);
    }
  }

  lemma OthersGiveNothingBack(k: Key, pass: Pass, held: set<string>, lost: set<Machine>)
    requires PassOk(k, pass, held, lost) && (pass.worked.Some? ==> pass.worked.value.phase != Unset)
    ensures GivesBackHeld(Events(pass) + [EndPass])
  {
    var all := Events(pass) + [EndPass];
    assert forall n :: 0 <= n < |all| && all[n].Release? ==> all[n].cause.Some?;
  }

  /** A pass over a new machine gives a system back only as its second step, and
      it is the one that the first step allocated. */
  lemma ReleasedIsAllocated(m: Machine, pass: Pass, held: set<string>, lost: set<Machine>, n: nat)
    requires m.phase == Unset && NoRecordLost(lost) && pass.marked == []
    requires Creator.Outcome(m, pass.err, pass.given, pass.made, pass.handled, pass.kept, lost)
    requires Reacted(m, pass.err, pass.closing, pass.cleanup, pass.outcome, pass.kept, held)
    requires n < |Events(pass) + [EndPass]| && (Events(pass) + [EndPass])[n].Release?
    ensures var all := Events(pass) + [EndPass];
            n == 1 && all[0] == Allocate(all[1].systemId)
  {
    var handled := pass.handled;
    if n < |handled| {
      assert (Events(pass) + [EndPass])[n] == handled[n];
      Creator.OwnReleaseIsOfAllocated(m, pass.err, pass.given, pass.made, handled, pass.kept, lost, n);
    } else {
      assert pass.err.Some? && pass.err.value.NeedsRelease?;
      Creator.ReleaseIsOfAllocated(m, pass.err, pass.given, pass.made, handled, pass.kept, lost);
    }
  }

  lemma HandledGivesBack(m: Machine, pass: Pass, held: set<string>, lost: set<Machine>)
    requires m.phase == Unset && NoRecordLost(lost) && pass.marked == []
    requires Creator.Outcome(m, pass.err, pass.given, pass.made, pass.handled, pass.kept, lost)
    requires Reacted(m, pass.err, pass.closing, pass.cleanup, pass.outcome, pass.kept, held)
    ensures GivesBackHeld(Events(pass) + [EndPass])
  {
    forall n: nat | n < |Events(pass) + [EndPass]| && (Events(pass) + [EndPass])[n].Release?
      ensures n == 1 && (Events(pass) + [EndPass])[0] == Allocate((Events(pass) + [EndPass])[1].systemId)
    {
      ReleasedIsAllocated(m, pass, held, lost, n);
    }
    SecondGivesBackFirst(Events(pass) + [EndPass]);
  }

  lemma SecondGivesBackFirst(all: seq<Event>)
    requires forall n: nat :: n < |all| && all[n].Release? ==> n == 1 && all[0] == Allocate(all[1].systemId)
    ensures GivesBackHeld(all)
  {
    if |all| > 1 {
      assert all[..1] == [all[0]] && [all[0]][..0] == [];
      assert HeldAfter([all[0]]) == HeldBy(HeldAfter([]), all[0]);
    }
  }

  lemma {:induction false} PassesGiveBackHeld(keys: seq<Key>, passes: seq<Pass>, lost: set<Machine>)
    requires PassesOk(keys, passes, lost) && NoRecordLost(lost)
    ensures GivesBackHeld(AllEvents(passes))
  {
    if passes != [] {
      var p := |passes| - 1;
      PassesGiveBackHeld(keys[..p], passes[..p], lost);
      PassGivesBackHeld(keys[p], passes[p], Lost(passes[p].given), lost);
      GivesBackJoin(AllEvents(passes[..p]), Events(passes[p]) + [EndPass]);
    }
  }

  /** Step i hands out a system whose release is never requested later. */
  ghost predicate Unreleased(s: State, log: seq<Step>, i: nat) {
    && i < |log| && log[i].event.Allocate? && Enabled(Exec(s, log[..i]), log[i])
    && forall j :: i < j < |log| ==> !Accounting.Releases(log[j], log[i].event.systemId)
  }

  /** Every system handed out and not released later is recorded in a stored
      machine that carries the finalizer, or is one of the lost ones. */
  ghost predicate AllAccounted(s: State, log: seq<Step>, lost: set<string>) {
    forall i: nat :: Unreleased(s, log, i) ==>
      Lifecycle.Recorded(Exec(s, log), log[i].event.systemId) || log[i].event.systemId in lost
  }

  /** MAAS hands out only free systems, the update after each release for a
      deletion is accepted and removes the object, and no reply to an update
      that records a system was lost. */
  ghost predicate Promised(s: State, log: seq<Step>, lost: set<Machine>) {
    OnlyFreeHandedOut(s, log) && RemovalsAccepted(s, log) && NoRecordLost(lost)
  }

  /** At no moment of the run do two live machines hold the same system. */
  ghost predicate AlwaysApart(s: State, log: seq<Step>) {
    forall n: nat :: n <= |log| ==> Apart(Exec(s, log[..n]))
  }

  ghost predicate PassesOk(keys: seq<Key>, passes: seq<Pass>, lost: set<Machine>) {
    && |keys| == |passes|
    && forall p :: 0 <= p < |passes| ==> PassOk(keys[p], passes[p], Lost(passes[p].given), lost)
  }

  /** The own steps of the run are those of the passes. */
  ghost predicate Made(keys: seq<Key>, passes: seq<Pass>, log: seq<Step>, lost: set<Machine>) {
    PassesOk(keys, passes, lost) && Own(MachineController, log, 0) == AllEvents(passes)
  }

  lemma OneMoreOk(keys: seq<Key>, i: nat, passes: seq<Pass>, lost: set<Machine>, pass: Pass, more: set<Machine>)
    requires i < |keys| && PassesOk(keys[..i], passes, lost) && lost <= more
    requires PassOk(keys[i], pass, Lost(pass.given), more)
    ensures PassesOk(keys[..i + 1], passes + [pass], more)
  {
    forall p | 0 <= p < i
      ensures PassOk(keys[p], passes[p], Lost(passes[p].given), more)
    {
      assert keys[..i][p] == keys[p];
      PassOkStays(keys[p], passes[p], Lost(passes[p].given), lost, more);
    }
  }

  lemma OneMorePass(keys: seq<Key>, i: nat, passes: seq<Pass>, log: seq<Step>, lost: set<Machine>,
                    pass: Pass, after: seq<Step>, more: set<Machine>, first: Creator.Given, calls: seq<Call>)
    requires i < |keys| && Made(keys[..i], passes, log, lost) && lost <= more
    requires PassOk(keys[i], pass, Lost(pass.given), more)
    requires Follows(MachineController, log, after, Events(pass) + [EndPass])
    ensures Made(keys[..i + 1], passes + [pass], after, more)
    ensures AllLost(passes + [pass]) == AllLost(passes) + Lost(pass.given)
    ensures AllGiven(first, passes + [pass]) ==
            Creator.Given(AllGiven(first, passes).maas + pass.given.maas,
                AllGiven(first, passes).published + pass.given.published,
                AllGiven(first, passes).heard + pass.given.heard)
    ensures AllCalls(calls, passes + [pass]) == AllCalls(calls, passes) + Calls(pass)
  {
    OneMoreOk(keys, i, passes, lost, pass, more);
    assert (passes + [pass])[..|passes|] == passes;
    FollowsTransitive(MachineController, [], log, after, AllEvents(passes), Events(pass) + [EndPass]);
  }

  lemma Accounts(s: State, log: seq<Step>, lost: set<string>)
    requires Initial(s) && Exec(s, log).maas.held == {} && Exec(s, log).maas.abandoned == lost
    ensures AllAccounted(s, log, lost)
  {
    forall i: nat | Unreleased(s, log, i)
      ensures Lifecycle.Recorded(Exec(s, log), log[i].event.systemId) || log[i].event.systemId in lost
    {
      Accounting.EveryAllocationIsAccounted(s, log, i);
    }
  }

  lemma KeepsApart(s: State, log: seq<Step>, keys: seq<Key>, passes: seq<Pass>, lost: set<Machine>)
    requires Initial(s) && Made(keys, passes, log, lost)
    ensures Promised(s, log, lost) ==> AlwaysApart(s, log)
  {
    if Promised(s, log, lost) {
      PassesGiveBackHeld(keys, passes, lost);
      GivesBackMeansHeld(s, log);
      forall n: nat | n <= |log|
        ensures Apart(Exec(s, log[..n]))
      {
        NoSharedSystem(s, log, n);
      }
    }
  }

  class ReconcileMachine {
    const plane: Plane
    const maas: Client
    const remote: Remote
    const publisher: Publisher
    const clock: Tokens.Clock

    constructor (plane: Plane, maas: Client, remote: Remote, publisher: Publisher, clock: Tokens.Clock)
      requires maas.plane == plane
      ensures this.plane == plane && this.maas == maas && this.remote == remote && this.publisher == publisher
      ensures this.clock == clock
    {
      this.plane, this.maas, this.remote, this.publisher, this.clock := plane, maas, remote, publisher, clock;
    }

    ghost predicate Valid()
      reads this, plane
    {
      maas.plane == plane && plane.Valid()
    }

    /** Writes `m`, derived from `copy`. */
    method Save(m: Machine, ghost copy: Machine) returns (r: Result<Machine, ApiError>, ghost events: seq<Event>)
      requires Valid() && copy in plane.state.past && m.version == copy.version && m.key == copy.key
      requires m != copy ==> Permitted(MachineController, copy, m, plane.state.maas)
      requires m.systemId == copy.systemId
      modifies plane
      ensures plane.calls == old(plane.calls) + [UpdateCall(m, r)]
      ensures Valid() && old(plane.state).past <= plane.state.past && old(plane.lost) <= plane.lost
      ensures Follows(MachineController, old(plane.log), plane.log, events)
      ensures plane.state.maas == old(plane.state).maas
      ensures events == [] || (m != copy && events == [Write(m)])
      ensures r.Ok? && m != copy ==> events == [Write(m)]
      ensures r.Ok? ==> if m.deleting && m.finalizers == [] && m != copy then m.key !in plane.state.machines
                        else m.key in plane.state.machines && plane.state.machines[m.key] == r.value
                             && r.value in plane.state.past && r.value == m.(version := r.value.version)
    {
      ghost var l0 := plane.log;
      Lifecycle.RunKeepsInv(plane.start, plane.log);
      ghost var applied;
      r, applied := plane.Update(MachineController, m, copy);
      if applied {
        OneOwnStep(MachineController, l0, plane.log, Step(MachineController, Write(m)));
        events := [Write(m)];
      } else {
        ForeignIsSilent(MachineController, l0, plane.log);
        events := [];
        Lifecycle.RunKeepsInv(plane.start, plane.log);
      }
    }

    /** Stores phase Deleting. */
    method MarkDeleting(machine: Machine) returns (r: Result<Machine, ApiError>, ghost events: seq<Event>)
      requires Valid() && machine in plane.state.past && machine.deleting && machine.phase != Deleting
      modifies plane
      ensures plane.calls == old(plane.calls) + [UpdateCall(machine.(phase := Deleting), r)]
      ensures Valid() && old(plane.state).past <= plane.state.past && old(plane.lost) <= plane.lost
      ensures Follows(MachineController, old(plane.log), plane.log, events)
      ensures plane.state.maas == old(plane.state).maas
      ensures events == [] || events == [Write(machine.(phase := Deleting))]
      ensures r.Ok? ==> events != [] && r.value in plane.state.past
                        && r.value == machine.(phase := Deleting, version := r.value.version)
    {
      Lifecycle.RunKeepsInv(plane.start, plane.log);
      assert Lifecycle.MachineOk(machine);
      r, events := Save(machine.(phase := Deleting), machine);
    }

    /** The first half of deleteMachine. */
    method ReleaseRecorded(machine: Machine) returns (ghost events: seq<Event>)
      requires Valid() && machine in plane.state.past && machine.phase == Deleting
      modifies plane
      ensures Valid() && old(plane.state).past <= plane.state.past && old(plane.lost) <= plane.lost
      ensures Follows(MachineController, old(plane.log), plane.log, events)
      ensures ReleaseTrace(machine, events)
      ensures plane.calls == old(plane.calls) + if machine.systemId == "" then [] else [ReleaseCall(machine.systemId)]
      ensures plane.state.maas.held == old(plane.state).maas.held - {machine.systemId}
      ensures plane.state.maas.abandoned == old(plane.state).maas.abandoned
      ensures machine.systemId != "" ==>
                machine.systemId !in plane.state.maas.open && machine.uid in plane.state.maas.releasedFor
    {
      if machine.systemId == "" {
        ForeignIsSilent(MachineController, plane.log, plane.log);
        Lifecycle.RunKeepsInv(plane.start, plane.log);
        return [];
      }
      var released;
      released, events := maas.Delete(machine.systemId, Some(machine.uid));
      // Delete fails only without a system id.
      assert released.Ok?;
    }

    /** Requests the release of the recorded system, then removes the finalizer.
        On success the object is gone unless some other finalizer holds it. */
    method DeleteMachine(machine: Machine)
        returns (err: Option<PassError>, ghost events: seq<Event>, ghost calls: seq<Call>)
      requires Valid() && machine in plane.state.past && machine.phase == Deleting
      modifies plane
      ensures Valid() && old(plane.state).past <= plane.state.past && old(plane.lost) <= plane.lost
      ensures Follows(MachineController, old(plane.log), plane.log, events)
      ensures plane.calls == old(plane.calls) + calls
      ensures DeleteTrace(machine, events) && DeleteCalls(machine, err, calls, events)
      ensures err.None? ==> Retired(machine, plane.state)
      ensures plane.state.maas.held == old(plane.state).maas.held - {machine.systemId}
      ensures plane.state.maas.abandoned == old(plane.state).maas.abandoned
      ensures machine.systemId != "" ==> machine.systemId !in plane.state.maas.open
    {
      ghost var l0 := plane.log;
      Lifecycle.RunKeepsInv(plane.start, plane.log);
      assert Lifecycle.MachineOk(machine);
      var e1 := ReleaseRecorded(machine);
      ghost var l1 := plane.log;
      var finalizers := Util.RemoveString(machine.finalizers, MACHINE_FINALIZER);
      var m := machine.(finalizers := finalizers);
      var r, e2 := Save(m, machine);
      FollowsTransitive(MachineController, l0, l1, plane.log, e1, e2);
      events := e1 + e2;
      calls := (if machine.systemId == "" then [] else [ReleaseCall(machine.systemId)]) + [UpdateCall(m, r)];
      ReleaseThenRemoval(machine, e1, e2);
      if r.Err? {
        err := Some(FromApi(r.error));
      } else {
        err := None;
        SavedMeansRetired(machine, m, plane.state);
      }
    }

    lemma SavedMeansRetired(machine: Machine, m: Machine, s: State)
      requires Lifecycle.MachineOk(machine) && machine.phase == Deleting
      requires m == machine.(finalizers := Util.Without(machine.finalizers, MACHINE_FINALIZER))
      requires if m.finalizers == [] && m != machine then m.key !in s.machines
               else m.key in s.machines && s.machines[m.key].finalizers == m.finalizers
      ensures Retired(machine, s)
    {
      if m.finalizers != [] {
        assert m.finalizers[0] in m.finalizers;
      }
    }

    /** handleDelete. Draining the node is a step that succeeds or fails. */
    method HandleDelete(machine: Machine)
      returns (err: Option<PassError>, ghost events: seq<Event>, ghost calls: seq<Call>, ghost heard: seq<Answer>)
      requires Valid() && machine in plane.state.past && machine.phase == Deleting && plane.state.maas.held == {}
      modifies plane, remote
      ensures Valid() && old(plane.state).past <= plane.state.past && old(plane.lost) <= plane.lost
      ensures Follows(MachineController, old(plane.log), plane.log, events)
      ensures plane.calls == old(plane.calls) + calls && remote.answers == old(remote.answers) + heard
      ensures DeleteHandled(machine, err, heard, calls, events)
      ensures err.None? ==> Retired(machine, plane.state)
      ensures err.Some? ==> !err.value.NeedsRelease? && err.value != Unrecoverable
      ensures plane.state.maas.held == {} && plane.state.maas.abandoned == old(plane.state).maas.abandoned
    {
      ForeignIsSilent(MachineController, plane.log, plane.log);
      var stop;
      stop, heard := MayRelease(machine);
      if stop.Some? {
        return stop, [], [], heard;
      }
      err, events, calls := DeleteMachine(machine);
    }

    /** The part of handleDelete before the machine may be released. */
    method MayRelease(machine: Machine) returns (stop: Option<PassError>, ghost heard: seq<Answer>)
      modifies remote
      ensures remote.answers == old(remote.answers) + heard
      ensures DeleteDecision(machine, heard, stop) && (stop.Some? ==> !DeleteDecision(machine, heard, None))
      ensures stop.Some? ==> !stop.value.NeedsRelease? && stop.value != Unrecoverable
    {
      var clusters := remote.ListClusters(machine.key.ns);
      heard := [ClustersListed(machine.key.ns, clusters)];
      if clusters.Err? {
        return Some(FromApi(clusters.error)), heard;
      }
      if |clusters.value| == 0 {
        return None, heard;
      } else if |clusters.value| > 1 {
        return Some(Other), heard;
      }
      var cluster := clusters.value[0];
      if machine.systemId == "" || cluster.deleting {
        return None, heard;
      }
      ghost var more;
      stop, more := LeaveCluster(machine);
      heard := heard + more;
      assert heard[1..] == more;
    }

    /** Takes the node of the machine out of its cluster, if it can be reached. */
    method LeaveCluster(machine: Machine) returns (stop: Option<PassError>, ghost heard: seq<Answer>)
      modifies remote
      ensures remote.answers == old(remote.answers) + heard
      ensures SecretDecision(machine, heard, stop) && (stop.Some? ==> !SecretDecision(machine, heard, None))
      ensures stop.Some? ==> !stop.value.NeedsRelease? && stop.value != Unrecoverable
    {
      var secret := remote.GetSecret(machine.key.ns);
      heard := [SecretRead(machine.key.ns, secret)];
      if secret == Err(NotFound) {
        return None, heard;
      } else if secret.Err? {
        return Some(FromApi(secret.error)), heard;
      }
      if CertBundle.KUBECONFIG_KEY !in secret.value || secret.value[CertBundle.KUBECONFIG_KEY] == [] {
        return Some(NotReady), heard;
      }
      ghost var more;
      stop, more := LeaveNode(machine, secret.value[CertBundle.KUBECONFIG_KEY]);
      heard := heard + more;
      assert heard[1..] == more;
    }

    method LeaveNode(machine: Machine, config: CertBundle.Bytes)
        returns (stop: Option<PassError>, ghost heard: seq<Answer>)
      modifies remote
      ensures remote.answers == old(remote.answers) + heard
      ensures NodeDecision(machine, config, heard, stop) && (stop.Some? ==> !NodeDecision(machine, config, heard, None))
      ensures stop.Some? ==> !stop.value.NeedsRelease? && stop.value != Unrecoverable
    {
      var built := remote.BuildClient(config);
      heard := [ClientBuilt(config, built)];
      if !built {
        return Some(Other), heard;
      }
      var node := remote.ReadNode(machine.key.name);
      heard := heard + [NodeRead(machine.key.name, node)];
      if node == Err(NotFound) {
        return None, heard;
      } else if node.Err? {
        return Some(FromApi(node.error)), heard;
      }
      var drained := remote.DrainNode(machine.key.name);
      ghost var more := [NodeDrained(machine.key.name, drained)];
      if drained.Err? {
        heard := heard + more;
        assert heard[2..] == more;
        return Some(FromApi(drained.error)), heard;
      }
      var removed := remote.RemoveNode(machine.key.name);
      more := more + [NodeRemoved(machine.key.name, removed)];
      heard := heard + more;
      assert heard[2..] == more;
      return if removed.Err? && removed.error != NotFound then Some(FromApi(removed.error)) else None, heard;
    }

    /** handleWaitingForReady: the machine becomes Ready once its node reports a
        ready kubelet, and is deleted if the cluster secret is gone. */
    method HandleWaitingForReady(machine: Machine)
      returns (err: Option<PassError>, ghost events: seq<Event>, ghost calls: seq<Call>, ghost heard: seq<Answer>)
      requires Valid() && machine in plane.state.past && machine.phase == Creating
      modifies plane, remote
      ensures Valid() && old(plane.state).past <= plane.state.past && old(plane.lost) <= plane.lost
      ensures Follows(MachineController, old(plane.log), plane.log, events)
      ensures plane.calls == old(plane.calls) + calls && remote.answers == old(remote.answers) + heard
      ensures WaitTrace(machine, err, heard, calls, events)
      ensures err.Some? ==> !err.value.NeedsRelease? && err.value != Unrecoverable
      ensures plane.state.maas == old(plane.state).maas
    {
      ForeignIsSilent(MachineController, plane.log, plane.log);
      var data: map<string, CertBundle.Bytes> := map[];
      var secret := remote.GetSecret(machine.key.ns);
      heard, events, calls := [SecretRead(machine.key.ns, secret)], [], [];
      if secret == Err(NotFound) {
        var deleted;
        deleted, events := DeleteObject(machine.key);
        calls := [DeleteCall(machine.key, deleted)];
        if deleted == Err(NotFound) {
          return None, events, calls, heard;
        } else if deleted.Err? {
          return Some(FromApi(deleted.error)), events, calls, heard;
        }
      } else if secret.Err? {
        return Some(FromApi(secret.error)), events, calls, heard;
      } else {
        data := secret.value;
      }
      if CertBundle.KUBECONFIG_KEY !in data || data[CertBundle.KUBECONFIG_KEY] == [] {
        return Some(NotReady), events, calls, heard;
      }
      ghost var more;
      err, events, calls, more := CheckNode(machine, data[CertBundle.KUBECONFIG_KEY]);
      heard := heard + more;
      assert heard[1..] == more;
    }

    method DeleteObject(k: Key) returns (r: Result<(), ApiError>, ghost events: seq<Event>)
      requires Valid()
      modifies plane
      ensures Valid() && old(plane.state).past <= plane.state.past && plane.lost == old(plane.lost)
      ensures Follows(MachineController, old(plane.log), plane.log, events)
      ensures plane.calls == old(plane.calls) + [DeleteCall(k, r)]
      ensures events == [] || events == [World.Delete(k)]
      ensures r == Err(NotFound) ==> events == []
      ensures plane.state.maas == old(plane.state).maas
    {
      ghost var l0, applied := plane.log, false;
      r, applied := plane.Delete(MachineController, k);
      if applied {
        OneOwnStep(MachineController, l0, plane.log, Step(MachineController, World.Delete(k)));
        events := [World.Delete(k)];
      } else {
        ForeignIsSilent(MachineController, l0, plane.log);
        events := [];
      }
    }

    /** Looks for a ready kubelet on the node of the machine. */
    method CheckNode(machine: Machine, config: CertBundle.Bytes)
      returns (err: Option<PassError>, ghost events: seq<Event>, ghost calls: seq<Call>, ghost heard: seq<Answer>)
      requires Valid() && machine in plane.state.past && machine.phase == Creating
      modifies plane, remote
      ensures Valid() && old(plane.state).past <= plane.state.past && old(plane.lost) <= plane.lost
      ensures Follows(MachineController, old(plane.log), plane.log, events)
      ensures plane.calls == old(plane.calls) + calls && remote.answers == old(remote.answers) + heard
      ensures NodeTrace(machine, config, err, heard, calls, events)
      ensures err.Some? ==> !err.value.NeedsRelease? && err.value != Unrecoverable
      ensures plane.state.maas == old(plane.state).maas
    {
      ForeignIsSilent(MachineController, plane.log, plane.log);
      events, calls := [], [];
      var built := remote.BuildClient(config);
      heard := [ClientBuilt(config, built)];
      if !built {
        return Some(Other), events, calls, heard;
      }
      var node := remote.ReadNode(machine.key.name);
      heard := heard + [NodeRead(machine.key.name, node)];
      if node.Err? {
        return Some(FromApi(node.error)), events, calls, heard;
      }
      var conditions := node.value;
      for i := 0 to |conditions|
        invariant forall j :: 0 <= j < i ==> !(conditions[j].reason == "KubeletReady" && conditions[j].status == "True")
      {
        if conditions[i].reason == "KubeletReady" && conditions[i].status == "True" {
          var r;
          r, events := Save(machine.(phase := Ready), machine);
          calls := [UpdateCall(machine.(phase := Ready), r)];
          return if r.Ok? then None else Some(FromApi(r.error)), events, calls, heard;
        }
      }
      return Some(NotReady), events, calls, heard;
    }

    /** The answers since the old ones, other than to calls to the API server's
        machines, are exactly these. */
    twostate predicate Gave(given: Creator.Given)
      reads maas, remote, publisher
    {
      && maas.answers == old(maas.answers) + given.maas
      && publisher.answers == old(publisher.answers) + given.published
      && remote.answers == old(remote.answers) + given.heard
    }

    /** The switch over the phase. */
    method Dispatch(machine: Machine)
      returns (err: Option<PassError>, ghost events: seq<Event>, ghost calls: seq<Call>, ghost given: Creator.Given)
      requires Valid() && machine in plane.state.past && plane.state.maas.held == {}
      modifies maas`answers, remote, publisher, plane, clock
      ensures Valid() && old(plane.state).past <= plane.state.past && old(plane.lost) <= plane.lost
      ensures Follows(MachineController, old(plane.log), plane.log, events)
      ensures plane.calls == old(plane.calls) + calls
      ensures PhaseTrace(machine, err, calls, events, given, plane.state.maas.held, plane.lost) && Gave(given)
      ensures plane.state.maas.abandoned == old(plane.state).maas.abandoned
    {
      given := Creator.NOTHING_GIVEN;
      match machine.phase
      case Creating =>
        ghost var heard;
        err, events, calls, heard := HandleWaitingForReady(machine);
        given := Creator.Given([], [], heard);
      case Deleting =>
        ghost var heard;
        err, events, calls, heard := HandleDelete(machine);
        given := Creator.Given([], [], heard);
      case Unset =>
        var c;
        c, events, calls, given := Creator.Create(plane, maas, remote, publisher, clock, machine);
        err := c.err;
      case _ =>
        ForeignIsSilent(MachineController, plane.log, plane.log);
        err, events, calls := None, [], [];
    }

    /** The reaction to an error: give back a system that could not be recorded,
        mark a machine that cannot be created, or try again. */
    method HandleError(e: PassError, machine: Machine)
        returns (outcome: Outcome, ghost events: seq<Event>, ghost calls: seq<Call>)
      requires Valid() && machine in plane.state.past
      requires e == Unrecoverable ==> machine.phase == Unset
      requires e.NeedsRelease? ==> e.systemId != ""
      modifies plane
      ensures Valid() && old(plane.state).past <= plane.state.past && old(plane.lost) <= plane.lost
      ensures Follows(MachineController, old(plane.log), plane.log, events)
      ensures plane.calls == old(plane.calls) + calls
      ensures ErrorTrace(machine, e, calls, events, outcome)
      ensures plane.state.maas.held == old(plane.state).maas.held - if e.NeedsRelease? then {e.systemId} else {}
      ensures plane.state.maas.abandoned == old(plane.state).maas.abandoned
    {
      ForeignIsSilent(MachineController, plane.log, plane.log);
      match e
      case Api(NotFound) =>
        return RequeueSoon, [], [];
      case NotReady =>
        return RequeueSoon, [], [];
      case NeedsRelease(x) =>
        var _, released := maas.Delete(x, None);
        return Failing(e), released, [ReleaseCall(x)];
      case Unrecoverable =>
        var r;
        r, events := Save(machine.(phase := Failed), machine);
        return if r.Ok? then Done else Failing(e), events, [UpdateCall(machine.(phase := Failed), r)];
      case _ =>
        return Failing(e), [], [];
    }

    lemma ReleaseNamesSystem(m: Machine, err: Option<PassError>, calls: seq<Call>, events: seq<Event>,
                             given: Creator.Given, held: set<string>, lost: set<Machine>)
      requires PhaseTrace(m, err, calls, events, given, held, lost)
      ensures err.Some? && err.value.NeedsRelease? ==> err.value.systemId != ""
      ensures err == Some(Unrecoverable) ==> m.phase == Unset
    {
      if err.Some? && err.value.NeedsRelease? {
        Creator.ReleaseIsOfAllocated(m, err, given, calls, events, held, lost);
      }
    }

    /** The handler of the phase and the reaction to its error. */
    method Handle(machine: Machine)
      returns (outcome: Outcome, err: Option<PassError>, ghost handled: seq<Event>, ghost cleanup: seq<Event>,
               ghost made: seq<Call>, ghost closing: seq<Call>, ghost given: Creator.Given, ghost kept: set<string>)
      requires Valid() && machine in plane.state.past && plane.state.maas.held == {}
      modifies maas`answers, remote, publisher, plane, clock
      ensures Valid() && old(plane.state).past <= plane.state.past && old(plane.lost) <= plane.lost
      ensures Follows(MachineController, old(plane.log), plane.log, handled + cleanup)
      ensures plane.calls == old(plane.calls) + made + closing
      ensures PhaseTrace(machine, err, made, handled, given, kept, plane.lost) && Gave(given)
      ensures Reacted(machine, err, closing, cleanup, outcome, kept, plane.state.maas.held)
      ensures plane.state.maas.abandoned == old(plane.state).maas.abandoned
    {
      ghost var l0 := plane.log;
      err, handled, made, given := Dispatch(machine);
      ghost var l1, lost := plane.log, plane.lost;
      kept := plane.state.maas.held;
      cleanup, closing := [], [];
      outcome := Done;
      ReleaseNamesSystem(machine, err, made, handled, given, kept, lost);
      if err.Some? {
        outcome, cleanup, closing := HandleError(err.value, machine);
        FollowsTransitive(MachineController, l0, l1, plane.log, handled, cleanup);
        LostGrows(machine, err, made, handled, given, kept, lost, plane.lost);
      }
      assert err.None? ==> handled + cleanup == handled;
    }

    /** One pass. The machine read may be an old version; a machine in deletion
        is first stored in phase Deleting. */
    method Reconcile(k: Key) returns (outcome: Outcome, ghost pass: Pass)
      requires Valid() && plane.state.maas.held == {}
      modifies maas`answers, remote, publisher, plane, clock
      ensures Valid() && old(plane.state).past <= plane.state.past && old(plane.lost) <= plane.lost
      ensures Follows(MachineController, old(plane.log), plane.log, Events(pass))
      ensures plane.calls == old(plane.calls) + Calls(pass)
      ensures PassOk(k, pass, plane.state.maas.held, plane.lost) && pass.outcome == outcome && Gave(pass.given)
      ensures plane.state.maas.abandoned == old(plane.state).maas.abandoned
    {
      ghost var l0, c0 := plane.log, plane.calls;
      var machine, read, opening, marked := Open(k);
      if machine.Err? {
        outcome := machine.error;
        pass := NOTHING_DONE.(read := read, opening := opening, marked := marked, outcome := outcome);
        return;
      }
      ghost var l1 := plane.log;
      outcome, pass := HandleOpened(k, machine.value, read, opening, marked);
      FollowsTransitive(MachineController, l0, l1, plane.log, marked, pass.handled + pass.cleanup);
      InOrder([], marked, pass.handled, pass.cleanup);
      InOrder(c0, opening, pass.made, pass.closing);
    }

    lemma InOrder<T>(a: seq<T>, b: seq<T>, c: seq<T>, d: seq<T>)
      ensures a + b + c + d == a + (b + c + d)
      ensures b + (c + d) == b + c + d
    {
    }

    /** The pass from the switch over the phase on. */
    method HandleOpened(k: Key, machine: Machine, ghost read: Option<Machine>, ghost opening: seq<Call>,
                        ghost marked: seq<Event>)
      returns (outcome: Outcome, ghost pass: Pass)
      requires Valid() && machine in plane.state.past && plane.state.maas.held == {}
      requires read.Some? && read.value.key == k && MarkedFirst(read.value, machine, opening, marked)
      modifies maas`answers, remote, publisher, plane, clock
      ensures Valid() && old(plane.state).past <= plane.state.past && old(plane.lost) <= plane.lost
      ensures Follows(MachineController, old(plane.log), plane.log, pass.handled + pass.cleanup)
      ensures plane.calls == old(plane.calls) + pass.made + pass.closing
      ensures pass.opening == opening && pass.marked == marked
      ensures PassOk(k, pass, plane.state.maas.held, plane.lost) && pass.outcome == outcome && Gave(pass.given)
      ensures plane.state.maas.abandoned == old(plane.state).maas.abandoned
    {
      var done, err, handled, cleanup, made, closing, given, kept := Handle(machine);
      outcome := done;
      pass := Pass(read, Some(machine), marked, handled, cleanup, opening, made, closing, err, outcome, given, kept);
      PassFromParts(k, pass, plane.state.maas.held, plane.lost);
    }

    /** Reads the machine, and stores phase Deleting if a deletion has begun. */
    method Open(k: Key)
      returns (machine: Result<Machine, Outcome>, ghost read: Option<Machine>, ghost opening: seq<Call>,
               ghost marked: seq<Event>)
      requires Valid()
      modifies plane
      ensures Valid() && old(plane.state).past <= plane.state.past && old(plane.lost) <= plane.lost
      ensures Follows(MachineController, old(plane.log), plane.log, marked)
      ensures plane.calls == old(plane.calls) + opening && plane.state.maas == old(plane.state).maas
      ensures match machine
              case Err(outcome) =>
                EndedEarly(k, NOTHING_DONE.(read := read, opening := opening, marked := marked, outcome := outcome))
              case Ok(m) =>
                && m in plane.state.past && read.Some? && read.value.key == k
                && MarkedFirst(read.value, m, opening, marked)
    {
      ghost var l0 := plane.log;
      var got := plane.Get(MachineController, k);
      ghost var l1 := plane.log;
      ForeignIsSilent(MachineController, l0, l1);
      read, opening, marked := None, [GetCall(k, got)], [];
      if got.Err? {
        return Err(if got.error == NotFound then Done else Failing(FromApi(got.error))), read, opening, marked;
      }
      machine, read := Ok(got.value), Some(got.value);
      if got.value.deleting && got.value.phase != Deleting {
        var r;
        r, marked := MarkDeleting(got.value);
        FollowsTransitive(MachineController, l0, l1, plane.log, [], marked);
        assert [] + marked == marked;
        opening := [GetCall(k, got), UpdateCall(got.value.(phase := Deleting), r)];
        machine := if r.Ok? then Ok(r.value) else Err(Failing(FromApi(r.error)));
      }
    }

    method ReconcileAndTell(k: Key) returns (outcome: Outcome, ghost pass: Pass)
      requires Valid() && plane.state.maas.held == {}
      modifies maas`answers, remote, publisher, plane, clock
      ensures Valid() && old(plane.state).past <= plane.state.past && old(plane.lost) <= plane.lost
      ensures Follows(MachineController, old(plane.log), plane.log, Events(pass))
      ensures plane.calls == old(plane.calls) + Calls(pass)
      ensures PassOk(k, pass, Lost(pass.given), plane.lost) && pass.outcome == outcome && Gave(pass.given)
      ensures plane.state.maas.held == Lost(pass.given)
      ensures LosesSystem(pass.given) ==>
                pass.worked.Some? && pass.worked.value.phase == Unset && ROLE_MASTER in pass.worked.value.roles
      ensures plane.state.maas.abandoned == old(plane.state).maas.abandoned
    {
      outcome, pass := Reconcile(k);
      LeftOver(k, pass, plane.state.maas.held, plane.lost);
    }

    /** A pass, after which its local variables are gone: its steps are those of
        Reconcile, and what it loses is told by the answers it was given. */
    method RunPass(k: Key) returns (outcome: Outcome, ghost pass: Pass)
      requires Valid() && plane.state.maas.held == {}
      modifies maas`answers, remote, publisher, plane, clock
      ensures Valid() && plane.state.maas.held == {}
      ensures old(plane.state).past <= plane.state.past && old(plane.lost) <= plane.lost
      ensures Follows(MachineController, old(plane.log), plane.log, Events(pass) + [EndPass])
      ensures plane.calls == old(plane.calls) + Calls(pass)
      ensures PassOk(k, pass, Lost(pass.given), plane.lost) && pass.outcome == outcome && Gave(pass.given)
      ensures LosesSystem(pass.given) ==>
                pass.worked.Some? && pass.worked.value.phase == Unset && ROLE_MASTER in pass.worked.value.roles
      ensures plane.state.maas.abandoned == old(plane.state).maas.abandoned + Lost(pass.given)
    {
      ghost var l0 := plane.log;
      outcome, pass := ReconcileAndTell(k);
      ghost var l1 := plane.log;
      plane.FinishPass();
      OneOwnStep(MachineController, l1, plane.log, Step(MachineController, EndPass));
      FollowsTransitive(MachineController, l0, l1, plane.log, Events(pass), [EndPass]);
    }

    /** The passes made so far, over a run that began empty; before it the calls and
        answers were the first ones. */
    ghost predicate Ran(keys: seq<Key>, passes: seq<Pass>, calls: seq<Call>, first: Creator.Given)
      reads this, plane, maas, remote, publisher
    {
      && Valid() && plane.state.maas.held == {} && plane.state.maas.abandoned == AllLost(passes)
      && Made(keys, passes, plane.log, plane.lost)
      && Creator.Given(maas.answers, publisher.answers, remote.answers) == AllGiven(first, passes)
      && plane.calls == AllCalls(calls, passes)
    }

    /** One pass more. */
    method NextPass(keys: seq<Key>, i: nat, ghost passes: seq<Pass>, ghost calls: seq<Call>,
                    ghost first: Creator.Given)
      returns (ghost more: seq<Pass>)
      requires i < |keys| && Ran(keys[..i], passes, calls, first)
      modifies maas`answers, remote, publisher, plane, clock
      ensures Ran(keys[..i + 1], more, calls, first)
    {
      ghost var l, lost := plane.log, plane.lost;
      var outcome, pass := RunPass(keys[i]);
      OneMorePass(keys, i, passes, l, lost, pass, plane.log, plane.lost, first, calls);
      more := passes + [pass];
    }

    /** Any number of passes, for any machines, with everybody else running in
        between.

        Accounting: every system that was handed out and not released later is
        recorded in a stored machine that carries the finalizer, or it is one of those
        lost by a pass that could not publish a kubeconfig.

        No sharing: if MAAS hands out only free systems, the update after each
        release for a deletion is accepted and removes the object, and no reply to
        a recording update is lost, then at every moment of the run no two
        machines in phase Creating or Ready hold the same system. */
    method RunPasses(keys: seq<Key>) returns (ghost passes: seq<Pass>)
      requires Valid() && plane.log == [] && plane.state.maas.held == {}
      modifies maas`answers, remote, publisher, plane, clock
      ensures Ran(keys, passes, old(plane.calls),
                  Creator.Given(old(maas.answers), old(publisher.answers), old(remote.answers)))
      ensures |AllLost(passes)| <= Failures(passes)
      ensures AllAccounted(plane.start, plane.log, AllLost(passes))
      ensures Promised(plane.start, plane.log, plane.lost) ==> AlwaysApart(plane.start, plane.log)
    {
      ghost var calls, first := plane.calls, Creator.Given(maas.answers, publisher.answers, remote.answers);
      passes := [];
      for i := 0 to |keys|
        invariant Ran(keys[..i], passes, calls, first)
      {
        passes := NextPass(keys, i, passes, calls, first);
      }
      assert keys[..|keys|] == keys;
      LostAtMost(passes);
      Accounts(plane.start, plane.log, AllLost(passes));
      KeepsApart(plane.start, plane.log, keys, passes, plane.lost);
    }
  }
}
