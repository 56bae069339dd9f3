/** What the machine-set controller asks, and what it makes of the answers
    (pkg/controller/machineset/machineset_controller.go and status.go). */
module SetCalls {
  import opened Objects
  import opened World
  import opened ControlPlane
  import opened MachineSets
  import DeletePolicy

  const FOREGROUND_DELETION := "foregroundDeletion"

  /** `Hangs` is no error of the code: the call does not return. */
  datatype SyncError = CreateFailed(count: nat) | DeleteFailed(error: ApiError) | NotConfirmed | Hangs

  datatype SetError = ListFailed | Invalid | NoCluster | UpdateFailed | SyncFailed(error: SyncError) | StatusFailed

  datatype SetOutcome = Done | RequeueNow | Failing(error: SetError) | Hung

  // ---- Calls about clusters and sets --------------------------------------------------

  datatype SetAnswer =
    | ClustersListed(ns: string, names: Result<seq<string>, ApiError>)
    | ClusterRead(key: Key, found: Result<(), ApiError>)
    | SetUpdated(ms: MachineSet, updated: Result<(), ApiError>)
    | SetRead(key: Key, read: Result<MachineSet, ApiError>)
    | StatusStored(ms: MachineSet, stored: Result<(), ApiError>)

  /** All of them so far, oldest first. Any answer is possible. */
  class Store {
    var answers: seq<SetAnswer>

    constructor ()
      ensures answers == []
    {
      answers := [];
    }

    method ListClusters(ns: string) returns (r: Result<seq<string>, ApiError>)
      modifies this
      ensures answers == old(answers) + [ClustersListed(ns, r)]
    {
      r := *;
      answers := answers + [ClustersListed(ns, r)];
    }

    method GetCluster(k: Key) returns (r: Result<(), ApiError>)
      modifies this
      ensures answers == old(answers) + [ClusterRead(k, r)]
    {
      r := *;
      answers := answers + [ClusterRead(k, r)];
    }

    method UpdateSet(ms: MachineSet) returns (r: Result<(), ApiError>)
      modifies this
      ensures answers == old(answers) + [SetUpdated(ms, r)]
    {
      r := *;
      answers := answers + [SetUpdated(ms, r)];
    }

    /** The set as it is now. */
    method GetSet(k: Key) returns (r: Result<MachineSet, ApiError>)
      modifies this
      ensures answers == old(answers) + [SetRead(k, r)]
      ensures r.Ok? ==> r.value.key == k
    {
      r := *;
      if r.Ok? {
        r := Ok(r.value.(key := k));
      }
      answers := answers + [SetRead(k, r)];
    }

    method StoreStatus(ms: MachineSet) returns (r: Result<(), ApiError>)
      modifies this
      ensures answers == old(answers) + [StatusStored(ms, r)]
    {
      r := *;
      answers := answers + [StatusStored(ms, r)];
    }
  }

  // ---- Filtering and adopting ---------------------------------------------------------

  /** The update that makes the set the controller of the machine. */
  predicate Adoption(ms: MachineSet, o: Machine, call: Call) {
    call.UpdateCall? && call.m == o.(owners := o.owners + [ControllerRef(ms)])
  }

  /** What became of one listed machine. */
  datatype Filtering = Filtering(made: Option<Call>, kept: Option<Machine>)

  /** One excluded is left out, one the set controls is kept, and an orphan is
      adopted by one update and kept, as it was then stored, exactly if the update
      was accepted. */
  ghost predicate Filters(ms: MachineSet, m: Machine, f: Filtering) {
    if ShouldExclude(ms, m) then f == Filtering(None, None)
    else if Controllers(m.owners) != [] then f == Filtering(None, Some(m))
    else
      && f.made.Some? && Adoption(ms, m, f.made.value)
      && f.kept == if f.made.value.updated.Ok? then Some(f.made.value.updated.value) else None
  }

  function CallsOf(steps: seq<Filtering>): seq<Call> {
    if steps == [] then []
    else
      CallsOf(steps[..|steps| - 1]) +
      if steps[|steps| - 1].made.Some? then [steps[|steps| - 1].made.value] else []
  }

  function KeptOf(steps: seq<Filtering>): seq<Machine> {
    if steps == [] then []
    else
      KeptOf(steps[..|steps| - 1]) +
      if steps[|steps| - 1].kept.Some? then [steps[|steps| - 1].kept.value] else []
  }

  /** filterMachines, machine after machine. */
  ghost predicate FilterTrace(ms: MachineSet, all: seq<Machine>, steps: seq<Filtering>) {
    |steps| == |all| && forall i :: 0 <= i < |all| ==> Filters(ms, all[i], steps[i])
  }

  lemma OneFiltered(ms: MachineSet, all: seq<Machine>, i: nat, steps: seq<Filtering>, f: Filtering)
    requires i < |all| && FilterTrace(ms, all[..i], steps) && Filters(ms, all[i], f)
    ensures FilterTrace(ms, all[..i + 1], steps + [f])
    ensures CallsOf(steps + [f]) == CallsOf(steps) + if f.made.Some? then [f.made.value] else []
    ensures KeptOf(steps + [f]) == KeptOf(steps) + if f.kept.Some? then [f.kept.value] else []
  {
    assert (steps + [f])[..|steps|] == steps;
    forall j | 0 <= j < i + 1
      ensures Filters(ms, all[..i + 1][j], (steps + [f])[j])
    {
      if j < i {
        assert all[..i][j] == all[j];
      }
    }
  }

  /** No update was refused. */
  predicate AllAccepted(calls: seq<Call>) {
    forall i :: 0 <= i < |calls| ==> calls[i].UpdateCall? && calls[i].updated.Ok?
  }

  lemma {:induction false} StepOfCalls(steps: seq<Filtering>, i: nat)
    requires i < |steps|
    ensures steps[i].made.Some? ==> steps[i].made.value in CallsOf(steps)
    ensures steps[i].kept.Some? ==> steps[i].kept.value in KeptOf(steps)
  {
    if i < |steps| - 1 {
      StepOfCalls(steps[..|steps| - 1], i);
    }
  }

  /** If no update is refused, every listed machine that is not excluded is kept,
      and every orphan among them was adopted. */
  lemma EveryOrphanIsKept(ms: MachineSet, all: seq<Machine>, steps: seq<Filtering>, o: Machine)
    requires FilterTrace(ms, all, steps) && AllAccepted(CallsOf(steps)) && o in all && !ShouldExclude(ms, o)
    ensures exists m :: m in KeptOf(steps) && if Controllers(o.owners) != [] then m == o
                                             else UpdateCall(o.(owners := o.owners + [ControllerRef(ms)]), Ok(m))
                                                  in CallsOf(steps)
  {
    var i :| 0 <= i < |all| && all[i] == o;
    assert Filters(ms, all[i], steps[i]);
    StepOfCalls(steps, i);
    assert steps[i].made.Some? ==> steps[i].made.value.updated.Ok?;
    assert steps[i].kept.Some?;
    assert steps[i].kept.value in KeptOf(steps);
  }

  /** The listed machines that are not excluded. */
  function Wanted(ms: MachineSet, all: seq<Machine>): seq<Machine> {
    if all == [] then []
    else Wanted(ms, all[..|all| - 1]) + if ShouldExclude(ms, all[|all| - 1]) then [] else [all[|all| - 1]]
  }

  /** So they are as many as the sync then counts. */
  lemma {:induction false} AllWantedAreCounted(ms: MachineSet, all: seq<Machine>, steps: seq<Filtering>)
    requires FilterTrace(ms, all, steps) && AllAccepted(CallsOf(steps))
    ensures |KeptOf(steps)| == |Wanted(ms, all)|
  {
    if all != [] {
      var front, last := steps[..|steps| - 1], steps[|steps| - 1];
      assert steps == front + [last];
      assert forall j :: 0 <= j < |CallsOf(front)| ==> CallsOf(steps)[j] == CallsOf(front)[j];
      assert last.made.Some? ==> CallsOf(steps)[|CallsOf(front)|] == last.made.value;
      assert Filters(ms, all[|all| - 1], last);
      AllWantedAreCounted(ms, all[..|all| - 1], front);
    }
  }

  // ---- Waiting for the cache ------------------------------------------------------------

  /** The machine was looked for until it was found, or an error came, or time
      was up. */
  ghost predicate CreationPoll(k: Key, looks: seq<Call>, ok: bool) {
    && looks != [] && (forall i :: 0 <= i < |looks| ==> looks[i].GetCall? && looks[i].k == k)
    && (forall i :: 0 <= i < |looks| - 1 ==> looks[i].GetCall? && looks[i].got == Err(NotFound))
    && ok == (looks[|looks| - 1].GetCall? && looks[|looks| - 1].got.Ok?)
  }

  predicate Left(r: Result<Machine, ApiError>) {
    match r case Ok(m) => m.deleting case Err(e) => e == NotFound
  }

  /** The machine was looked at until it was gone or marked, or an error came, or
      time was up. */
  ghost predicate DeletionPoll(k: Key, looks: seq<Call>, ok: bool) {
    && looks != [] && (forall i :: 0 <= i < |looks| ==> looks[i].GetCall? && looks[i].k == k)
    && (forall i :: 0 <= i < |looks| - 1 ==> looks[i].GetCall? && looks[i].got.Ok? && !looks[i].got.value.deleting)
    && ok == (looks[|looks| - 1].GetCall? && Left(looks[|looks| - 1].got))
  }

  /** The first calls, and then those of the polls, one poll after the other. */
  function Flat(first: seq<Call>, polls: seq<seq<Call>>): seq<Call> {
    if polls == [] then first else Flat(first, polls[..|polls| - 1]) + polls[|polls| - 1]
  }

  lemma FlatSnoc(first: seq<Call>, polls: seq<seq<Call>>, last: seq<Call>)
    ensures Flat(first, polls + [last]) == Flat(first, polls) + last
  {
    assert (polls + [last])[..|polls|] == polls;
  }

  /** The machines were waited for one after the other, up to the first that did
      not show what was waited for. */
  ghost predicate WaitedCreation(list: seq<Machine>, polls: seq<seq<Call>>, ok: bool) {
    && |polls| <= |list|
    && (forall i :: 0 <= i < |polls| ==> CreationPoll(list[i].key, polls[i], ok || i < |polls| - 1))
    && if ok then |polls| == |list| else polls != []
  }

  ghost predicate WaitedDeletion(list: seq<Machine>, polls: seq<seq<Call>>, ok: bool) {
    && |polls| <= |list|
    && (forall i :: 0 <= i < |polls| ==> DeletionPoll(list[i].key, polls[i], ok || i < |polls| - 1))
    && if ok then |polls| == |list| else polls != []
  }

  // ---- Creating -------------------------------------------------------------------------

  /** The request for one machine made from the set's template. */
  predicate Creation(ms: MachineSet, call: Call) {
    && call.CreateCall? && call.m.key.ns == ms.key.ns
    && call.m.labels == ms.template.labels && call.m.annotations == ms.template.annotations
    && call.m.finalizers == ms.template.finalizers && call.m.roles == ms.template.roles
    && call.m.instanceType == ms.template.instanceType && call.m.owners == [ControllerRef(ms)]
  }

  function Created(made: seq<Call>): seq<Machine> {
    if made == [] then []
    else
      Created(made[..|made| - 1]) +
      if made[|made| - 1].CreateCall? && made[|made| - 1].created.Ok? then [made[|made| - 1].created.value] else []
  }

  function Refusals(made: seq<Call>): (n: nat)
    ensures n <= |made|
  {
    if made == [] then 0
    else Refusals(made[..|made| - 1]) + if made[|made| - 1].CreateCall? && made[|made| - 1].created.Err? then 1 else 0
  }

  lemma CreatedSnoc(made: seq<Call>, call: Call)
    requires call.CreateCall?
    ensures Created(made + [call]) == Created(made) + if call.created.Ok? then [call.created.value] else []
    ensures Refusals(made + [call]) == Refusals(made) + if call.created.Err? then 1 else 0
  {
    assert (made + [call])[..|made|] == made;
  }

  /** The missing machines are all requested, whatever the answers; a refusal is
      reported, and otherwise the created ones are waited for. */
  ghost predicate CreateTrace(ms: MachineSet, missing: nat, made: seq<Call>, polls: seq<seq<Call>>,
                              r: Result<(), SyncError>)
  {
    && |made| == missing && (forall i :: 0 <= i < |made| ==> Creation(ms, made[i]))
    && if Refusals(made) > 0 then polls == [] && r == Err(CreateFailed(Refusals(made)))
       else WaitedCreation(Created(made), polls, r.Ok?) && (r.Err? ==> r.error == NotConfirmed)
  }

  // ---- Deleting -------------------------------------------------------------------------

  /** Call j asks for the deletion of the machine of worker order[j]; no worker asks
      twice. */
  ghost predicate Deletions(chosen: seq<Machine>, order: seq<nat>, made: seq<Call>) {
    && |order| == |made| && (forall i, j :: 0 <= i < j < |order| ==> order[i] != order[j])
    && (forall j :: 0 <= j < |made| ==> order[j] < |chosen| && made[j].DeleteCall? && made[j].k == chosen[order[j]].key)
  }

  predicate SomeRefused(made: seq<Call>) {
    exists j :: 0 <= j < |made| && made[j].DeleteCall? && made[j].deleted.Err?
  }

  /** Every chosen machine is asked for once. An error is reported exactly if one
      of the calls was answered with it; otherwise the machines are waited for. */
  ghost predicate DeleteTrace(chosen: seq<Machine>, order: seq<nat>, made: seq<Call>, polls: seq<seq<Call>>,
                              r: Result<(), SyncError>)
  {
    && |order| == |chosen| && Deletions(chosen, order, made)
    && if r == Err(Hangs) then polls == []
       else if SomeRefused(made) then
         && polls == [] && r.Err? && r.error.DeleteFailed?
         && exists j :: 0 <= j < |made| && made[j].DeleteCall? && made[j].deleted == Err(r.error.error)
       else
         WaitedDeletion(chosen, polls, r.Ok?) && (r.Err? ==> r.error == NotConfirmed)
  }

  // ---- The pass -------------------------------------------------------------------------

  /** The calls of syncReplicas for n machines. */
  ghost predicate SyncTrace(ms: MachineSet, n: nat, chosen: seq<Machine>, order: seq<nat>, made: seq<Call>,
                            polls: seq<seq<Call>>, r: Result<(), SyncError>)
  {
    if n < ms.replicas then chosen == [] && CreateTrace(ms, ms.replicas - n, made, polls, r)
    else if n > ms.replicas then DeleteTrace(chosen, order, made, polls, r)
    else chosen == [] && made == [] && polls == [] && r == Ok(())
  }

  /** The checks before a set is scaled, for each of their answers. */
  ghost predicate AdmitTrace(read: MachineSet, heard: seq<SetAnswer>, early: Option<SetOutcome>, ms: MachineSet) {
    if !ValidSet(read) then heard == [] && early == Some(Failing(Invalid)) && ms == read
    else
      && |heard| > 0 && heard[0].ClustersListed? && heard[0].ns == read.key.ns
      && if heard[0].names.Err? || |heard[0].names.value| != 1 then
           |heard| == 1 && early == Some(Failing(NoCluster)) && ms == read
         else
           && |heard| > 1 && heard[1].ClusterRead? && heard[1].key == Key(read.key.ns, heard[0].names.value[0])
           && if heard[1].found.Err? then |heard| == 2 && early == Some(Failing(NoCluster)) && ms == read
              else OwnedTrace(read, heard[2..], early, ms)
  }

  /** The set gets its cluster as owner, and if it is not in deletion its
      finalizer. */
  ghost predicate OwnedTrace(read: MachineSet, heard: seq<SetAnswer>, early: Option<SetOutcome>, ms: MachineSet) {
    if !read.deleting && FOREGROUND_DELETION !in read.finalizers then
      && ms == read.(owned := true, finalizers := read.finalizers + [FOREGROUND_DELETION])
      && |heard| == 1 && heard[0].SetUpdated? && heard[0].ms == ms
      && early == Some(if heard[0].updated.Err? then Failing(UpdateFailed) else RequeueNow)
    else
      heard == [] && ms == read.(owned := true) && early == if read.deleting then Some(Done) else None
  }

  /** The status is written into a fresh copy; it was stored exactly if both calls
      succeeded. */
  ghost predicate StatusTrace(k: Key, status: SetStatus, heard: seq<SetAnswer>, stored: Option<MachineSet>) {
    && |heard| > 0 && heard[0].SetRead? && heard[0].key == k
    && match heard[0].read
       case Err(_) => |heard| == 1 && stored == None
       case Ok(latest) =>
         && |heard| == 2 && heard[1].StatusStored? && heard[1].ms == latest.(status := status)
         && stored == if heard[1].stored.Ok? then Some(heard[1].ms) else None
  }

  /** All that a pass asked and was answered, part after part. */
  datatype SetPass = SetPass(
    listing: seq<Call>,
    admitting: seq<SetAnswer>,
    admitted: MachineSet,
    early: Option<SetOutcome>,
    all: seq<Machine>,
    steps: seq<Filtering>,
    chosen: seq<Machine>,
    order: seq<nat>,
    made: seq<Call>,
    polls: seq<seq<Call>>,
    synced: Result<(), SyncError>,
    storing: seq<SetAnswer>,
    stored: Option<MachineSet>)

  /** A pass that ended after the listing. */
  function NoPass(listing: seq<Call>, read: MachineSet): SetPass {
    SetPass(listing, [], read, None, [], [], [], [], [], [], Ok(()), [], None)
  }

  /** The first calls, and then those of the pass. */
  function SetPassCalls(first: seq<Call>, pass: SetPass): seq<Call> {
    Flat(first + pass.listing + CallsOf(pass.steps) + pass.made, pass.polls)
  }

  function SetPassAnswers(first: seq<SetAnswer>, pass: SetPass): seq<SetAnswer> {
    first + pass.admitting + pass.storing
  }

  ghost predicate NothingSynced(pass: SetPass) {
    pass.steps == [] && pass.made == [] && pass.polls == [] && pass.storing == []
  }

  /** How a pass on this copy of the set begins: it lists the machines and looks
      whether the set may be scaled. */
  ghost predicate BeginTrace(read: MachineSet, pass: SetPass, early: Option<SetOutcome>, list: seq<Machine>) {
    && |pass.listing| == 1 && pass.listing[0].ListCall? && pass.listing[0].ns == read.key.ns
    && match pass.listing[0].listed
       case Err(_) => pass.admitting == [] && early == Some(Failing(ListFailed))
       case Ok(all) =>
         && all == list == pass.all && early == pass.early
         && AdmitTrace(read, pass.admitting, pass.early, pass.admitted)
  }

  /** How it goes, for all the answers it is given. */
  ghost predicate SetPassOk(read: MachineSet, pass: SetPass, outcome: SetOutcome) {
    if BeginTrace(read, pass, None, pass.all) then ScaledTrace(pass, outcome)
    else BeginTrace(read, pass, Some(outcome), pass.all) && NothingSynced(pass)
  }

  // ---- Many passes ----------------------------------------------------------------------

  /** The first calls, and then those of the passes. */
  function AllCalls(first: seq<Call>, passes: seq<SetPass>): seq<Call> {
    if passes == [] then first
    else SetPassCalls(AllCalls(first, passes[..|passes| - 1]), passes[|passes| - 1])
  }

  function AllAnswers(first: seq<SetAnswer>, passes: seq<SetPass>): seq<SetAnswer> {
    if passes == [] then first
    else SetPassAnswers(AllAnswers(first, passes[..|passes| - 1]), passes[|passes| - 1])
  }

  /** The passes on these copies ended so, and these are all the calls and answers. */
  ghost predicate PassesMade(copies: seq<MachineSet>, passes: seq<SetPass>, outcomes: seq<SetOutcome>,
                             first: seq<Call>, calls: seq<Call>, heard: seq<SetAnswer>, answers: seq<SetAnswer>)
  {
    && |passes| == |outcomes| <= |copies|
    && (forall p :: 0 <= p < |passes| ==> WentSo(copies, passes, outcomes, p))
    && calls == AllCalls(first, passes) && answers == AllAnswers(heard, passes)
  }

  lemma OnePassMade(copies: seq<MachineSet>, passes: seq<SetPass>, outcomes: seq<SetOutcome>, first: seq<Call>,
                    calls: seq<Call>, heard: seq<SetAnswer>, answers: seq<SetAnswer>, pass: SetPass,
                    outcome: SetOutcome)
    requires PassesMade(copies, passes, outcomes, first, calls, heard, answers) && |passes| < |copies|
    requires SetPassOk(copies[|passes|], pass, outcome)
    ensures PassesMade(copies, passes + [pass], outcomes + [outcome], first, SetPassCalls(calls, pass), heard,
                       SetPassAnswers(answers, pass))
  {
    assert (passes + [pass])[..|passes|] == passes;
    forall p | 0 <= p < |passes| + 1
      ensures WentSo(copies, passes + [pass], outcomes + [outcome], p)
    {
      assert p < |passes| ==> WentSo(copies, passes, outcomes, p);
    }
  }

  /** Pass p on its copy ended so. */
  ghost predicate WentSo(copies: seq<MachineSet>, passes: seq<SetPass>, outcomes: seq<SetOutcome>, p: nat)
    requires p < |passes| == |outcomes| <= |copies|
  {
    SetPassOk(copies[p], passes[p], outcomes[p])
  }

  lemma SetPassFromParts(read: MachineSet, begun: SetPass, pass: SetPass, outcome: SetOutcome)
    requires BeginTrace(read, begun, None, begun.all) && ScaledTrace(pass, outcome)
    requires pass.listing == begun.listing && pass.admitting == begun.admitting && pass.admitted == begun.admitted
             && pass.early == begun.early && pass.all == begun.all
    ensures SetPassOk(read, pass, outcome)
  {
  }

  lemma EndedAtOnce(read: MachineSet, pass: SetPass, outcome: SetOutcome, list: seq<Machine>)
    requires BeginTrace(read, pass, Some(outcome), list) && NothingSynced(pass)
    ensures SetPassOk(read, pass, outcome)
  {
  }

  lemma NoMoreCalls(first: seq<Call>, heard: seq<SetAnswer>, pass: SetPass)
    requires NothingSynced(pass)
    ensures SetPassCalls(first, pass) == first + pass.listing
    ensures SetPassAnswers(heard, pass) == heard + pass.admitting
  {
  }

  ghost predicate ScaledTrace(pass: SetPass, outcome: SetOutcome) {
    var ms, kept := pass.admitted, KeptOf(pass.steps);
    && FilterTrace(ms, pass.all, pass.steps)
    && SyncTrace(ms, |kept|, pass.chosen, pass.order, pass.made, pass.polls, pass.synced)
    && if pass.synced == Err(Hangs) then pass.storing == [] && outcome == Hung
       else
         && StatusTrace(ms.key, StatusOf(ms, kept, pass.synced.Ok?), pass.storing, pass.stored)
         && outcome == if pass.synced.Err? then Failing(SyncFailed(pass.synced.error))
                       else if pass.stored.None? then Failing(StatusFailed) else Done
  }

  /** The parts make a pass that was scaled. */
  lemma ScaledFromParts(pass: SetPass, outcome: SetOutcome)
    requires FilterTrace(pass.admitted, pass.all, pass.steps)
    requires SyncTrace(pass.admitted, |KeptOf(pass.steps)|, pass.chosen, pass.order, pass.made, pass.polls, pass.synced)
    requires if pass.synced == Err(Hangs) then pass.storing == [] && outcome == Hung
             else
               && StatusTrace(pass.admitted.key, StatusOf(pass.admitted, KeptOf(pass.steps), pass.synced.Ok?),
                              pass.storing, pass.stored)
               && outcome == if pass.synced.Err? then Failing(SyncFailed(pass.synced.error))
                             else if pass.stored.None? then Failing(StatusFailed) else Done
    ensures ScaledTrace(pass, outcome)
  {
  }

  function StatusOf(ms: MachineSet, kept: seq<Machine>, synced: bool): SetStatus {
    SetStatus(if synced then ReadySet else ErrorSet, |kept|, CountMatching(kept, ms.template.labels))
  }
}
