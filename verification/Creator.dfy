/** The pipeline that turns a new machine object into a MAAS system
    (pkg/controller/machine/create.go). A step does nothing once an earlier one
    has set the error; only prepareMaasRequest may replace an error of its own. */
module Creator {
  import opened Objects
  import opened World
  import opened ControlPlane
  import opened Outside
  import opened MaasClient
  import opened Preparation
  import CertBundle
  import ClusterWorld
  import Images
  import Lifecycle
  import Tokens
  import Util

  const API_PORT := ":6443"

  /** What MAAS, the calls that publish the kubeconfig, and all other calls but
      those to the API server's machines answered to a pass. */
  datatype Given = Given(maas: seq<Result<CreateResponse, ()>>, published: seq<Published>, heard: seq<Answer>)

  const NOTHING_GIVEN := Given([], [], [])

  /** The kubeconfig could not be encoded or the secret not be stored. */
  predicate Unpublished(published: seq<Published>) {
    published != []
    && match published[|published| - 1]
       case Encoded(_, _, _, r) => r.Err?
       case Stored(_, r) => r.Err?
       case _ => false
  }

  /** The kubeconfig of a new master is made from the bundle in the secret and the
      address of the master, and written into that secret; the first call that
      fails decides the error. */
  ghost predicate KubeconfigTrace(cluster: ClusterInfo, secret: map<string, CertBundle.Bytes>,
                                  response: CreateResponse, published: seq<Published>, err: Option<PassError>)
    requires response.ips != []
  {
    && |published| > 0 && published[0].Encoded?
    && CertBundle.Agrees(published[0].bundle, secret) && published[0].name == cluster.name
    && published[0].address == "https://" + response.ips[0] + ":6443"
    && match published[0].kubeconfig
       case Err(_) => |published| == 1 && err == Some(Other)
       case Ok(kubeconfig) =>
         && |published| == 2 && published[1].Stored?
         && published[1].data == secret[CertBundle.KUBECONFIG_KEY := kubeconfig]
         && err == if published[1].stored.Err? then Some(FromApi(published[1].stored.error)) else None
  }

  /** What the calls that publish the kubeconfig of a new master and its address
      did. */
  ghost predicate PublishTrace(cluster: ClusterInfo, secret: map<string, CertBundle.Bytes>, response: CreateResponse,
                               published: seq<Published>, err: Option<PassError>)
    requires response.ips != []
  {
    if Unpublished(published) then KubeconfigTrace(cluster, secret, response, published, err)
    else
      && |published| == 4
      && KubeconfigTrace(cluster, secret, response, published[..2], None)
      && AddressTrace(response, published[2..], err)
  }

  function ReadCluster(r: Result<ClusterWorld.Cluster, ApiError>): ClusterWorld.Cluster {
    if r.Ok? then r.value else ClusterWorld.NO_CLUSTER
  }

  /** The cluster that was read, or an empty one, is written with the new address
      of its API server; an error in either call asks for the release. */
  predicate AddressTrace(response: CreateResponse, published: seq<Published>, err: Option<PassError>)
    requires response.ips != []
  {
    && |published| == 2 && published[0].ClusterRead? && published[1].ClusterWritten?
    && published[1].c == ReadCluster(published[0].cluster).(endpoint := response.ips[0] + ":6443")
    && err == if published[0].cluster.Ok? && published[1].written.Ok? then None
              else Some(NeedsRelease(response.systemId))
  }

  /** The write that records system x in the machine, and its answer. */
  ghost predicate RecordTrace(copy: Machine, cluster: ClusterInfo, response: CreateResponse, err: Option<PassError>,
                              calls: seq<Call>, events: seq<Event>, held: set<string>, lost: set<Machine>)
    requires response.ips != []
  {
    var x := response.systemId;
    && |calls| == 1 && calls[0].UpdateCall? && Records(copy, calls[0].m, {x})
    && calls[0].m.host == response.ips[0] && calls[0].m.k8sVersion == cluster.k8sVersion
    && calls[0].m.annotations == copy.annotations["maas-ip" := response.ips[0]]["maas-system-id" := x]
                                                 ["maas-hostname" := response.hostname]
    && match calls[0].updated
       case Ok(_) => err == None && held == {} && events == [Write(calls[0].m)]
       case Err(_) =>
         && err == Some(NeedsRelease(x))
         && ((events == [] && held == {x}) || (events == [Write(calls[0].m)] && held == {} && calls[0].m in lost))
  }

  lemma PublishedInTurn(cluster: ClusterInfo, secret: map<string, CertBundle.Bytes>, response: CreateResponse,
                        first: seq<Published>, ended: Option<PassError>, second: seq<Published>,
                        err: Option<PassError>)
    requires response.ips != [] && KubeconfigTrace(cluster, secret, response, first, ended)
    requires if ended.Some? then err == ended && second == [] else AddressTrace(response, second, err)
    ensures PublishTrace(cluster, secret, response, first + second, err)
  {
    var all := first + second;
    if ended.Some? {
      assert all == first;
    } else {
      assert all[..2] == first && all[2..] == second;
    }
  }

  /** What became of a system that MAAS has deployed with addresses. If the
      kubeconfig of a master could not be published the pass just keeps it.
      Otherwise it is recorded, or its release is asked for. */
  ghost predicate Deployed(copy: Machine, err: Option<PassError>, given: Given, response: CreateResponse,
                           calls: seq<Call>, events: seq<Event>, held: set<string>, lost: set<Machine>)
    requires response.ips != []
  {
    var cluster, x := TheCluster(given.heard), response.systemId;
    if Master(copy) && !Published(given.published) then
      && PublishTrace(cluster, TheSecret(given.heard), response, given.published, err)
      && calls == [] && events == [Allocate(x)] && held == {x}
    else
      && (if Master(copy) then PublishTrace(cluster, TheSecret(given.heard), response, given.published, None)
          else given.published == [])
      && exists later: seq<Event> {:trigger [Allocate(x)] + later} ::
           && events == [Allocate(x)] + later
           && RecordTrace(copy, cluster, response, err, calls, later, held, lost)
  }

  /** All four calls succeeded. */
  predicate Published(published: seq<Published>) {
    && |published| == 4 && published[2].ClusterRead? && published[2].cluster.Ok?
    && published[3].ClusterWritten? && published[3].written.Ok?
  }

  /** MAAS was asked for the right system, and answered r. */
  ghost predicate Requested(copy: Machine, heard: seq<Answer>, calls: seq<Call>, r: Result<CreateResponse, ()>) {
    exists request ::
      && RightRequest(TheCluster(heard), copy.key.name, copy.instanceType, TheUserdata(heard), TheResources(heard),
                      request)
      && Answered(request, calls, r)
  }

  /** What a pass through the pipeline did to MAAS and to the machine `copy`, and
      which system it still holds, for each of the answers it was given. */
  ghost predicate Outcome(copy: Machine, err: Option<PassError>, given: Given, calls: seq<Call>, events: seq<Event>,
                          held: set<string>, lost: set<Machine>)
  {
    && Conversation(copy, given.heard)
    && if given.maas == [] then
         && err.Some? && Ended(copy, given.heard, err.value)
         && given.published == [] && calls == [] && events == [] && held == {}
       else
         && After(copy, given.heard) == AskMaas && |given.maas| == 1
         && match given.maas[0]
            case Err(_) =>
              && Requested(copy, given.heard, calls, Err(()))
              && given.published == [] && held == {} && err == Some(Other)
              && (events == [] || exists x, freed :: events == [Allocate(x), Release(x, freed, None)])
            case Ok(r) =>
              && r.systemId != "" && |calls| >= 2 && Requested(copy, given.heard, calls[..2], Ok(r))
              && if r.ips == [] then
                   && given.published == [] && held == {} && err == Some(Crashed)
                   && calls[2..] == [ReleaseCall(r.systemId)]
                   && exists freed :: events == [Allocate(r.systemId), Release(r.systemId, freed, None)]
                 else
                   Deployed(copy, err, given, r, calls[2..], events, held, lost)
  }

  /** A release is asked for a system that the pass allocated and could not record:
      it still holds it, or the reply to the write that recorded it was lost. */
  lemma ReleaseIsOfAllocated(copy: Machine, err: Option<PassError>, given: Given, calls: seq<Call>,
                             events: seq<Event>, held: set<string>, lost: set<Machine>)
    requires Outcome(copy, err, given, calls, events, held, lost) && err.Some? && err.value.NeedsRelease?
    ensures var x := err.value.systemId;
            && x != "" && events != [] && events[0] == Allocate(x)
            && if |events| == 1 then held == {x}
               else
                 && |events| == 2 && held == {} && events[1].Write?
                 && events[1].m.phase == Creating && events[1].m in lost
  {
    if given.maas == [] {
      EndsWithoutRelease(copy, given.heard, err.value);
    }
  }

  /** What is left in the hands of the pass: the system of a new master whose
      kubeconfig could not be published, or one whose release is asked for. */
  lemma WhatIsHeld(copy: Machine, err: Option<PassError>, given: Given, calls: seq<Call>, events: seq<Event>,
                   held: set<string>, lost: set<Machine>)
    requires Outcome(copy, err, given, calls, events, held, lost)
    ensures if |given.maas| == 1 && given.maas[0].Ok? && given.maas[0].value.ips != [] && Unpublished(given.published)
            then
              && held == {given.maas[0].value.systemId} && ROLE_MASTER in copy.roles
              && err.Some? && !err.value.NeedsRelease?
            else
              held == {} || (err.Some? && err.value.NeedsRelease? && held == {err.value.systemId})
  {
  }

  /** What the pipeline releases by itself is what it has just allocated. */
  lemma OwnReleaseIsOfAllocated(copy: Machine, err: Option<PassError>, given: Given, calls: seq<Call>,
                                events: seq<Event>, held: set<string>, lost: set<Machine>, n: nat)
    requires Outcome(copy, err, given, calls, events, held, lost) && n < |events| && events[n].Release?
    ensures n == 1 && |events| == 2 && events[0] == Allocate(events[1].systemId)
  {
  }

  // ---- The steps from the MAAS call on --------------------------------------------------

  /** What doMaasCreate does when it calls MAAS. */
  ghost predicate MaasTrace(request: CreateRequest, err: Option<PassError>, response: CreateResponse,
                            answers: seq<Result<CreateResponse, ()>>, calls: seq<Call>, events: seq<Event>,
                            held: set<string>)
  {
    && |answers| == 1
    && match answers[0]
       case Err(_) =>
         && err == Some(Other) && response == NO_RESPONSE && held == {} && Answered(request, calls, Err(()))
         && (events == [] || exists x, freed :: events == [Allocate(x), Release(x, freed, None)])
       case Ok(r) =>
         && err == None && r.systemId != "" && |calls| >= 2 && Answered(request, calls[..2], Ok(r))
         && if r.ips == [] then
              && response == NO_RESPONSE && held == {} && calls[2..] == [ReleaseCall(r.systemId)]
              && exists freed :: events == [Allocate(r.systemId), Release(r.systemId, freed, None)]
            else
              response == r && held == {r.systemId} && calls[2..] == [] && events == [Allocate(r.systemId)]
  }

  /** What createKubeconfig and updateCluster make of the error `before`. */
  ghost predicate PublishStep(cluster: ClusterInfo, secret: map<string, CertBundle.Bytes>, response: CreateResponse,
                              before: Option<PassError>, published: seq<Published>, err: Option<PassError>)
  {
    if before.Some? then err == before && published == []
    else if response.ips == [] then err == Some(Crashed) && published == []
    else PublishTrace(cluster, secret, response, published, err)
  }

  /** What updateMachine makes of the error `before`. */
  ghost predicate UpdateStep(copy: Machine, cluster: ClusterInfo, response: CreateResponse, before: Option<PassError>,
                             heldBefore: set<string>, err: Option<PassError>, calls: seq<Call>, events: seq<Event>,
                             held: set<string>, lost: set<Machine>)
  {
    if before.Some? || response.ips == [] then
      && err == (if before.Some? then before else Some(Crashed))
      && calls == [] && events == [] && held == heldBefore
    else
      RecordTrace(copy, cluster, response, err, calls, events, held, lost)
  }

  /** The steps from the MAAS call on, with the errors in between. */
  datatype Deployment = Deployment(
    request: CreateRequest,
    response: CreateResponse,
    answers: seq<Result<CreateResponse, ()>>,
    published: seq<Published>,
    asked: Option<PassError>,
    announced: Option<PassError>,
    calls1: seq<Call>,
    calls2: seq<Call>,
    events1: seq<Event>,
    events2: seq<Event>,
    held: set<string>)

  ghost predicate Deploys(copy: Machine, cluster: ClusterInfo, secret: map<string, CertBundle.Bytes>, d: Deployment,
                          err: Option<PassError>, held: set<string>, lost: set<Machine>)
  {
    && MaasTrace(d.request, d.asked, d.response, d.answers, d.calls1, d.events1, d.held)
    && (if Master(copy) then PublishStep(cluster, secret, d.response, d.asked, d.published, d.announced)
        else d.announced == d.asked && d.published == [])
    && UpdateStep(copy, cluster, d.response, d.announced, d.held, err, d.calls2, d.events2, held, lost)
  }

  /** One after the other they give an outcome of the pipeline. */
  lemma InTurn(copy: Machine, heard: seq<Answer>, d: Deployment, err: Option<PassError>, held: set<string>,
               lost: set<Machine>)
    requires Conversation(copy, heard) && After(copy, heard) == AskMaas
    requires RightRequest(TheCluster(heard), copy.key.name, copy.instanceType, TheUserdata(heard),
                          TheResources(heard), d.request)
    requires Deploys(copy, TheCluster(heard), TheSecret(heard), d, err, held, lost)
    ensures Outcome(copy, err, Given(d.answers, d.published, heard), d.calls1 + d.calls2, d.events1 + d.events2, held,
                    lost)
  {
    if d.asked.Some? {
      NothingCreated(copy, heard, d, err, held, lost);
    } else if d.answers[0].value.ips == [] {
      NothingDeployed(copy, heard, d, err, held, lost);
    } else {
      SystemDeployed(copy, heard, d, err, held, lost);
    }
  }

  lemma NothingCreated(copy: Machine, heard: seq<Answer>, d: Deployment, err: Option<PassError>, held: set<string>,
                       lost: set<Machine>)
    requires Conversation(copy, heard) && After(copy, heard) == AskMaas && d.asked.Some?
    requires RightRequest(TheCluster(heard), copy.key.name, copy.instanceType, TheUserdata(heard),
                          TheResources(heard), d.request)
    requires Deploys(copy, TheCluster(heard), TheSecret(heard), d, err, held, lost)
    ensures Outcome(copy, err, Given(d.answers, d.published, heard), d.calls1 + d.calls2, d.events1 + d.events2, held,
                    lost)
  {
    assert d.calls1 + d.calls2 == d.calls1 && d.events1 + d.events2 == d.events1;
    assert Requested(copy, heard, d.calls1, Err(()));
  }

  lemma NothingDeployed(copy: Machine, heard: seq<Answer>, d: Deployment, err: Option<PassError>, held: set<string>,
                        lost: set<Machine>)
    requires Conversation(copy, heard) && After(copy, heard) == AskMaas && d.asked.None?
    requires RightRequest(TheCluster(heard), copy.key.name, copy.instanceType, TheUserdata(heard),
                          TheResources(heard), d.request)
    requires Deploys(copy, TheCluster(heard), TheSecret(heard), d, err, held, lost)
    requires |d.answers| == 1 && d.answers[0].Ok? && d.answers[0].value.ips == []
    ensures Outcome(copy, err, Given(d.answers, d.published, heard), d.calls1 + d.calls2, d.events1 + d.events2, held,
                    lost)
  {
    assert d.calls1 + d.calls2 == d.calls1 && d.events1 + d.events2 == d.events1;
    assert Requested(copy, heard, d.calls1[..2], d.answers[0]);
  }

  lemma SystemDeployed(copy: Machine, heard: seq<Answer>, d: Deployment, err: Option<PassError>, held: set<string>,
                       lost: set<Machine>)
    requires Conversation(copy, heard) && After(copy, heard) == AskMaas && d.asked.None?
    requires RightRequest(TheCluster(heard), copy.key.name, copy.instanceType, TheUserdata(heard),
                          TheResources(heard), d.request)
    requires Deploys(copy, TheCluster(heard), TheSecret(heard), d, err, held, lost)
    requires |d.answers| == 1 && d.answers[0].Ok? && d.answers[0].value.ips != []
    ensures Outcome(copy, err, Given(d.answers, d.published, heard), d.calls1 + d.calls2, d.events1 + d.events2, held,
                    lost)
  {
    var r, given := d.answers[0].value, Given(d.answers, d.published, heard);
    var calls, events := d.calls1 + d.calls2, d.events1 + d.events2;
    assert calls[..2] == d.calls1 && calls[2..] == d.calls2;
    assert events[0] == Allocate(r.systemId) && events[1..] == d.events2;
    assert Requested(copy, heard, calls[..2], Ok(r));
    DeployedInTurn(copy, r, d.announced, err, given, d.calls2, events, held, lost);
    WholeOutcome(copy, heard, err, given, calls, events, held, lost);
  }

  lemma WholeOutcome(copy: Machine, heard: seq<Answer>, err: Option<PassError>, given: Given, calls: seq<Call>,
                     events: seq<Event>, held: set<string>, lost: set<Machine>)
    requires Conversation(copy, heard) && After(copy, heard) == AskMaas && given.heard == heard
    requires |given.maas| == 1 && given.maas[0].Ok? && given.maas[0].value.ips != []
    requires given.maas[0].value.systemId != "" && |calls| >= 2
    requires Requested(copy, heard, calls[..2], given.maas[0])
    requires Deployed(copy, err, given, given.maas[0].value, calls[2..], events, held, lost)
    ensures Outcome(copy, err, given, calls, events, held, lost)
  {
  }

  /** What the whole pipeline does: it ends before MAAS is asked, or goes on. */
  lemma PipelineOutcome(copy: Machine, heard: seq<Answer>, asking: Option<PassError>, d: Deployment,
                        err: Option<PassError>, held: set<string>, lost: set<Machine>)
    requires Conversation(copy, heard)
    requires if asking.Some? then Ended(copy, heard, asking.value) && NothingDone(d, asking, err, held)
             else
               && After(copy, heard) == AskMaas
               && RightRequest(TheCluster(heard), copy.key.name, copy.instanceType, TheUserdata(heard),
                               TheResources(heard), d.request)
               && Deploys(copy, TheCluster(heard), TheSecret(heard), d, err, held, lost)
    ensures Outcome(copy, err, Given(d.answers, d.published, heard), d.calls1 + d.calls2, d.events1 + d.events2, held,
                    lost)
  {
    if asking.None? {
      InTurn(copy, heard, d, err, held, lost);
    }
  }

  predicate NothingDone(d: Deployment, asking: Option<PassError>, err: Option<PassError>, held: set<string>) {
    && err == asking && held == {} && d.answers == [] && d.published == []
    && d.calls1 == d.calls2 == [] && d.events1 == d.events2 == []
  }

  lemma DeployedInTurn(copy: Machine, response: CreateResponse, e2: Option<PassError>, e3: Option<PassError>,
                       given: Given, calls: seq<Call>, events: seq<Event>, held: set<string>, lost: set<Machine>)
    requires response.ips != [] && events != [] && events[0] == Allocate(response.systemId)
    requires if Master(copy) then
               PublishTrace(TheCluster(given.heard), TheSecret(given.heard), response, given.published, e2)
             else
               e2 == None && given.published == []
    requires UpdateStep(copy, TheCluster(given.heard), response, e2, {response.systemId}, e3, calls, events[1..], held,
                        lost)
    ensures Deployed(copy, e3, given, response, calls, events, held, lost)
  {
    assert events == [events[0]] + events[1..];
  }

  /** The secret that was read holds a kubeconfig, and a client was built from it. */
  predicate ReachesCluster(heard: seq<Answer>) {
    && |heard| > 2 && heard[1].SecretRead? && heard[1].secret.Ok?
    && CertBundle.KUBECONFIG_KEY in heard[1].secret.value && heard[1].secret.value[CertBundle.KUBECONFIG_KEY] != []
    && heard[2] == ClientBuilt(heard[1].secret.value[CertBundle.KUBECONFIG_KEY], true)
  }

  /** The secret was read, and its kubeconfig is missing or empty. */
  predicate LacksKubeconfig(heard: seq<Answer>) {
    && |heard| > 1 && heard[1].SecretRead? && heard[1].secret.Ok?
    && (CertBundle.KUBECONFIG_KEY in heard[1].secret.value ==> heard[1].secret.value[CertBundle.KUBECONFIG_KEY] == [])
  }

  lemma WorkerNeedsKubeconfig(copy: Machine, err: Option<PassError>, given: Given, calls: seq<Call>,
                              events: seq<Event>, held: set<string>, lost: set<Machine>)
    requires Outcome(copy, err, given, calls, events, held, lost) && !Master(copy)
    ensures given.maas != [] ==> ReachesCluster(given.heard)
    ensures LacksKubeconfig(given.heard) ==>
              err == Some(NotReady) && given.maas == [] && calls == [] && |given.heard| == 2
  {
    if given.maas != [] {
      WorkerReachesCluster(copy, given.heard);
    }
    if LacksKubeconfig(given.heard) {
      WorkerWaitsForKubeconfig(copy, given.heard);
    }
  }

  /** An error before MAAS is asked never asks for a release. */
  lemma EndsWithoutRelease(m: Machine, heard: seq<Answer>, e: PassError)
    requires Conversation(m, heard) && Ended(m, heard, e)
    ensures !e.NeedsRelease?
  {
  }

  /** The request is for this machine, with generated user data and the first
      image that MAAS offers for it. */
  predicate RightRequest(cluster: ClusterInfo, name: string, instanceType: string, userdata: Result<string, PassError>,
                         resources: Result<seq<Images.BootResource>, ()>, request: CreateRequest)
  {
    && userdata.Ok? && request.userdata == userdata.value
    && resources.Ok? && request.distro != ""
    && Images.FirstOffer(resources.value, OS_VERSION, cluster.k8sVersion, instanceType, request.distro)
    && request.instanceType == instanceType
    && request.providerID == cluster.name + "-" + name
  }

  class Creator {
    const plane: Plane
    const maas: Client
    const remote: Remote
    const publisher: Publisher
    const clock: Tokens.Clock
    const isMaster: bool
    ghost const copy: Machine
    ghost const before: seq<Answer>

    var machine: Machine
    var err: Option<PassError>
    var cluster: Option<ClusterInfo>
    var secret: map<string, CertBundle.Bytes>
    var clientset: bool
    var token: string
    /** The bootstrap token behind `token`, and when it was chosen or created. */
    ghost var credential: Option<Tokens.TokenSecret>
    ghost var credentialAt: int
    var request: CreateRequest
    var response: CreateResponse
    /** The answers heard by this pass. */
    ghost var heard: seq<Answer>

    constructor (plane: Plane, maas: Client, remote: Remote, publisher: Publisher, clock: Tokens.Clock,
                 machine: Machine, isMaster: bool)
      ensures this.plane == plane && this.maas == maas && this.remote == remote && this.publisher == publisher
      ensures this.clock == clock && this.isMaster == isMaster && this.machine == machine && copy == machine
      ensures before == remote.answers && heard == []
      ensures err == None && cluster == None && token == "" && credential == None
      ensures request == NO_REQUEST && response == NO_RESPONSE
    {
      this.plane, this.maas, this.remote, this.publisher, this.clock := plane, maas, remote, publisher, clock;
      this.isMaster, this.machine, copy, before, heard := isMaster, machine, machine, remote.answers, [];
      err, cluster, secret, clientset, token := None, None, map[], false, "";
      request, response, credential, credentialAt := NO_REQUEST, NO_RESPONSE, None, 0;
    }

    /** The pass has the text of a token that does not expire, or had at least
        half an hour left when it was chosen or created. */
    ghost predicate HasToken()
      reads this
    {
      && credential.Some? && Tokens.UsableAt(credential.value, credentialAt)
      && token == Tokens.TokenText(credential.value.id, credential.value.secret) && token != ""
    }

    /** The pass asked in the right order, knows what it was told, and an error is
        the one that the answers mean. */
    ghost predicate Asking()
      reads this, remote
    {
      && remote.answers == before + heard && Conversation(copy, heard)
      && machine == copy && (isMaster <==> Master(copy))
      && (err.Some? ==> Ended(copy, heard, err.value))
      && (err.None? && heard != [] ==> cluster == Some(TheCluster(heard)))
      && (err.None? && |heard| > 1 ==> secret == TheSecret(heard))
    }

    /** Everything is in place for the user data. */
    ghost predicate CanJoin()
      reads this
    {
      if isMaster then |heard| == 2 && heard[1].SecretRead? && heard[1].secret.Ok?
      else |heard| > 2 && HasToken() && HeardToken(heard, token) && TheCluster(heard).endpoint != ""
    }

    /** Everything that has to be in place before MAAS may be asked. */
    ghost predicate Prepared()
      reads this
    {
      && cluster == Some(TheCluster(heard)) && CertBundle.HasAllKeys(TheSecret(heard))
      && RightRequest(TheCluster(heard), copy.key.name, copy.instanceType, TheUserdata(heard), TheResources(heard),
                      request)
      && (!isMaster ==> HasToken() && TheCluster(heard).endpoint != "" && CertBundle.HasKubeconfig(TheSecret(heard)))
    }

    method GetCluster()
      requires Asking() && (err.None? ==> heard == [])
      modifies this`err, this`cluster, this`heard, remote
      ensures Asking() && (old(err).Some? ==> err == old(err) && heard == old(heard))
      ensures err.None? ==> |heard| == 1 && After(copy, heard) == AskSecret
    {
      if err.Some? {
        return;
      }
      var clusters := remote.ListClusters(machine.key.ns);
      Hear(copy, heard, ClustersListed(machine.key.ns, clusters));
      heard := heard + [ClustersListed(machine.key.ns, clusters)];
      if clusters.Err? {
        err := Some(FromApi(clusters.error));
        return;
      }
      if |clusters.value| == 0 {
        err := Some(NotReady);
        return;
      }
      cluster := Some(clusters.value[0]);
    }

    method GetClusterSecret()
      requires Asking() && (err.None? ==> |heard| == 1 && After(copy, heard) == AskSecret)
      modifies this`err, this`secret, this`heard, remote
      ensures Asking() && (old(err).Some? ==> err == old(err) && heard == old(heard))
      ensures err.None? ==> |heard| == 2 && heard[1].SecretRead? && heard[1].secret.Ok?
    {
      if err.Some? {
        return;
      }
      var r := remote.GetSecret(machine.key.ns);
      Hear(copy, heard, SecretRead(machine.key.ns, r));
      heard := heard + [SecretRead(machine.key.ns, r)];
      match r
      case Ok(data) => secret := data;
      case Err(e) => err := Some(FromApi(e));
    }

    /** Without a kubeconfig in the secret a worker has to wait. */
    method CreateClientsetFromSecret()
      requires Asking() && (err.None? ==> |heard| == 2 && heard[1].SecretRead? && heard[1].secret.Ok?)
      modifies this`err, this`clientset, this`heard, remote
      ensures Asking() && (old(err).Some? || isMaster ==> err == old(err) && heard == old(heard))
      ensures err.None? && !isMaster ==> |heard| == 3 && After(copy, heard) == AskTokens
    {
      if err.Some? || isMaster {
        return;
      }
      if CertBundle.KUBECONFIG_KEY !in secret || secret[CertBundle.KUBECONFIG_KEY] == [] {
        err := Some(NotReady);
        return;
      }
      var config := secret[CertBundle.KUBECONFIG_KEY];
      var built := remote.BuildClient(config);
      Hear(copy, heard, ClientBuilt(config, built));
      heard := heard + [ClientBuilt(config, built)];
      if !built {
        err := Some(Other);
        return;
      }
      clientset := true;
    }

    /** Leaves the token empty exactly if no listed one is usable. */
    method CheckIfTokenExists()
      requires Asking() && (err.None? && !isMaster ==> |heard| == 3 && After(copy, heard) == AskTokens) && token == ""
      modifies this`err, this`token, this`credential, this`credentialAt, this`heard, clock, remote
      ensures old(clock.now) <= clock.now
      ensures Asking() && (old(err).Some? || isMaster ==> err == old(err) && token == "" && heard == old(heard))
      ensures err.None? && !isMaster ==>
                && |heard| == 4 && heard[3].TokensListed? && heard[3].tokens.Ok?
                && if token != "" then
                     HasToken() && HeardToken(heard, token) && old(clock.now) <= credentialAt <= clock.now
                   else
                     forall t :: t in heard[3].tokens.value ==> !Tokens.UsableAt(t, clock.now)
    {
      if err.Some? || isMaster {
        return;
      }
      var list := remote.ListTokens();
      Hear(copy, heard, TokensListed(list));
      heard := heard + [TokensListed(list)];
      if list.Err? {
        err := Some(if list.error == Transport then NotReady else Api(list.error));
        return;
      }
      token, credential := Tokens.CheckIfTokenExists(list.value, clock);
      credentialAt := clock.now;
    }

    /** After this step a worker has a token: the chosen one, or a new one that
        expires an hour after it was made. */
    method CreateToken()
      requires Asking()
      requires err.None? && !isMaster ==> |heard| == 4 && heard[3].TokensListed? && heard[3].tokens.Ok?
      requires err.None? && token != "" ==> HasToken() && HeardToken(heard, token)
      modifies this`err, this`token, this`credential, this`credentialAt, this`heard, clock, remote
      ensures old(clock.now) <= clock.now
      ensures Asking()
      ensures old(err).Some? || isMaster || old(token) != "" ==>
                err == old(err) && token == old(token) && credential == old(credential)
                    && credentialAt == old(credentialAt) && heard == old(heard)
      ensures err.None? && !isMaster ==> |heard| > 3 && HasToken() && HeardToken(heard, token)
      ensures old(err).None? && !isMaster && old(token) == "" && err.None? ==>
                && |heard| == 6 && heard[5] == TokenStored(credential.value, Ok(()))
                && old(clock.now) <= credentialAt <= clock.now
                && credential.value.expiration == Tokens.At(credentialAt + Tokens.HOUR)
    {
      if err.Some? || isMaster || token != "" {
        return;
      }
      var random := remote.ReadRandom();
      Hear(copy, heard, RandomRead(random));
      heard := heard + [RandomRead(random)];
      if random.None? {
        err := Some(Other);
        return;
      }
      CreateBootstrapToken(random.value.id, random.value.secret);
    }

    /** createBootstrapToken, and the text of the token if it was stored. */
    method CreateBootstrapToken(id: string, text: string)
      requires Asking() && err == None && !isMaster && |heard| == 5 && heard[4] == RandomRead(Some(Random(id, text)))
      modifies this`err, this`token, this`credential, this`credentialAt, this`heard, clock, remote
      ensures old(clock.now) <= clock.now && Asking()
      ensures err.None? ==>
                && |heard| == 6 && HasToken() && HeardToken(heard, token)
                && heard[5] == TokenStored(credential.value, Ok(()))
                && old(clock.now) <= credentialAt <= clock.now
                && credential.value.expiration == Tokens.At(credentialAt + Tokens.HOUR)
    {
      var bootstrap := Tokens.BootstrapTokenSecret(id, text, clock);
      Tokens.HourLeft(bootstrap, clock.now);
      var stored := remote.StoreToken(bootstrap);
      HearStored(copy, heard, bootstrap, stored);
      heard := heard + [TokenStored(bootstrap, stored)];
      if stored.Err? {
        err := Some(FromApi(stored.error));
        return;
      }
      assert stored.value == ();
      token := id + "." + text;
      credential, credentialAt := Some(bootstrap), clock.now;
    }

    method CheckApiserverAddress()
      requires Asking() && (err.None? ==> |heard| > 1)
      requires err.None? && !isMaster ==> |heard| > 3 && HasToken() && HeardToken(heard, token)
      modifies this`err
      ensures Asking() && (old(err).Some? || isMaster ==> err == old(err))
      ensures err.None? && !isMaster ==> CanJoin()
    {
      if err.Some? || isMaster {
        return;
      }
      if cluster.value.endpoint == "" {
        err := Some(NotReady);
      }
    }

    method ReadResources(userdata: Result<string, PassError>) returns (resources: Result<seq<Images.BootResource>, ()>)
      requires remote.answers == before + heard && Conversation(copy, heard) && |heard| > 1
      requires heard[|heard| - 1].UserdataMade? && userdata != Err(Crashed) && heard[|heard| - 1].userdata == userdata
      modifies this`heard, remote
      ensures remote.answers == before + heard && Conversation(copy, heard) && |heard| == |old(heard)| + 1
      ensures TheCluster(heard) == TheCluster(old(heard)) && TheSecret(heard) == TheSecret(old(heard))
      ensures TheUserdata(heard) == userdata && TheResources(heard) == resources
      ensures After(copy, heard) == if NoImage(copy, TheCluster(heard), resources) then Stop(Unrecoverable)
                                    else if userdata.Err? then Stop(userdata.error) else AskMaas
    {
      resources := remote.BootResources();
      HearResources(copy, heard, resources);
      heard := heard + [ResourcesRead(resources)];
    }

    /** The last part of prepareMaasRequest: finds the image and builds the request. */
    method BuildRequest(userdata: Result<string, PassError>)
      requires remote.answers == before + heard && Conversation(copy, heard) && machine == copy
      requires |heard| > 1 && cluster == Some(TheCluster(heard))
      requires heard[|heard| - 1].UserdataMade? && userdata != Err(Crashed)
      requires heard[|heard| - 1].userdata == userdata && err == if userdata.Ok? then None else Some(userdata.error)
      modifies this`err, this`request, this`heard, remote
      ensures remote.answers == before + heard && Conversation(copy, heard)
      ensures |heard| == |old(heard)| + 1
      ensures TheCluster(heard) == TheCluster(old(heard)) && TheSecret(heard) == TheSecret(old(heard))
      ensures if err.Some? then After(copy, heard) == Stop(err.value)
              else
                && After(copy, heard) == AskMaas
                && RightRequest(TheCluster(heard), copy.key.name, copy.instanceType, TheUserdata(heard),
                                TheResources(heard), request)
    {
      var resources := ReadResources(userdata);
      var distro := Images.GetImage(resources, OS_VERSION, cluster.value.k8sVersion, machine.instanceType);
      if distro == "" {
        err := Some(Unrecoverable);
        return;
      }
      request := CreateRequest(cluster.value.name + "-" + machine.key.name, distro,
                               if userdata.Ok? then userdata.value else "", machine.instanceType);
    }

    /** A failed user-data generation is replaced by "unrecoverable" if there is
        no image either. */
    method PrepareMaasRequest()
      requires Asking() && (err.None? ==> CanJoin())
      modifies this`err, this`request, this`heard, remote
      ensures Asking() && (old(err).Some? ==> err == old(err) && heard == old(heard))
      ensures err.None? ==> After(copy, heard) == AskMaas && Prepared()
    {
      if err.Some? {
        return;
      }
      if !isMaster {
        WorkerSecret(copy, heard);
      }
      var bundle := CertBundle.CABundleFromMap(secret);
      if bundle.Err? {
        err := Some(Other);
        return;
      }
      CompleteRequest(bundle.value);
    }

    method CompleteRequest(bundle: CertBundle.Bundle)
      requires Asking() && err == None && CanJoin() && |heard| > 1 && CertBundle.Agrees(bundle, TheSecret(heard))
      modifies this`err, this`request, this`heard, remote
      ensures remote.answers == before + heard && Conversation(copy, heard) && |heard| > 1
      ensures TheCluster(heard) == TheCluster(old(heard)) && TheSecret(heard) == TheSecret(old(heard))
      ensures if err.Some? then Ended(copy, heard, err.value)
              else
                && After(copy, heard) == AskMaas
                && RightRequest(TheCluster(heard), copy.key.name, copy.instanceType, TheUserdata(heard),
                                TheResources(heard), request)
    {
      var userdata := MakeUserdata(bundle);
      FinishRequest(userdata);
    }

    method FinishRequest(userdata: Result<string, PassError>)
      requires remote.answers == before + heard && Conversation(copy, heard) && machine == copy && err == None
      requires |heard| > 1 && cluster == Some(TheCluster(heard))
      requires heard[|heard| - 1].UserdataMade? && heard[|heard| - 1].userdata == userdata
      requires userdata == Err(Crashed) ==> Ended(copy, heard, Crashed)
      modifies this`err, this`request, this`heard, remote
      ensures remote.answers == before + heard && Conversation(copy, heard)
      ensures |heard| >= |old(heard)|
      ensures TheCluster(heard) == TheCluster(old(heard)) && TheSecret(heard) == TheSecret(old(heard))
      ensures if err.Some? then Ended(copy, heard, err.value)
              else
                && After(copy, heard) == AskMaas
                && RightRequest(TheCluster(heard), copy.key.name, copy.instanceType, TheUserdata(heard),
                                TheResources(heard), request)
    {
      if userdata.Err? {
        err := Some(userdata.error);
        if userdata.error == Crashed {
          return;
        }
      }
      BuildRequest(userdata);
    }

    /** masterUserdata and workerUserdata. */
    method MakeUserdata(bundle: CertBundle.Bundle) returns (userdata: Result<string, PassError>)
      requires Asking() && err == None && CanJoin() && |heard| > 1 && CertBundle.Agrees(bundle, TheSecret(heard))
      modifies this`heard, remote
      ensures remote.answers == before + heard && Conversation(copy, heard)
      ensures |heard| == |old(heard)| + 1
      ensures TheCluster(heard) == TheCluster(old(heard)) && TheSecret(heard) == TheSecret(old(heard))
      ensures heard[|heard| - 1].UserdataMade? && heard[|heard| - 1].userdata == userdata
      ensures userdata.Err? ==> userdata.error == Other || userdata.error == Crashed
      ensures userdata == Err(Crashed) ==> Ended(copy, heard, Crashed)
    {
      var join := if isMaster then None else Some(Join(token, cluster.value.endpoint));
      var input := UserdataInput(machine.key.name, machine.labels, machine.instanceType, bundle, join);
      userdata := remote.MakeUserdata(input);
      HearUserdata(copy, heard, input, userdata);
      heard := heard + [UserdataMade(input, userdata)];
    }

    /** MAAS is called exactly if no step before this one failed. A system without
        addresses is given back at once, and nothing says so to later steps. */
    method DoMaasCreate()
        returns (ghost events: seq<Event>, ghost answers: seq<Result<CreateResponse, ()>>, ghost calls: seq<Call>)
      requires maas.plane == plane && plane.Valid() && plane.state.maas.held == {} && response == NO_RESPONSE
      modifies this`err, this`response, maas`answers, plane
      ensures plane.Valid() && old(plane.state).past <= plane.state.past && plane.lost == old(plane.lost)
      ensures Follows(MachineController, old(plane.log), plane.log, events)
      ensures maas.answers == old(maas.answers) + answers && plane.calls == old(plane.calls) + calls
      ensures if old(err).Some? then
                && err == old(err) && response == NO_RESPONSE && events == [] && answers == [] && calls == []
                && plane.log == old(plane.log) && plane.state == old(plane.state)
              else
                MaasTrace(request, err, response, answers, calls, events, plane.state.maas.held)
      ensures plane.state.maas.abandoned == old(plane.state).maas.abandoned
      ensures plane.state.maas.releasedFor == old(plane.state).maas.releasedFor
    {
      if err.Some? {
        ForeignIsSilent(MachineController, plane.log, plane.log);
        return [], [], [];
      }
      ghost var l0 := plane.log;
      var created;
      created, events, calls := maas.Create(request);
      answers := [created];
      if created.Err? {
        assert created.error == ();
        err := Some(Other);
        return;
      }
      assert |calls| == 2 && calls[..2] == calls;
      if created.value.ips == [] {
        ghost var l1 := plane.log;
        var deleted, released := maas.Delete(created.value.systemId, None);
        FollowsTransitive(MachineController, l0, l1, plane.log, events, released);
        events, calls := events + released, calls + [ReleaseCall(created.value.systemId)];
        err := if deleted.Ok? then None else Some(Other);
        return;
      }
      response := created.value;
    }

    /** For a master. An error here is not a release error: whatever the pass
        holds is then forgotten. The kubeconfig is encoded only if the bundle
        can be read and MAAS has reported an address, and stored only if it was
        encoded; nothing but the kubeconfig changes in the secret. */
    method CreateKubeconfig() returns (ghost published: seq<Published>)
      requires err.None? ==> cluster.Some?
      modifies this`err, this`secret, publisher
      ensures publisher.answers == old(publisher.answers) + published
      ensures if old(err).Some? || !isMaster then
                err == old(err) && secret == old(secret) && published == []
              else if !CertBundle.HasAllKeys(old(secret)) then
                err == Some(Other) && published == []
              else if response.ips == [] then
                err == Some(Crashed) && published == []
              else
                KubeconfigTrace(cluster.value, old(secret), response, published, err)
      ensures secret == old(secret) || ClusterWorld.AddsKubeconfig(old(secret), secret)
    {
      published := [];
      if err.Some? || !isMaster {
        return;
      }
      var bundle := CertBundle.CABundleFromMap(secret);
      if bundle.Err? {
        err := Some(Other);
        return;
      }
      if response.ips == [] {
        // Indexing the empty list of addresses ends the pass.
        err := Some(Crashed);
        return;
      }
      var address := "https://" + response.ips[0] + API_PORT;
      var kubeconfig := publisher.Encode(bundle.value, cluster.value.name, address);
      published := [Encoded(bundle.value, cluster.value.name, address, kubeconfig)];
      if kubeconfig.Err? {
        err := Some(Other);
        return;
      }
      var data := new CertBundle.SecretData(secret);
      data.AddKubeconfig(kubeconfig.value);
      var updated := publisher.Store(secret, data.data);
      secret := data.data;
      published := published + [Stored(secret, updated)];
      if updated.Err? {
        err := Some(FromApi(updated.error));
      }
    }

    /** For a master. The write is tried even if the read before it failed; then
        it is of an empty object. Nothing but the endpoint changes. */
    method UpdateCluster() returns (ghost published: seq<Published>)
      requires err.None? && isMaster ==> response.ips != []
      modifies this`err, publisher
      ensures publisher.answers == old(publisher.answers) + published
      ensures if old(err).Some? || !isMaster then err == old(err) && published == []
              else AddressTrace(response, published, err)
    {
      if err.Some? || !isMaster {
        return [];
      }
      var latest := ClusterWorld.NO_CLUSTER;
      var read := publisher.GetCluster();
      if read.Err? {
        err := Some(NeedsRelease(response.systemId));
      } else {
        latest := read.value;
      }
      var c := latest.(endpoint := response.ips[0] + API_PORT);
      var updated := publisher.UpdateCluster(latest, c);
      published := [ClusterRead(read), ClusterWritten(c, updated)];
      if updated.Err? {
        err := Some(NeedsRelease(response.systemId));
      }
    }

    /** createKubeconfig and updateCluster, one after the other. */
    method PublishMaster() returns (ghost published: seq<Published>)
      requires isMaster && (err.None? ==> cluster.Some? && CertBundle.HasAllKeys(secret))
      modifies this`err, this`secret, publisher
      ensures publisher.answers == old(publisher.answers) + published
      ensures cluster.Some? ==> PublishStep(cluster.value, old(secret), response, old(err), published, err)
      ensures old(err).Some? ==> err == old(err) && published == []
    {
      ghost var secret0 := secret;
      var first := CreateKubeconfig();
      ghost var ended := err;
      var second := UpdateCluster();
      published := first + second;
      if first != [] {
        PublishedInTurn(cluster.value, secret0, response, first, ended, second, err);
      }
    }

    /** The new contents of the machine object. */
    method FillMachine()
      requires cluster.Some? && response.ips != []
      modifies this`machine
      ensures machine == old(machine).(
                phase := Creating,
                k8sVersion := cluster.value.k8sVersion,
                systemId := response.systemId,
                host := response.ips[0],
                finalizers := WithFinalizer(old(machine).finalizers),
                annotations := old(machine).annotations["maas-ip" := response.ips[0]]
                                                       ["maas-system-id" := response.systemId]
                                                       ["maas-hostname" := response.hostname])
    {
      var listed := Util.ContainsString(machine.finalizers, MACHINE_FINALIZER);
      if !listed {
        machine := machine.(finalizers := machine.finalizers + [MACHINE_FINALIZER]);
      }
      machine := machine.(phase := Creating);
      machine := machine.(k8sVersion := cluster.value.k8sVersion);
      machine := machine.(systemId := response.systemId);
      machine := machine.(host := response.ips[0]);
      machine := machine.(annotations := machine.annotations["maas-ip" := response.ips[0]]);
      machine := machine.(annotations := machine.annotations["maas-system-id" := response.systemId]);
      machine := machine.(annotations := machine.annotations["maas-hostname" := response.hostname]);
    }

    /** Records the system in the machine object, together with the finalizer. */
    method UpdateMachine() returns (ghost events: seq<Event>, ghost calls: seq<Call>)
      requires plane.Valid() && machine == copy && copy in plane.state.past && copy.phase == Unset
      requires err.None? ==> cluster.Some?
      requires err.None? && response.ips != [] ==>
                 response.systemId != "" && plane.state.maas.held == {response.systemId}
      modifies this`err, this`machine, plane
      ensures plane.Valid() && old(plane.state).past <= plane.state.past && old(plane.lost) <= plane.lost
      ensures Follows(MachineController, old(plane.log), plane.log, events)
      ensures plane.calls == old(plane.calls) + calls
      ensures old(err).Some? ==> err == old(err) && calls == [] && events == []
      ensures cluster.Some? ==>
                UpdateStep(copy, cluster.value, response, old(err), old(plane.state).maas.held, err, calls, events,
                           plane.state.maas.held, plane.lost)
      ensures old(err).Some? || response.ips == [] ==>
                machine == old(machine) && plane.log == old(plane.log) && plane.state == old(plane.state)
      ensures machine.key == old(machine).key && machine.instanceType == old(machine).instanceType
      ensures plane.state.maas.abandoned == old(plane.state).maas.abandoned
      ensures plane.state.maas.releasedFor == old(plane.state).maas.releasedFor
    {
      events, calls := [], [];
      ForeignIsSilent(MachineController, plane.log, plane.log);
      if err.Some? {
        return;
      }
      if response.ips == [] {
        // Indexing the empty list of addresses ends the pass.
        err := Some(Crashed);
        return;
      }
      FillMachine();
      Lifecycle.RunKeepsInv(plane.start, plane.log);
      assert Lifecycle.MachineOk(copy);
      ghost var l0 := plane.log;
      var r, applied := plane.Update(MachineController, machine, copy);
      calls := [UpdateCall(machine, r)];
      if applied {
        OneOwnStep(MachineController, l0, plane.log, Step(MachineController, Write(machine)));
        events := [Write(machine)];
      } else {
        ForeignIsSilent(MachineController, l0, plane.log);
      }
      if r.Err? {
        err := Some(NeedsRelease(response.systemId));
      }
    }

    /** The steps of a master up to the request. */
    method PrepareMaster()
      requires isMaster && Asking() && err == None && heard == []
      modifies this`err, this`cluster, this`secret, this`request, this`heard, remote
      ensures Asking() && (err.None? ==> After(copy, heard) == AskMaas && Prepared())
    {
      GetCluster();
      GetClusterSecret();
      PrepareMaasRequest();
    }

    /** The steps of a worker up to the request. */
    method PrepareWorker()
      requires !isMaster && Asking() && err == None && heard == [] && token == ""
      modifies this`err, this`cluster, this`secret, this`clientset, this`token, this`credential, this`credentialAt
      modifies this`request, this`heard, remote, clock
      ensures Asking()
      ensures err.None? ==>
                After(copy, heard) == AskMaas && Prepared() && old(clock.now) <= credentialAt <= clock.now
    {
      GetCluster();
      GetClusterSecret();
      JoinCluster();
      PrepareMaasRequest();
    }

    /** What only a worker does before its request. */
    method JoinCluster()
      requires !isMaster && Asking() && token == ""
      requires err.None? ==> |heard| == 2 && heard[1].SecretRead? && heard[1].secret.Ok?
      modifies this`err, this`clientset, this`token, this`credential, this`credentialAt, this`heard, remote, clock
      ensures Asking() && old(clock.now) <= clock.now
      ensures err.None? ==> CanJoin() && old(clock.now) <= credentialAt <= clock.now
    {
      CreateClientsetFromSecret();
      GetToken();
      CheckApiserverAddress();
    }

    method GetToken()
      requires !isMaster && Asking() && (err.None? ==> |heard| == 3 && After(copy, heard) == AskTokens) && token == ""
      modifies this`err, this`token, this`credential, this`credentialAt, this`heard, clock, remote
      ensures Asking() && old(clock.now) <= clock.now
      ensures err.None? ==>
                |heard| > 3 && HasToken() && HeardToken(heard, token) && old(clock.now) <= credentialAt <= clock.now
    {
      CheckIfTokenExists();
      CreateToken();
    }

    /** The creator obeyed Outcome, and changed no more of its machine. */
    ghost predicate Finished(given: Given, calls: seq<Call>, events: seq<Event>)
      reads this, plane
    {
      && plane.Valid()
      && Outcome(copy, err, given, calls, events, plane.state.maas.held, plane.lost)
      && machine.key == copy.key && machine.instanceType == copy.instanceType
      && (err.Some? && !err.value.NeedsRelease? ==> machine == copy)
    }

    /** What the steps from the MAAS call on start from. */
    ghost predicate CanDeploy()
      reads this, plane
    {
      && maas.plane == plane && plane.Valid() && plane.state.maas.held == {}
      && machine == copy && copy in plane.state.past && copy.phase == Unset && response == NO_RESPONSE
      && (isMaster <==> Master(copy)) && (err.None? ==> cluster.Some? && (isMaster ==> CertBundle.HasAllKeys(secret)))
    }

    /** The steps of a master from the MAAS call on. */
    method DeployMaster() returns (ghost d: Deployment)
      requires isMaster && CanDeploy()
      modifies this`err, this`secret, this`response, this`machine, maas`answers, publisher, plane
      ensures plane.Valid() && old(plane.state).past <= plane.state.past && old(plane.lost) <= plane.lost
      ensures Follows(MachineController, old(plane.log), plane.log, d.events1 + d.events2)
      ensures plane.calls == old(plane.calls) + (d.calls1 + d.calls2)
      ensures maas.answers == old(maas.answers) + d.answers
      ensures publisher.answers == old(publisher.answers) + d.published
      ensures d.request == request
      ensures if old(err).Some? then NothingDone(d, old(err), err, plane.state.maas.held)
              else Deploys(copy, cluster.value, old(secret), d, err, plane.state.maas.held, plane.lost)
      ensures machine.key == copy.key && machine.instanceType == copy.instanceType
      ensures err.Some? && !err.value.NeedsRelease? ==> machine == copy
      ensures plane.state.maas.abandoned == old(plane.state).maas.abandoned
      ensures plane.state.maas.releasedFor == old(plane.state).maas.releasedFor
    {
      ghost var l0 := plane.log;
      var events1, answers, calls1 := DoMaasCreate();
      ghost var l1, asked, held := plane.log, err, plane.state.maas.held;
      var published := PublishMaster();
      ghost var announced := err;
      var events2, calls2 := UpdateMachine();
      FollowsTransitive(MachineController, l0, l1, plane.log, events1, events2);
      d := Deployment(request, response, answers, published, asked, announced, calls1, calls2, events1, events2, held);
    }

    /** The steps of a worker from the MAAS call on. */
    method DeployWorker() returns (ghost d: Deployment)
      requires !isMaster && CanDeploy()
      modifies this`err, this`response, this`machine, maas`answers, plane
      ensures plane.Valid() && old(plane.state).past <= plane.state.past && old(plane.lost) <= plane.lost
      ensures Follows(MachineController, old(plane.log), plane.log, d.events1 + d.events2)
      ensures plane.calls == old(plane.calls) + (d.calls1 + d.calls2)
      ensures maas.answers == old(maas.answers) + d.answers
      ensures d.published == []
      ensures d.request == request
      ensures if old(err).Some? then NothingDone(d, old(err), err, plane.state.maas.held)
              else Deploys(copy, cluster.value, old(secret), d, err, plane.state.maas.held, plane.lost)
      ensures machine.key == copy.key && machine.instanceType == copy.instanceType
      ensures err.Some? && !err.value.NeedsRelease? ==> machine == copy
      ensures plane.state.maas.abandoned == old(plane.state).maas.abandoned
      ensures plane.state.maas.releasedFor == old(plane.state).maas.releasedFor
    {
      ghost var l0 := plane.log;
      var events1, answers, calls1 := DoMaasCreate();
      ghost var l1, asked, held := plane.log, err, plane.state.maas.held;
      ghost var announced, published := err, [];
      var events2, calls2 := UpdateMachine();
      FollowsTransitive(MachineController, l0, l1, plane.log, events1, events2);
      d := Deployment(request, response, answers, published, asked, announced, calls1, calls2, events1, events2, held);
    }

    /** A new creator. */
    ghost predicate Begins()
      reads this, remote, plane
    {
      && maas.plane == plane && plane.Valid() && plane.state.maas.held == {}
      && copy in plane.state.past && copy.phase == Unset && response == NO_RESPONSE && Asking()
    }

    /** The whole pipeline of a master. */
    method RunMaster() returns (ghost events: seq<Event>, ghost calls: seq<Call>, ghost given: Given)
      requires isMaster && err == None && heard == [] && Begins()
      modifies this, maas`answers, remote, publisher, plane
      ensures Finished(given, calls, events) && given.heard == heard && remote.answers == before + heard
      ensures old(plane.state).past <= plane.state.past && old(plane.lost) <= plane.lost
      ensures Follows(MachineController, old(plane.log), plane.log, events)
      ensures plane.calls == old(plane.calls) + calls
      ensures maas.answers == old(maas.answers) + given.maas
          && publisher.answers == old(publisher.answers) + given.published
      ensures given.maas != [] ==> Prepared()
      ensures plane.state.maas.abandoned == old(plane.state).maas.abandoned
      ensures plane.state.maas.releasedFor == old(plane.state).maas.releasedFor
    {
      PrepareMaster();
      ghost var asking := err;
      var d := DeployMaster();
      PipelineOutcome(copy, heard, asking, d, err, plane.state.maas.held, plane.lost);
      events, calls, given := d.events1 + d.events2, d.calls1 + d.calls2, Given(d.answers, d.published, heard);
    }

    /** The whole pipeline of a worker. */
    method RunWorker() returns (ghost events: seq<Event>, ghost calls: seq<Call>, ghost given: Given)
      requires !isMaster && err == None && heard == [] && token == "" && Begins()
      modifies this, maas`answers, remote, plane, clock
      ensures Finished(given, calls, events) && given.heard == heard && remote.answers == before + heard
      ensures old(plane.state).past <= plane.state.past && old(plane.lost) <= plane.lost
      ensures Follows(MachineController, old(plane.log), plane.log, events)
      ensures plane.calls == old(plane.calls) + calls
      ensures maas.answers == old(maas.answers) + given.maas && given.published == []
      ensures given.maas != [] ==> Prepared() && old(clock.now) <= credentialAt <= clock.now
      ensures plane.state.maas.abandoned == old(plane.state).maas.abandoned
      ensures plane.state.maas.releasedFor == old(plane.state).maas.releasedFor
    {
      PrepareWorker();
      ghost var asking := err;
      var d := DeployWorker();
      PipelineOutcome(copy, heard, asking, d, err, plane.state.maas.held, plane.lost);
      events, calls, given := d.events1 + d.events2, d.calls1 + d.calls2, Given(d.answers, d.published, heard);
    }
  }

  /** The order of the steps is the order of the pipeline; the machine is a
      master if one of its roles says so. MAAS is called for a worker only if the
      secret that was read holds a kubeconfig and a client was built from it; if it
      holds none, the pass ends there, not ready, and asks for no token. */
  method Create(plane: Plane, maas: Client, remote: Remote, publisher: Publisher, clock: Tokens.Clock, machine: Machine)
    returns (c: Creator, ghost events: seq<Event>, ghost calls: seq<Call>, ghost given: Given)
    requires maas.plane == plane && plane.Valid() && plane.state.maas.held == {}
    requires machine in plane.state.past && machine.phase == Unset
    modifies maas`answers, remote, publisher, plane, clock
    ensures fresh(c) && c.plane == plane && c.copy == machine && c.isMaster == (ROLE_MASTER in machine.roles)
    ensures c.Finished(given, calls, events) && given.heard == c.heard
    ensures old(plane.state).past <= plane.state.past && old(plane.lost) <= plane.lost
    ensures Follows(MachineController, old(plane.log), plane.log, events)
    ensures plane.calls == old(plane.calls) + calls
    ensures maas.answers == old(maas.answers) + given.maas
        && publisher.answers == old(publisher.answers) + given.published
        && remote.answers == old(remote.answers) + given.heard
    ensures given.maas != [] ==> c.Prepared() && (!c.isMaster ==> old(clock.now) <= c.credentialAt <= clock.now)
    ensures given.maas != [] && !c.isMaster ==> ReachesCluster(given.heard)
    ensures !c.isMaster && LacksKubeconfig(given.heard) ==>
              c.err == Some(NotReady) && given.maas == [] && calls == [] && |given.heard| == 2
    ensures plane.state.maas.abandoned == old(plane.state).maas.abandoned
    ensures plane.state.maas.releasedFor == old(plane.state).maas.releasedFor
  {
    var isMaster := false;
    for i := 0 to |machine.roles|
      invariant !isMaster && ROLE_MASTER !in machine.roles[..i]
    {
      if machine.roles[i] == ROLE_MASTER {
        isMaster := true;
        break;
      }
    }
    c := new Creator(plane, maas, remote, publisher, clock, machine, isMaster);
    if isMaster {
      events, calls, given := c.RunMaster();
    } else {
      events, calls, given := c.RunWorker();
      WorkerNeedsKubeconfig(machine, c.err, given, calls, events, plane.state.maas.held, plane.lost);
    }
  }
}
