/** What create asks, in which order, before it calls MAAS
    (pkg/controller/machine/create.go:70-307): for any answers heard so far, the
    next question, or how the pass ends. */
module Preparation {
  import opened Objects
  import opened Outside
  import opened MaasClient
  import CertBundle
  import Images
  import Tokens

  const OS_VERSION := "ubuntu-xenial"

  datatype Turn =
    | AskClusters
    | AskSecret
    | AskClient
    | AskTokens
    | ChooseToken
    | AskStore
    | AskUserdata
    | AskResources
    | AskMaas
    | Stop(error: PassError)

  predicate Master(m: Machine) {
    ROLE_MASTER in m.roles
  }

  // ---- What was heard ---------------------------------------------------------------

  const NO_INFO := ClusterInfo("", "", "", false)

  function TheCluster(heard: seq<Answer>): ClusterInfo {
    if heard != [] && heard[0].ClustersListed? && heard[0].clusters.Ok? && heard[0].clusters.value != []
    then heard[0].clusters.value[0]
    else NO_INFO
  }

  function TheSecret(heard: seq<Answer>): map<string, CertBundle.Bytes> {
    if |heard| > 1 && heard[1].SecretRead? && heard[1].secret.Ok? then heard[1].secret.value else map[]
  }

  /** The answer before the last. */
  function TheUserdata(heard: seq<Answer>): Result<string, PassError> {
    if |heard| > 1 && heard[|heard| - 2].UserdataMade? then heard[|heard| - 2].userdata else Err(Other)
  }

  function TheResources(heard: seq<Answer>): Result<seq<Images.BootResource>, ()> {
    if heard != [] && heard[|heard| - 1].ResourcesRead? then heard[|heard| - 1].resources else Err(())
  }

  /** There is no image for the machine. */
  predicate NoImage(m: Machine, cluster: ClusterInfo, resources: Result<seq<Images.BootResource>, ()>) {
    m.instanceType == "" || cluster.k8sVersion == "" || resources.Err?
        || forall i :: 0 <= i < |resources.value| ==>
             !Images.Offers(resources.value[i], OS_VERSION, cluster.k8sVersion, m.instanceType)
  }

  // ---- The order of questions --------------------------------------------------------

  function BundleTurn(heard: seq<Answer>): Turn {
    if CertBundle.HasAllKeys(TheSecret(heard)) then AskUserdata else Stop(Other)
  }

  /** A worker that has a token needs the address of the API server. */
  function JoinTurn(heard: seq<Answer>): Turn {
    if TheCluster(heard).endpoint == "" then Stop(NotReady) else BundleTurn(heard)
  }

  function SecretTurn(m: Machine, heard: seq<Answer>, r: Result<map<string, CertBundle.Bytes>, ApiError>): Turn {
    if r.Err? then Stop(FromApi(r.error))
    else if Master(m) then BundleTurn(heard)
    else if CertBundle.HasKubeconfig(r.value) then AskClient
    else Stop(NotReady)
  }

  function ResourcesTurn(m: Machine, heard: seq<Answer>): Turn {
    if NoImage(m, TheCluster(heard), TheResources(heard)) then Stop(Unrecoverable)
    else if TheUserdata(heard).Err? then Stop(TheUserdata(heard).error)
    else AskMaas
  }

  function After(m: Machine, heard: seq<Answer>): Turn {
    if heard == [] then AskClusters
    else
      match heard[|heard| - 1]
      case ClustersListed(_, r) =>
        if r.Err? then Stop(FromApi(r.error)) else if r.value == [] then Stop(NotReady) else AskSecret
      case SecretRead(_, r) => SecretTurn(m, heard, r)
      case ClientBuilt(_, built) => if built then AskTokens else Stop(Other)
      case TokensListed(r) =>
        if r.Ok? then ChooseToken else Stop(if r.error == Transport then NotReady else Api(r.error))
      case RandomRead(r) => if r.Some? then AskStore else Stop(Other)
      case TokenStored(_, r) => if r.Err? then Stop(FromApi(r.error)) else JoinTurn(heard)
      case UserdataMade(_, r) => if r == Err(Crashed) then Stop(Crashed) else AskResources
      case ResourcesRead(_) => ResourcesTurn(m, heard)
      case _ => Stop(Other)
  }

  /** The token is one of those listed, or the one that was stored. */
  predicate HeardToken(heard: seq<Answer>, token: string) {
    heard != []
    && match heard[|heard| - 1]
       case TokensListed(Ok(list)) => exists t :: t in list && token == Tokens.TokenText(t.id, t.secret)
       case TokenStored(t, Ok(_)) => token == Tokens.TokenText(t.id, t.secret)
       case _ => false
  }

  /** The user data is made for this machine, from the bundle that was read, and
      for a worker from the token and the address of the API server. */
  predicate RightInput(m: Machine, heard: seq<Answer>, input: UserdataInput) {
    && input.name == m.key.name && input.labels == m.labels && input.instanceType == m.instanceType
    && CertBundle.Agrees(input.bundle, TheSecret(heard))
    && if Master(m) then input.join.None?
       else
         input.join.Some? && input.join.value.endpoint == TheCluster(heard).endpoint
         && HeardToken(heard, input.join.value.token)
  }

  predicate FitsUserdata(m: Machine, heard: seq<Answer>, a: Answer) {
    && a.UserdataMade? && RightInput(m, heard, a.input)
    && (a.userdata.Err? ==> a.userdata.error == Other || a.userdata.error == Crashed)
  }

  /** The answer is one to the next question. */
  predicate Fits(m: Machine, heard: seq<Answer>, a: Answer) {
    match After(m, heard)
    case AskClusters => a.ClustersListed? && a.ns == m.key.ns
    case AskSecret => a.SecretRead? && a.ns == m.key.ns
    case AskClient =>
      && a.ClientBuilt? && CertBundle.HasKubeconfig(TheSecret(heard))
      && a.config == CertBundle.KubeconfigOf(TheSecret(heard))
    case AskTokens => a.TokensListed?
    case ChooseToken => a.RandomRead? || (JoinTurn(heard) == AskUserdata && FitsUserdata(m, heard, a))
    case AskStore => a.TokenStored? && heard[|heard| - 1].RandomRead?
                     && heard[|heard| - 1].random == Some(Random(a.token.id, a.token.secret))
    case AskUserdata => FitsUserdata(m, heard, a)
    case AskResources => a.ResourcesRead?
    case AskMaas => false
    case Stop(_) => false
  }

  /** Every answer is one to the question that was next. */
  predicate Conversation(m: Machine, heard: seq<Answer>) {
    heard == [] || (Conversation(m, heard[..|heard| - 1]) && Fits(m, heard[..|heard| - 1], heard[|heard| - 1]))
  }

  /** Here the pass ends with this error; after a token was chosen from the list
      that may be before another question. */
  predicate Ended(m: Machine, heard: seq<Answer>, e: PassError) {
    After(m, heard) == Stop(e) || (After(m, heard) == ChooseToken && JoinTurn(heard) == Stop(e))
  }

  lemma Hear(m: Machine, heard: seq<Answer>, a: Answer)
    requires Conversation(m, heard) && Fits(m, heard, a)
    ensures Conversation(m, heard + [a])
  {
    assert (heard + [a])[..|heard|] == heard;
  }

  /** What the answer to the last question means. */
  lemma HearResources(m: Machine, heard: seq<Answer>, resources: Result<seq<Images.BootResource>, ()>)
    requires Conversation(m, heard) && |heard| > 1 && heard[|heard| - 1].UserdataMade?
    requires heard[|heard| - 1].userdata != Err(Crashed)
    ensures var all, userdata := heard + [ResourcesRead(resources)], heard[|heard| - 1].userdata;
            && Conversation(m, all) && TheCluster(all) == TheCluster(heard) && TheSecret(all) == TheSecret(heard)
            && TheUserdata(all) == userdata && TheResources(all) == resources
            && After(m, all) == if NoImage(m, TheCluster(heard), resources) then Stop(Unrecoverable)
                                else if userdata.Err? then Stop(userdata.error) else AskMaas
  {
    Hear(m, heard, ResourcesRead(resources));
  }

  lemma HearUserdata(m: Machine, heard: seq<Answer>, input: UserdataInput, userdata: Result<string, PassError>)
    requires Conversation(m, heard) && |heard| > 1 && RightInput(m, heard, input)
    requires userdata.Err? ==> userdata.error == Other || userdata.error == Crashed
    requires CertBundle.HasAllKeys(TheSecret(heard))
    requires if Master(m) then |heard| == 2 && heard[1].SecretRead? && heard[1].secret.Ok?
             else TheCluster(heard).endpoint != ""
    ensures var all := heard + [UserdataMade(input, userdata)];
            && Conversation(m, all) && TheCluster(all) == TheCluster(heard) && TheSecret(all) == TheSecret(heard)
            && (userdata == Err(Crashed) ==> Ended(m, all, Crashed))
  {
    assert BundleTurn(heard) == AskUserdata;
    assert Fits(m, heard, UserdataMade(input, userdata));
    Hear(m, heard, UserdataMade(input, userdata));
  }

  lemma HearStored(m: Machine, heard: seq<Answer>, t: Tokens.TokenSecret, stored: Result<(), ApiError>)
    requires Conversation(m, heard) && |heard| > 3 && heard[|heard| - 1] == RandomRead(Some(Random(t.id, t.secret)))
    ensures var all := heard + [TokenStored(t, stored)];
            && Conversation(m, all) && TheCluster(all) == TheCluster(heard) && TheSecret(all) == TheSecret(heard)
            && if stored.Err? then Ended(m, all, FromApi(stored.error))
               else HeardToken(all, Tokens.TokenText(t.id, t.secret))
  {
    Hear(m, heard, TokenStored(t, stored));
  }

  // ---- What a conversation says -----------------------------------------------------

  /** Once the secret was read, the cluster is known; once more was asked, so is
      the secret. */
  lemma {:induction false} ClusterThenSecret(m: Machine, heard: seq<Answer>)
    requires Conversation(m, heard)
    ensures |heard| > 0 ==> heard[0].ClustersListed? && heard[0].ns == m.key.ns
    ensures |heard| > 1 ==>
              && heard[0].clusters.Ok? && heard[0].clusters.value != []
              && heard[1].SecretRead? && heard[1].ns == m.key.ns
    ensures |heard| > 2 ==>
              && heard[1].secret.Ok?
              && if Master(m) then heard[2].UserdataMade?
                 else CertBundle.HasKubeconfig(TheSecret(heard)) && heard[2].ClientBuilt?
                      && heard[2].config == CertBundle.KubeconfigOf(TheSecret(heard))
    ensures |heard| > 3 && !Master(m) ==> heard[2].built
  {
    if heard != [] {
      ClusterThenSecret(m, heard[..|heard| - 1]);
    }
  }

  lemma WorkerSecret(m: Machine, heard: seq<Answer>)
    requires Conversation(m, heard) && !Master(m) && |heard| > 2
    ensures CertBundle.HasKubeconfig(TheSecret(heard))
  {
    ClusterThenSecret(m, heard);
  }

  /** A worker goes on only with a kubeconfig and a client built from it. */
  lemma WorkerReachesCluster(m: Machine, heard: seq<Answer>)
    requires Conversation(m, heard) && !Master(m) && After(m, heard) == AskMaas
    ensures |heard| > 3 && heard[1].SecretRead? && heard[1].secret.Ok?
    ensures CertBundle.HasKubeconfig(heard[1].secret.value)
    ensures heard[2] == ClientBuilt(heard[1].secret.value[CertBundle.KUBECONFIG_KEY], true)
  {
    ClusterThenSecret(m, heard);
    var front := heard[..|heard| - 1];
    assert Fits(m, front, heard[|heard| - 1]);
    assert front != [] && Fits(m, front[..|front| - 1], front[|front| - 1]);
  }

  /** Without a kubeconfig nothing more is asked: no client, no token. */
  lemma WorkerWaitsForKubeconfig(m: Machine, heard: seq<Answer>)
    requires Conversation(m, heard) && !Master(m) && |heard| > 1
    requires heard[1].SecretRead? && heard[1].secret.Ok? && !CertBundle.HasKubeconfig(heard[1].secret.value)
    ensures |heard| == 2 && After(m, heard) == Stop(NotReady)
  {
    ClusterThenSecret(m, heard);
  }
}
