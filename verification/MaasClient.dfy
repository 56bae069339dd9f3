/** The MAAS client of pkg/maas/client.go. */
module MaasClient {
  import opened Objects
  import opened World
  import opened ControlPlane

  datatype CreateRequest = CreateRequest(providerID: string, distro: string, userdata: string, instanceType: string)

  datatype CreateResponse = CreateResponse(providerID: string, ips: seq<string>, systemId: string, hostname: string)

  const NO_REQUEST := CreateRequest("", "", "", "")
  const NO_RESPONSE := CreateResponse("", [], "", "")

  /** The calls by which Create answers a request: a system with the tag of the
      instance type is allocated, started with the user data and the image, and
      released again if the start failed. */
  ghost predicate Answered(request: CreateRequest, calls: seq<Call>, r: Result<CreateResponse, ()>) {
    match r
    case Ok(response) =>
      response.systemId != "" && response.providerID == request.providerID
      && calls == [AllocateCall(request.instanceType, Ok(response.systemId)),
                   StartCall(response.systemId, request.userdata, request.distro,
                             Ok(Started(response.ips, response.hostname)))]
    case Err(_) =>
      || calls == [AllocateCall(request.instanceType, Err(()))]
      || exists x: string :: calls == [AllocateCall(request.instanceType, Ok(x)),
                                       StartCall(x, request.userdata, request.distro, Err(())), ReleaseCall(x)]
  }

  class Client {
    const plane: Plane
    /** What Create has answered so far, oldest first. */
    var answers: seq<Result<CreateResponse, ()>>

    constructor (plane: Plane)
      ensures this.plane == plane && answers == []
    {
      this.plane, answers := plane, [];
    }

    /** Allocates a system and starts it. If the start fails the system is
        given back; an answer means that the pass now holds the system. */
    method Create(request: CreateRequest) returns (r: Result<CreateResponse, ()>, ghost events: seq<Event>,
                                                     ghost calls: seq<Call>)
      requires plane.Valid() && plane.state.maas.held == {}
      modifies this`answers, plane
      ensures plane.calls == old(plane.calls) + calls && Answered(request, calls, r)
      ensures plane.Valid() && old(plane.state).past <= plane.state.past && plane.lost == old(plane.lost)
      ensures answers == old(answers) + [r]
      ensures Follows(MachineController, old(plane.log), plane.log, events)
      ensures r.Ok? ==>
                && events == [Allocate(r.value.systemId)]
                && r.value.systemId != "" && r.value.providerID == request.providerID
                && plane.state.maas.held == {r.value.systemId}
                && plane.state.maas.open == old(plane.state).maas.open + {r.value.systemId}
      ensures r.Err? ==>
                && plane.state.maas.held == {}
                && plane.state.maas.open <= old(plane.state).maas.open
                && (events == [] || exists x, freed :: events == [Allocate(x), Release(x, freed, None)])
      ensures plane.state.maas.abandoned == old(plane.state).maas.abandoned
      ensures plane.state.maas.releasedFor == old(plane.state).maas.releasedFor
    {
      ghost var l0 := plane.log;
      var m := plane.AllocateMachine(request.instanceType);
      calls := [AllocateCall(request.instanceType, m)];
      if m.Err? {
        ForeignIsSilent(MachineController, l0, plane.log);
        assert m.error == ();
        r, events := Err(()), [];
        answers := answers + [r];
        return;
      }
      ghost var l1 := plane.log;
      OneOwnStep(MachineController, l0, l1, Step(MachineController, Allocate(m.value)));
      var started := plane.StartMachine(m.value, request.userdata, request.distro);
      calls := calls + [StartCall(m.value, request.userdata, request.distro, started)];
      if started.Err? {
        assert started.error == ();
        var _, released := Delete(m.value, None);
        FollowsTransitive(MachineController, l0, l1, plane.log, [Allocate(m.value)], released);
        r, events := Err(()), [Allocate(m.value)] + released;
        calls := [AllocateCall(request.instanceType, Ok(m.value)),
                  StartCall(m.value, request.userdata, request.distro, Err(())), ReleaseCall(m.value)];
        answers := answers + [r];
        return;
      }
      r := Ok(CreateResponse(request.providerID, started.value.ips, m.value, started.value.hostname));
      events := [Allocate(m.value)];
      answers := answers + [r];
    }

    /** Requests the release of a system; what MAAS makes of it does not matter
        to the caller. Without a system id nothing is requested. */
    method Delete(systemId: string, cause: Option<nat>) returns (r: Result<(), ()>, ghost events: seq<Event>)
      requires plane.Valid()
      requires cause.Some? && systemId != "" ==>
                 exists p :: p in plane.state.past && p.uid == cause.value && p.phase == Deleting
                     && p.systemId == systemId
      modifies plane
      ensures plane.calls == old(plane.calls) + if systemId != "" then [ReleaseCall(systemId)] else []
      ensures plane.Valid() && old(plane.state).past <= plane.state.past && plane.lost == old(plane.lost)
      ensures Follows(MachineController, old(plane.log), plane.log, events)
      ensures r.Ok? <==> systemId != ""
      ensures r.Err? ==> events == [] && plane.log == old(plane.log) && plane.state == old(plane.state)
      ensures r.Ok? ==> exists freed :: events == [Release(systemId, freed, cause)]
      ensures plane.state.maas.open == old(plane.state).maas.open - if r.Ok? then {systemId} else {}
      ensures plane.state.maas.held == old(plane.state).maas.held - if r.Ok? then {systemId} else {}
      ensures plane.state.maas.abandoned == old(plane.state).maas.abandoned
      ensures plane.state.maas.releasedFor ==
              old(plane.state).maas.releasedFor + if r.Ok? && cause.Some? then {cause.value} else {}
    {
      if systemId == "" {
        ForeignIsSilent(MachineController, plane.log, plane.log);
        return Err(()), [];
      }
      var freed := plane.ReleaseMachines(systemId, cause);
      OneOwnStep(MachineController, old(plane.log), plane.log,
          Step(MachineController, Release(systemId, freed, cause)));
      return Ok(()), [Release(systemId, freed, cause)];
    }
  }
}
