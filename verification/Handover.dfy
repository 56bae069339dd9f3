/** Which systems the running pass holds, read off the machine controller's own
    steps. */
module Handover {
  import opened World
  import opened ControlPlane
  import opened Uniqueness

  /** What one own step makes of the systems known to be held. */
  function HeldBy(held: set<string>, e: Event): set<string> {
    match e
    case Allocate(x) => if x == "" then held else held + {x}
    case Release(x, _, _) => held - {x}
    case Write(m) => held - {m.systemId}
    case EndPass => {}
    case _ => held
  }

  /** Systems that are held after these own steps, whatever was held before. */
  function HeldAfter(events: seq<Event>): set<string> {
    if events == [] then {} else HeldBy(HeldAfter(events[..|events| - 1]), events[|events| - 1])
  }

  lemma HeldAfterSnoc(events: seq<Event>, e: Event)
    ensures HeldAfter(events + [e]) == HeldBy(HeldAfter(events), e)
  {
    assert (events + [e])[..|events|] == events;
  }

  lemma OwnStepHolds(s: State, step: Step, events: seq<Event>)
    requires step.actor == MachineController && HeldAfter(events) <= s.maas.held
    ensures HeldAfter(events + [step.event]) <= Next(s, step).maas.held
  {
    HeldAfterSnoc(events, step.event);
  }

  /** In every run all those systems are held. */
  lemma {:induction false} HeldAfterIsHeld(s: State, log: seq<Step>)
    ensures HeldAfter(Own(MachineController, log, 0)) <= Exec(s, log).maas.held
  {
    if log != [] {
      var front, step := log[..|log| - 1], log[|log| - 1];
      HeldAfterIsHeld(s, front);
      if step.actor == MachineController {
        OwnStepHolds(Exec(s, front), step, Own(MachineController, front, 0));
      } else {
        ForeignStepKeepsMaas(Exec(s, front), step);
        assert Own(MachineController, log, 0) == Own(MachineController, front, 0);
      }
    }
  }

  /** A release for no deletion is of a system held after the steps before it. */
  predicate GivesBackHeld(events: seq<Event>) {
    forall n {:trigger events[n]} :: 0 <= n < |events| ==>
      events[n].Release? && events[n].cause.None? && events[n].systemId != "" ==>
        events[n].systemId in HeldAfter(events[..n])
  }

  lemma {:induction false} MoreIsHeld(before: seq<Event>, events: seq<Event>)
    ensures HeldAfter(events) <= HeldAfter(before + events)
  {
    if events != [] {
      var front, last := events[..|events| - 1], events[|events| - 1];
      MoreIsHeld(before, front);
      HeldAfterSnoc(front, last);
      HeldAfterSnoc(before + front, last);
      assert events == front + [last];
      assert before + events == (before + front) + [last];
    }
  }

  lemma GivesBackJoin(a: seq<Event>, b: seq<Event>)
    requires GivesBackHeld(a) && GivesBackHeld(b)
    ensures GivesBackHeld(a + b)
  {
    var all := a + b;
    forall n {:trigger all[n]} | 0 <= n < |all|
      ensures all[n].Release? && all[n].cause.None? && all[n].systemId != "" ==> all[n].systemId in HeldAfter(all[..n])
    {
      if n < |a| {
        assert all[..n] == a[..n] && all[n] == a[n];
      } else {
        assert all[..n] == a + b[..n - |a|] && all[n] == b[n - |a|];
        MoreIsHeld(a, b[..n - |a|]);
      }
    }
  }

  /** Where step i of the run stands among the own steps. */
  lemma {:induction false} OwnAt(me: Actor, log: seq<Step>, i: nat)
    requires i < |log| && log[i].actor == me
    ensures var n, own := |Own(me, log[..i], 0)|, Own(me, log, 0);
            n < |own| && own[n] == log[i].event && own[..n] == Own(me, log[..i], 0)
  {
    var front := log[..|log| - 1];
    if i == |log| - 1 {
      assert front == log[..i];
    } else {
      OwnAt(me, front, i);
      assert front[..i] == log[..i];
    }
  }

  lemma GivesBackMeansHeld(s: State, log: seq<Step>)
    requires GivesBackHeld(Own(MachineController, log, 0))
    ensures ReleasesOnlyHeld(s, log)
  {
    forall i | 0 <= i < |log| && Enabled(Exec(s, log[..i]), log[i]) && log[i].event.Release? && log[i].event.cause.None?
      ensures log[i].event.systemId in Exec(s, log[..i]).maas.held
    {
      OwnAt(MachineController, log, i);
      HeldAfterIsHeld(s, log[..i]);
      assert Own(MachineController, log, 0)[|Own(MachineController, log[..i], 0)|] == log[i].event;
    }
  }
}
