/** Sequences of service events delivered to the coordinator's watchers, and what
    they do over the coordinator's lifetime. */
module Traces {
  import opened LaunchpadTypes
  import opened CallLog
  import opened ServicesModel

  /** One service event for one watched kind, with the registry's answer to the
      acquire attempt the event may cause. */
  datatype Event = Event(kind: Kind, etype: EventType, answer: Answer)

  /** The framework hands an event to a watcher only while that watcher is
      subscribed (between addServiceListener and removeServiceListener). */
  function Dispatch(s: State, e: Event): State
  {
    if SlotOf(s, e.kind).subscribed then Changed(s, e.kind, e.etype, e.answer) else s
  }

  /** The state after the events are delivered one at a time, in order. */
  function Run(s: State, evs: seq<Event>): State
    decreases |evs|
  {
    if evs == [] then s else Dispatch(Run(s, evs[..|evs| - 1]), evs[|evs| - 1])
  }

  lemma RunSnoc(s: State, evs: seq<Event>, e: Event)
    ensures Run(s, evs + [e]) == Dispatch(Run(s, evs), e)
  {
    assert (evs + [e])[..|evs|] == evs;
  }

  lemma DispatchPreservesInv(s: State, e: Event)
    requires Inv(s)
    ensures Inv(Dispatch(s, e))
  {
    if SlotOf(s, e.kind).subscribed {
      ChangedPreservesInv(s, e.kind, e.etype, e.answer);
    }
  }

  /** Every reachable state satisfies the invariant. */
  lemma {:induction false} RunPreservesInv(s: State, evs: seq<Event>)
    requires Inv(s)
    ensures Inv(Run(s, evs))
    decreases |evs|
  {
    if evs != [] {
      RunPreservesInv(s, evs[..|evs| - 1]);
      DispatchPreservesInv(Run(s, evs[..|evs| - 1]), evs[|evs| - 1]);
    }
  }

  /** Once set, the one-shot flag is never reset. */
  lemma {:induction false} InstalledIsPermanent(s: State, evs: seq<Event>)
    requires s.installed
    ensures Run(s, evs).installed
    decreases |evs|
  {
    if evs != [] {
      InstalledIsPermanent(s, evs[..|evs| - 1]);
    }
  }

  /** Install is called at most once in the coordinator's lifetime, and it has been
      called exactly when the one-shot flag is set. */
  lemma InstallAtMostOnce(s: State, evs: seq<Event>)
    requires Inv(s)
    ensures InstallCount(Run(s, evs).log) <= 1
    ensures InstallCount(Run(s, evs).log) == 1 <==> Run(s, evs).installed
  {
    RunPreservesInv(s, evs);
  }

  /** Starting before install, the one-shot action has fired exactly when some
      prefix of the events left the installer and the provider both held. */
  lemma {:induction false} InstallFiresIffBothEverPresent(s: State, evs: seq<Event>)
    requires Inv(s) && !s.installed
    ensures InstallCount(Run(s, evs).log) == 1 <==>
              exists n :: 0 <= n <= |evs| && BothPresent(Run(s, evs[..n]))
    ensures InstallCount(Run(s, evs).log) <= 1
    decreases |evs|
  {
    InstallAtMostOnce(s, evs);
    if evs == [] {
      assert evs[..0] == evs;
    } else {
      var front, e := evs[..|evs| - 1], evs[|evs| - 1];
      var t := Run(s, front);
      InstallFiresIffBothEverPresent(s, front);
      InstallAtMostOnce(s, front);
      RunPreservesInv(s, front);
      if SlotOf(t, e.kind).subscribed {
        ChangedInstalled(t, e.kind, e.etype, e.answer);
      }
      assert evs[..|evs|] == evs;
      assert forall n :: 0 <= n <= |front| ==> front[..n] == evs[..n];
      if Run(s, evs).installed {
        if !t.installed {
          assert BothPresent(Run(s, evs[..|evs|]));
        }
      } else {
        forall n | 0 <= n <= |evs|
          ensures !BothPresent(Run(s, evs[..n]))
        {
          if n == |evs| {
          } else {
            assert front[..n] == evs[..n];
          }
        }
      }
    }
  }

  /** The mirrored registration is level-triggered: after any events, it is
      published iff a startup handler is held, and it wraps that handler. */
  lemma RegistrationFollowsHandler(s: State, evs: seq<Event>)
    requires Inv(s)
    ensures Run(s, evs).reg.Some? <==> Present(Run(s, evs).startup)
    ensures Run(s, evs).reg == Mirror(Run(s, evs).startup)
    ensures Outstanding(Run(s, evs).log) == Run(s, evs).reg
  {
    RunPreservesInv(s, evs);
  }

  /** The registration does not depend on the order or history of events: two
      runs that end holding the same startup handler hold the same registration. */
  lemma RegistrationIsOrderIndependent(s1: State, evs1: seq<Event>, s2: State, evs2: seq<Event>)
    requires Inv(s1) && Inv(s2)
    requires Run(s1, evs1).startup.service == Run(s2, evs2).startup.service
    ensures Run(s1, evs1).reg == Run(s2, evs2).reg
  {
    RunPreservesInv(s1, evs1);
    RunPreservesInv(s2, evs2);
  }

  /** Publish and withdraw calls strictly alternate, starting with a publish, over
      any run. */
  lemma PublishWithdrawAlternate(s: State, evs: seq<Event>)
    requires Inv(s)
    ensures var t := Toggles(Run(s, evs).log);
            (forall i :: 0 <= i < |t| ==> (t[i].RegisterCall? <==> i % 2 == 0)) &&
            (forall i :: 0 < i < |t| && t[i].UnregisterCall? ==> t[i].reg == t[i - 1].reg) &&
            (Run(s, evs).reg.Some? <==> |t| % 2 == 1)
  {
    RunPreservesInv(s, evs);
    TogglesAlternate(Run(s, evs).log);
  }

  /** After deactivate, delivered events have no effect at all. */
  lemma {:induction false} DeactivatedIsInert(s: State, evs: seq<Event>)
    ensures Run(Deactivate(s), evs) == Deactivate(s)
    decreases |evs|
  {
    if evs != [] {
      DeactivatedIsInert(s, evs[..|evs| - 1]);
    }
  }

  // ---------------------------------------------------------------- scenarios

  /** A coordinator constructed while none of the three services is available. */
  function Idle(): State
  {
    Init(Answer(None, None), Answer(None, None), Answer(None, None))
  }

  const Waiting := Slot(None, None, true)

  function Arrive(k: Kind, r: Ref, x: Instance): Event
  {
    Event(k, Registered, Answer(Some(r), Some(x)))
  }

  function Leave(k: Kind): Event
  {
    Event(k, Unregistering, Answer(None, None))
  }

  /** Three subscribed, empty watchers after the three failed lookups. */
  const Quiet := State(Waiting, Waiting, Waiting, false, None,
                       [GetReferenceCall(Installer), GetReferenceCall(Provider), GetReferenceCall(Startup)])

  /** Construction while nothing is available only looks the three kinds up; the
      scenarios below start from this state. */
  lemma IdleIsQuiet()
    ensures Idle() == Quiet
    ensures Inv(Quiet)
  {
    InitInv(Answer(None, None), Answer(None, None), Answer(None, None));
  }

  lemma RunThree(s: State, e1: Event, e2: Event, e3: Event)
    ensures Run(s, [e1]) == Dispatch(s, e1)
    ensures Run(s, [e1, e2]) == Dispatch(Dispatch(s, e1), e2)
    ensures Run(s, [e1, e2, e3]) == Dispatch(Dispatch(Dispatch(s, e1), e2), e3)
  {
    RunSnoc(s, [], e1);
    assert [] + [e1] == [e1];
    RunSnoc(s, [e1], e2);
    assert [e1] + [e2] == [e1, e2];
    RunSnoc(s, [e1, e2], e3);
    assert [e1, e2] + [e3] == [e1, e2, e3];
  }

  /** A Registered event on a subscribed, empty watcher whose fetch succeeds. */
  lemma ArriveStep(s: State, k: Kind, r: Ref, x: Instance)
    requires SlotOf(s, k) == Waiting
    ensures Dispatch(s, Arrive(k, r, x)) ==
              Notify(WithSlot(s.(log := s.log + [GetReferenceCall(k), GetServiceCall(r)]),
                              k, Slot(Some(r), Some(x), true)))
  {
    assert s.log + [GetReferenceCall(k)] + [GetServiceCall(r)] ==
           s.log + [GetReferenceCall(k), GetServiceCall(r)];
  }

  /** An Unregistering event on a subscribed, full watcher. */
  lemma LeaveStep(s: State, k: Kind, r: Ref, x: Instance)
    requires SlotOf(s, k) == Slot(Some(r), Some(x), true)
    ensures Dispatch(s, Leave(k)) ==
              Notify(WithSlot(s.(log := s.log + [UngetServiceCall(r)]), k, Waiting))
  {
  }

  /** Handler, then installer, then provider: the registration is published by the
      first event and install runs exactly once, on the third. */
  lemma ScenarioHandlerInstallerProvider(rh: Ref, h: Instance, ri: Ref, i: Instance, rp: Ref, p: Instance)
    ensures var s0 := Quiet;
            var e1, e2, e3 := Arrive(Startup, rh, h), Arrive(Installer, ri, i), Arrive(Provider, rp, p);
            Run(s0, [e1]).reg == Some(Registration(h)) &&
            !Run(s0, [e1, e2]).installed &&
            Run(s0, [e1, e2, e3]).installed &&
            Run(s0, [e1, e2, e3]).log == s0.log +
              [GetReferenceCall(Startup), GetServiceCall(rh), RegisterCall(Registration(h)),
               GetReferenceCall(Installer), GetServiceCall(ri),
               GetReferenceCall(Provider), GetServiceCall(rp), InstallCall(i, p)]
  {
    var s0 := Quiet;
    var l0 := s0.log;
    var e1, e2, e3 := Arrive(Startup, rh, h), Arrive(Installer, ri, i), Arrive(Provider, rp, p);
    var l1 := l0 + [GetReferenceCall(Startup), GetServiceCall(rh), RegisterCall(Registration(h))];
    var s1 := State(Waiting, Waiting, Slot(Some(rh), Some(h), true), false, Some(Registration(h)), l1);
    assert Dispatch(s0, e1) == s1 by { ArriveStep(s0, Startup, rh, h); }
    var l2 := l1 + [GetReferenceCall(Installer), GetServiceCall(ri)];
    var s2 := s1.(installer := Slot(Some(ri), Some(i), true), log := l2);
    assert Dispatch(s1, e2) == s2 by { ArriveStep(s1, Installer, ri, i); }
    var s3 := s2.(provider := Slot(Some(rp), Some(p), true), installed := true,
                  log := l2 + [GetReferenceCall(Provider), GetServiceCall(rp), InstallCall(i, p)]);
    assert Dispatch(s2, e3) == s3 by { ArriveStep(s2, Provider, rp, p); }
    RunThree(s0, e1, e2, e3);
  }

  /** The first half of the flapping scenario: installer, then provider. */
  lemma FlapsOpening(ri: Ref, i: Instance, rp: Ref, p: Instance)
    ensures var e1, e2 := Arrive(Installer, ri, i), Arrive(Provider, rp, p);
            var s1 := Quiet.(installer := Slot(Some(ri), Some(i), true),
                             log := Quiet.log + [GetReferenceCall(Installer), GetServiceCall(ri)]);
            Run(Quiet, [e1]) == s1 &&
            Run(Quiet, [e1, e2]) ==
              s1.(provider := Slot(Some(rp), Some(p), true), installed := true,
                  log := s1.log + [GetReferenceCall(Provider), GetServiceCall(rp), InstallCall(i, p)])
  {
    var e1, e2 := Arrive(Installer, ri, i), Arrive(Provider, rp, p);
    var s1 := Quiet.(installer := Slot(Some(ri), Some(i), true),
                     log := Quiet.log + [GetReferenceCall(Installer), GetServiceCall(ri)]);
    assert Dispatch(Quiet, e1) == s1 by { ArriveStep(Quiet, Installer, ri, i); }
    ArriveStep(s1, Provider, rp, p);
    RunThree(Quiet, e1, e2, e2);
  }

  /** The second half: after install, the provider leaves and another arrives;
      only the registry calls are made. */
  lemma FlapsReturn(t: State, ri: Ref, i: Instance, rp: Ref, p: Instance, rq: Ref, q: Instance)
    requires t.installer == Slot(Some(ri), Some(i), true) && t.provider == Slot(Some(rp), Some(p), true)
    requires t.startup == Waiting && t.installed && t.reg.None?
    ensures Dispatch(Dispatch(t, Leave(Provider)), Arrive(Provider, rq, q)) ==
              t.(provider := Slot(Some(rq), Some(q), true),
                 log := t.log + [UngetServiceCall(rp), GetReferenceCall(Provider), GetServiceCall(rq)])
  {
    var t3 := t.(provider := Waiting, log := t.log + [UngetServiceCall(rp)]);
    assert Dispatch(t, Leave(Provider)) == t3 by { LeaveStep(t, Provider, rp, p); }
    ArriveStep(t3, Provider, rq, q);
    assert t3.log + [GetReferenceCall(Provider), GetServiceCall(rq)] ==
           t.log + [UngetServiceCall(rp), GetReferenceCall(Provider), GetServiceCall(rq)];
  }

  /** Installer, provider, provider leaves, provider returns: install runs once,
      when the provider first arrives, and not again when it comes back. */
  lemma ScenarioProviderFlaps(ri: Ref, i: Instance, rp: Ref, p: Instance, rq: Ref, q: Instance)
    ensures var s0 := Quiet;
            var e1, e2, e3, e4 := Arrive(Installer, ri, i), Arrive(Provider, rp, p), Leave(Provider),
                                  Arrive(Provider, rq, q);
            !Run(s0, [e1]).installed &&
            Run(s0, [e1, e2]).log == s0.log +
              [GetReferenceCall(Installer), GetServiceCall(ri),
               GetReferenceCall(Provider), GetServiceCall(rp), InstallCall(i, p)] &&
            Run(s0, [e1, e2, e3, e4]).log == Run(s0, [e1, e2]).log +
              [UngetServiceCall(rp), GetReferenceCall(Provider), GetServiceCall(rq)] &&
            InstallCount(Run(s0, [e1, e2, e3, e4]).log) == 1
  {
    var e1, e2, e3, e4 := Arrive(Installer, ri, i), Arrive(Provider, rp, p), Leave(Provider),
                          Arrive(Provider, rq, q);
    FlapsOpening(ri, i, rp, p);
    var s2 := Run(Quiet, [e1, e2]);
    FlapsReturn(s2, ri, i, rp, p, rq, q);
    RunSnoc(Quiet, [e1, e2], e3);
    assert [e1, e2] + [e3] == [e1, e2, e3];
    RunSnoc(Quiet, [e1, e2, e3], e4);
    assert [e1, e2, e3] + [e4] == [e1, e2, e3, e4];
    IdleIsQuiet();
    InstallAtMostOnce(Quiet, [e1, e2, e3, e4]);
  }

  /** Handler arrives, leaves, and a duplicate leave is delivered: one publish, one
      withdraw, and the duplicate does nothing. */
  lemma ScenarioDuplicateLeave(rh: Ref, h: Instance)
    ensures var s0 := Quiet;
            var e1, e2 := Arrive(Startup, rh, h), Leave(Startup);
            Run(s0, [e1, e2, e2]) == Run(s0, [e1, e2]) &&
            Run(s0, [e1, e2, e2]).log == s0.log +
              [GetReferenceCall(Startup), GetServiceCall(rh), RegisterCall(Registration(h)),
               UngetServiceCall(rh), UnregisterCall(Registration(h))] &&
            Run(s0, [e1, e2, e2]).reg.None?
  {
    var s0 := Quiet;
    var e1, e2 := Arrive(Startup, rh, h), Leave(Startup);
    RunThree(s0, e1, e2, e2);
    var s1 := Dispatch(s0, e1);
    ArriveStep(s0, Startup, rh, h);
    assert s1 == s0.(startup := Slot(Some(rh), Some(h), true), reg := Some(Registration(h)),
                     log := s0.log + [GetReferenceCall(Startup), GetServiceCall(rh), RegisterCall(Registration(h))]);
    var s2 := Dispatch(s1, e2);
    LeaveStep(s1, Startup, rh, h);
    assert s2 == s1.(startup := Waiting, reg := None,
                     log := s1.log + [UngetServiceCall(rh), UnregisterCall(Registration(h))]);
  }

  /** A handler replaced by another is not coalesced: the old registration is
      withdrawn before the new one is published. */
  lemma ScenarioHandlerReplaced(rh: Ref, h: Instance, rg: Ref, g: Instance)
    ensures var s0 := Quiet;
            var e1, e2, e3 := Arrive(Startup, rh, h), Leave(Startup), Arrive(Startup, rg, g);
            Run(s0, [e1, e2, e3]).log == Run(s0, [e1]).log +
              [UngetServiceCall(rh), UnregisterCall(Registration(h)),
               GetReferenceCall(Startup), GetServiceCall(rg), RegisterCall(Registration(g))] &&
            Run(s0, [e1, e2, e3]).reg == Some(Registration(g))
  {
    var s0 := Quiet;
    var e1, e2, e3 := Arrive(Startup, rh, h), Leave(Startup), Arrive(Startup, rg, g);
    RunThree(s0, e1, e2, e3);
    var s1 := Dispatch(s0, e1);
    ArriveStep(s0, Startup, rh, h);
    assert s1 == s0.(startup := Slot(Some(rh), Some(h), true), reg := Some(Registration(h)),
                     log := s0.log + [GetReferenceCall(Startup), GetServiceCall(rh), RegisterCall(Registration(h))]);
    var s2 := Dispatch(s1, e2);
    LeaveStep(s1, Startup, rh, h);
    assert s2 == s1.(startup := Waiting, reg := None,
                     log := s1.log + [UngetServiceCall(rh), UnregisterCall(Registration(h))]);
    var s3 := Dispatch(s2, e3);
    ArriveStep(s2, Startup, rg, g);
    assert s3 == s2.(startup := Slot(Some(rg), Some(g), true), reg := Some(Registration(g)),
                     log := s2.log + [GetReferenceCall(Startup), GetServiceCall(rg), RegisterCall(Registration(g))]);
  }

  /** A reference whose object cannot be fetched leaves the slot empty and
      notifies nothing; the next Registered event tries again. */
  lemma ScenarioFetchFails(rh: Ref, rg: Ref, g: Instance)
    ensures var s0 := Quiet;
            var e1, e2 := Event(Startup, Registered, Answer(Some(rh), None)), Arrive(Startup, rg, g);
            Run(s0, [e1]) == s0.(log := s0.log + [GetReferenceCall(Startup), GetServiceCall(rh)]) &&
            Run(s0, [e1, e2]).reg == Some(Registration(g))
  {
    var s0 := Quiet;
    var e1, e2 := Event(Startup, Registered, Answer(Some(rh), None)), Arrive(Startup, rg, g);
    RunThree(s0, e1, e2, e2);
    var s1 := Dispatch(s0, e1);
    assert s1 == s0.(log := s0.log + [GetReferenceCall(Startup), GetServiceCall(rh)]);
    ArriveStep(s1, Startup, rg, g);
  }
}
