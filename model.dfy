/** The coordinator and its three watchers as a pure state machine. Each function
    gives the state one operation of ServicesListener leaves behind, with the
    collaborator calls it makes appended to the log; the classes in module
    Launchpad are proved to follow these functions. */
module ServicesModel {
  import opened LaunchpadTypes
  import opened CallLog

  /** What one watcher holds: the acquired reference, the fetched service object,
      and whether it is subscribed to the registry's events for its kind. */
  datatype Slot = Slot(reference: Option<Ref>, service: Option<Instance>, subscribed: bool)

  const EmptySlot := Slot(None, None, false)

  /** The coordinator: its three watchers, the one-shot flag, the handle of the
      mirrored registration, and the calls made so far. */
  datatype State = State(installer: Slot, provider: Slot, startup: Slot,
                         installed: bool, reg: Option<Registration>, log: seq<Call>)

  const Empty := State(EmptySlot, EmptySlot, EmptySlot, false, None, [])

  function SlotOf(s: State, k: Kind): Slot
  {
    match k
    case Installer => s.installer
    case Provider => s.provider
    case Startup => s.startup
  }

  function WithSlot(s: State, k: Kind, slot: Slot): State
  {
    match k
    case Installer => s.(installer := slot)
    case Provider => s.(provider := slot)
    case Startup => s.(startup := slot)
  }

  predicate Present(slot: Slot)
  {
    slot.service.Some?
  }

  predicate BothPresent(s: State)
  {
    Present(s.installer) && Present(s.provider)
  }

  /** A slot holds a reference exactly when it holds a service object. */
  predicate SlotValid(slot: Slot)
  {
    slot.reference.Some? <==> slot.service.Some?
  }

  predicate SlotsValid(s: State)
  {
    SlotValid(s.installer) && SlotValid(s.provider) && SlotValid(s.startup)
  }

  /** The registry offers a service: the lookup finds a reference and fetching it
      yields an object. */
  predicate Offers(a: Answer)
  {
    a.reference.Some? && a.instance.Some?
  }

  /** What an acquire attempt on an empty slot leaves held. */
  function Acquired(a: Answer): Option<Instance>
  {
    if Offers(a) then a.instance else None
  }

  /** The registration that should be published for the startup slot's contents. */
  function Mirror(slot: Slot): Option<Registration>
  {
    if slot.service.Some? then Some(Registration(slot.service.value)) else None
  }

  // ---------------------------------------------------------------- notifyChange

  /** The one-shot install: call install once both the installer and the provider are held,
      and only if it has not been called before. */
  function InstallOnce(s: State): (r: State)
    ensures r.installed == (s.installed || BothPresent(s))
    ensures r.(installed := s.installed, log := s.log) == s
    ensures r.log == s.log ||
            (!s.installed && BothPresent(s) &&
             r.log == s.log + [InstallCall(s.installer.service.value, s.provider.service.value)])
  {
    if BothPresent(s) && !s.installed then
      s.(installed := true,
         log := s.log + [InstallCall(s.installer.service.value, s.provider.service.value)])
    else s
  }

  /** The mirrored registration: publish the listener wrapper while a startup handler is held and
      nothing is published; withdraw the registration once the handler is gone. */
  function SyncRegistration(s: State): (r: State)
    ensures r.reg.Some? <==> Present(s.startup)
    ensures Present(s.startup) && s.reg.Some? ==> r == s
    ensures !Present(s.startup) && s.reg.None? ==> r == s
    ensures r.(reg := s.reg, log := s.log) == s
    ensures s.log <= r.log
    // a new handle wraps the held handler
    ensures Present(s.startup) && s.reg.None? ==> r.reg == Mirror(s.startup)
    // the calls made: nothing, one publish of the new handle, or one withdraw of the old
    ensures r.log == s.log ||
            (s.reg.None? && Present(s.startup) && r.log == s.log + [RegisterCall(r.reg.value)]) ||
            (s.reg.Some? && !Present(s.startup) && r.log == s.log + [UnregisterCall(s.reg.value)])
  {
    match s.startup.service
    case Some(h) =>
      if s.reg.None? then
        s.(reg := Some(Registration(h)), log := s.log + [RegisterCall(Registration(h))])
      else s
    case None =>
      if s.reg.Some? then s.(reg := None, log := s.log + [UnregisterCall(s.reg.value)])
      else s
  }

  /** notifyChange: both effects, one after the other, on the current slot contents. */
  function Notify(s: State): (r: State)
    ensures r.installer == s.installer && r.provider == s.provider && r.startup == s.startup
    ensures r.installed == (s.installed || BothPresent(s))
    ensures r.reg.Some? <==> Present(s.startup)
    ensures s.log <= r.log
  {
    SyncRegistration(InstallOnce(s))
  }

  // ---------------------------------------------------------------- the watcher

  /** retainService: on an empty slot, look a reference up and fetch its object;
      keep both and notify when the fetch yields an object, otherwise roll the
      reference back. A full slot is left alone. */
  function Retain(s: State, k: Kind, a: Answer): (r: State)
    ensures forall j :: j != k ==> SlotOf(r, j) == SlotOf(s, j)
    ensures SlotOf(r, k).subscribed == SlotOf(s, k).subscribed
    ensures SlotOf(s, k).reference.Some? ==> r == s
    ensures SlotValid(SlotOf(s, k)) ==> SlotValid(SlotOf(r, k))
    ensures SlotValid(SlotOf(s, k)) ==>
              (Present(SlotOf(r, k)) && !Present(SlotOf(s, k)) <==>
               SlotOf(s, k).reference.None? && Offers(a))
  {
    var slot := SlotOf(s, k);
    if slot.reference.Some? then s
    else
      match a.reference
      case None => s.(log := s.log + [GetReferenceCall(k)])
      case Some(ref) =>
        var fetched := s.log + [GetReferenceCall(k), GetServiceCall(ref)];
        match a.instance
        case None => WithSlot(s.(log := fetched), k, slot.(reference := None, service := None))
        case Some(inst) =>
          Notify(WithSlot(s.(log := fetched), k, slot.(reference := Some(ref), service := Some(inst))))
  }

  /** What retainService leaves on an empty slot. On success the slot holds
      exactly what the registry offered, and notifyChange has run. On failure the
      slot is rolled back to empty without a notification, and only the registry
      calls are logged. */
  lemma RetainOutcome(s: State, k: Kind, a: Answer)
    requires SlotOf(s, k).reference.None?
    ensures var r := Retain(s, k, a);
            Offers(a) ==>
              SlotOf(r, k).reference == a.reference && SlotOf(r, k).service == a.instance &&
              r.installed == (s.installed || BothPresent(r)) &&
              (r.reg.Some? <==> Present(r.startup)) &&
              s.log + [GetReferenceCall(k), GetServiceCall(a.reference.value)] <= r.log
    ensures var r := Retain(s, k, a);
            !Offers(a) ==>
              SlotOf(r, k).reference.None? &&
              SlotOf(r, k).service == (if a.reference.Some? then None else SlotOf(s, k).service) &&
              r.installed == s.installed && r.reg == s.reg &&
              r.log == s.log + [GetReferenceCall(k)] +
                       (if a.reference.Some? then [GetServiceCall(a.reference.value)] else [])
  {
    var slot := SlotOf(s, k);
    match a.reference
    case None =>
    case Some(ref) =>
      var fetched := s.log + [GetReferenceCall(k), GetServiceCall(ref)];
      match a.instance
      case None =>
        assert Retain(s, k, a) == WithSlot(s.(log := fetched), k, slot.(reference := None, service := None));
      case Some(inst) =>
        var t := WithSlot(s.(log := fetched), k, slot.(reference := Some(ref), service := Some(inst)));
        assert Retain(s, k, a) == Notify(t);
        assert SlotOf(t, k).reference == Some(ref) && SlotOf(t, k).service == Some(inst);
  }

  /** releaseService: on a full slot, drop the object, unget the reference and
      notify. An empty slot is left alone. */
  function Release(s: State, k: Kind): (r: State)
    ensures forall j :: j != k ==> SlotOf(r, j) == SlotOf(s, j)
    ensures SlotOf(r, k).subscribed == SlotOf(s, k).subscribed
    ensures SlotOf(s, k).reference.None? ==> r == s
    ensures SlotOf(s, k).reference.Some? ==>
              SlotOf(r, k).reference.None? && SlotOf(r, k).service.None? &&
              r.installed == (s.installed || BothPresent(r)) &&
              (r.reg.Some? <==> Present(r.startup)) &&
              s.log + [UngetServiceCall(SlotOf(s, k).reference.value)] <= r.log
  {
    var slot := SlotOf(s, k);
    if slot.reference.None? then s
    else
      Notify(WithSlot(s.(log := s.log + [UngetServiceCall(slot.reference.value)]),
                      k, slot.(reference := None, service := None)))
  }

  /** serviceChanged: a Registered event acquires into an empty slot, an
      Unregistering event releases a full one; everything else is ignored. The
      event does not say which reference goes away, so any Unregistering
      empties a full slot. */
  function Changed(s: State, k: Kind, e: EventType, a: Answer): (r: State)
    ensures e == Registered && Present(SlotOf(s, k)) ==> r == s
    ensures e == Unregistering && !Present(SlotOf(s, k)) ==> r == s
    ensures e != Registered && e != Unregistering ==> r == s
    ensures e == Unregistering && Present(SlotOf(s, k)) && SlotValid(SlotOf(s, k)) ==>
              !Present(SlotOf(r, k))
    // REGISTERED on an empty slot acquires what the registry offers, if anything
    ensures e == Registered && !Present(SlotOf(s, k)) && SlotValid(SlotOf(s, k)) ==>
              SlotOf(r, k).reference == (if Offers(a) then a.reference else None) &&
              SlotOf(r, k).service == Acquired(a)
    ensures e == Registered && !Present(SlotOf(s, k)) && SlotValid(SlotOf(s, k)) && !Offers(a) ==>
              r.installed == s.installed && r.reg == s.reg
    ensures forall j :: j != k ==> SlotOf(r, j) == SlotOf(s, j)
  {
    if e == Registered && SlotOf(s, k).service.None? then
      (if SlotOf(s, k).reference.None? then RetainOutcome(s, k, a); Retain(s, k, a)
       else Retain(s, k, a))
    else if e == Unregistering && SlotOf(s, k).service.Some? then Release(s, k)
    else s
  }

  /** Listener.start: acquire first, then subscribe. */
  function Start(s: State, k: Kind, a: Answer): (r: State)
    ensures SlotOf(r, k).subscribed
    ensures forall j :: j != k ==> SlotOf(r, j) == SlotOf(s, j)
    // a watcher that already holds a reference only subscribes
    ensures SlotOf(s, k).reference.Some? ==> r == WithSlot(s, k, SlotOf(s, k).(subscribed := true))
    // an empty watcher first acquires what the registry offers, if anything
    ensures SlotValid(SlotOf(s, k)) && SlotOf(s, k).reference.None? ==>
              SlotOf(r, k).reference == (if Offers(a) then a.reference else None) &&
              SlotOf(r, k).service == Acquired(a)
    ensures SlotOf(s, k).reference.None? && Offers(a) ==>
              r.installed == (s.installed || BothPresent(r)) && (r.reg.Some? <==> Present(r.startup))
    ensures SlotOf(s, k).reference.None? && !Offers(a) ==> r.installed == s.installed && r.reg == s.reg
  {
    var t := Retain(s, k, a);
    if SlotOf(s, k).reference.None? then
      RetainOutcome(s, k, a);
      WithSlot(t, k, SlotOf(t, k).(subscribed := true))
    else WithSlot(t, k, SlotOf(t, k).(subscribed := true))
  }

  /** The constructor: three empty watchers, started in the order installer,
      provider, startup handler. */
  function Init(installerAnswer: Answer, providerAnswer: Answer, startupAnswer: Answer): (r: State)
    ensures r.installer == Slot(if Offers(installerAnswer) then installerAnswer.reference else None,
                                Acquired(installerAnswer), true)
    ensures r.provider == Slot(if Offers(providerAnswer) then providerAnswer.reference else None,
                               Acquired(providerAnswer), true)
    ensures r.startup == Slot(if Offers(startupAnswer) then startupAnswer.reference else None,
                              Acquired(startupAnswer), true)
  {
    Start(Start(Start(Empty, Installer, installerAnswer), Provider, providerAnswer),
          Startup, startupAnswer)
  }

  /** deactivate: every watcher unsubscribes; nothing else changes. */
  function Deactivate(s: State): (r: State)
    ensures !r.installer.subscribed && !r.provider.subscribed && !r.startup.subscribed
    ensures forall k :: SlotOf(r, k).reference == SlotOf(s, k).reference &&
                        SlotOf(r, k).service == SlotOf(s, k).service
    ensures r.installed == s.installed && r.reg == s.reg && r.log == s.log
  {
    s.(installer := s.installer.(subscribed := false),
       provider := s.provider.(subscribed := false),
       startup := s.startup.(subscribed := false))
  }

  // ---------------------------------------------------------------- the invariant

  /** The flag, the handle and the log agree: install ran once iff the flag is set,
      publish and withdraw alternate, and the handle is the outstanding registration. */
  predicate Ledger(s: State)
  {
    InstallCount(s.log) == (if s.installed then 1 else 0) &&
    Alternates(s.log) &&
    Outstanding(s.log) == s.reg
  }

  /** Both effects have caught up with the slot contents. */
  predicate Converged(s: State)
  {
    (BothPresent(s) ==> s.installed) && s.reg == Mirror(s.startup)
  }

  /** What holds between any two operations of the coordinator. */
  predicate Inv(s: State)
  {
    SlotsValid(s) && Ledger(s) && Converged(s)
  }

  // ---------------------------------------------------------------- lemmas

  /** notifyChange restores the invariant from a state whose ledger is sound and
      whose published registration, if any, does not wrap a different handler. */
  lemma NotifyEstablishesInv(s: State)
    requires SlotsValid(s) && Ledger(s)
    requires Present(s.startup) && s.reg.Some? ==> s.reg == Mirror(s.startup)
    ensures Inv(Notify(s))
  {
    var t := InstallOnce(s);
    if BothPresent(s) && !s.installed {
      Snoc(s.log, InstallCall(s.installer.service.value, s.provider.service.value));
    }
    assert SlotsValid(t) && Ledger(t);
    match t.startup.service
    case Some(h) =>
      if t.reg.None? {
        Snoc(t.log, RegisterCall(Registration(h)));
      }
    case None =>
      if t.reg.Some? {
        Snoc(t.log, UnregisterCall(t.reg.value));
      }
  }

  /** A notification that finds both effects caught up changes nothing, so
      spurious notifications are harmless. */
  lemma NotifySettled(s: State)
    requires Inv(s)
    ensures Notify(s) == s
  {
  }

  /** Notifying twice is notifying once. */
  lemma NotifyIdempotent(s: State)
    ensures Notify(Notify(s)) == Notify(s)
  {
  }

  lemma RetainPreservesInv(s: State, k: Kind, a: Answer)
    requires Inv(s)
    ensures Inv(Retain(s, k, a))
  {
    var slot := SlotOf(s, k);
    if slot.reference.None? {
      var looked := s.log + [GetReferenceCall(k)];
      Snoc(s.log, GetReferenceCall(k));
      match a.reference
      case None =>
      case Some(ref) =>
        var fetched := looked + [GetServiceCall(ref)];
        assert fetched == s.log + [GetReferenceCall(k), GetServiceCall(ref)];
        Snoc(looked, GetServiceCall(ref));
        match a.instance
        case None =>
          assert slot.(reference := None, service := None) == slot;
        case Some(inst) =>
          NotifyEstablishesInv(WithSlot(s.(log := fetched), k,
                                        slot.(reference := Some(ref), service := Some(inst))));
    }
  }

  lemma ReleasePreservesInv(s: State, k: Kind)
    requires Inv(s)
    ensures Inv(Release(s, k))
  {
    var slot := SlotOf(s, k);
    if slot.reference.Some? {
      Snoc(s.log, UngetServiceCall(slot.reference.value));
      NotifyEstablishesInv(WithSlot(s.(log := s.log + [UngetServiceCall(slot.reference.value)]),
                                    k, slot.(reference := None, service := None)));
    }
  }

  lemma ChangedPreservesInv(s: State, k: Kind, e: EventType, a: Answer)
    requires Inv(s)
    ensures Inv(Changed(s, k, e, a))
  {
    if e == Registered && SlotOf(s, k).service.None? {
      RetainPreservesInv(s, k, a);
    } else if e == Unregistering && SlotOf(s, k).service.Some? {
      ReleasePreservesInv(s, k);
    }
  }

  /** The one-shot flag only goes up, and it goes up exactly when an event leaves
      the installer and the provider both held. */
  lemma ChangedInstalled(s: State, k: Kind, e: EventType, a: Answer)
    requires Inv(s)
    ensures Changed(s, k, e, a).installed == (s.installed || BothPresent(Changed(s, k, e, a)))
  {
    if e == Registered && SlotOf(s, k).service.None? {
      var slot := SlotOf(s, k);
      if slot.reference.None? && a.reference.Some? && a.instance.None? {
        assert slot.(reference := None, service := None) == slot;
      }
    }
  }

  lemma StartPreservesInv(s: State, k: Kind, a: Answer)
    requires Inv(s)
    ensures Inv(Start(s, k, a))
  {
    RetainPreservesInv(s, k, a);
  }

  lemma DeactivatePreservesInv(s: State)
    requires Inv(s)
    ensures Inv(Deactivate(s))
  {
  }

  /** A freshly constructed coordinator satisfies the invariant, every watcher is
      subscribed, and install has run iff the installer and the provider were both
      available at construction. */
  lemma InitInv(installerAnswer: Answer, providerAnswer: Answer, startupAnswer: Answer)
    ensures var s := Init(installerAnswer, providerAnswer, startupAnswer);
            Inv(s) && s.installer.subscribed && s.provider.subscribed && s.startup.subscribed &&
            (s.installed <==> BothPresent(s)) &&
            (s.installed <==> Offers(installerAnswer) && Offers(providerAnswer)) &&
            s.reg == (if Offers(startupAnswer) then Some(Registration(startupAnswer.instance.value))
                      else None) &&
            InstallCount(s.log) == (if Offers(installerAnswer) && Offers(providerAnswer) then 1 else 0)
  {
    var s1 := Start(Empty, Installer, installerAnswer);
    StartPreservesInv(Empty, Installer, installerAnswer);
    var s2 := Start(s1, Provider, providerAnswer);
    StartPreservesInv(s1, Provider, providerAnswer);
    ChangedInstalled(s1, Provider, Registered, providerAnswer);
    StartPreservesInv(s2, Startup, startupAnswer);
    ChangedInstalled(s2, Startup, Registered, startupAnswer);
  }
}
