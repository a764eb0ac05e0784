/** ServicesListener and its inner Listener as objects whose fields change in
    place. Every ServicesListener method is proved to leave the state that the
    matching function of ServicesModel describes, and to keep the coordinator's
    invariant.

    In the source, retainService, releaseService, serviceChanged and start are
    methods of the inner class Listener that reach into the enclosing
    ServicesListener (its bundle context and notifyChange). Here they are methods
    of ServicesListener that take the watcher's kind, and the watcher object
    holds only its own fields. */
module Launchpad {
  import opened LaunchpadTypes
  import M = ServicesModel

  /** The watcher for one service kind: at most one acquired reference and the
      object fetched through it, and whether it is subscribed to events. */
  class Listener {
    const kind: Kind
    var reference: Option<Ref>
    var service: Option<Instance>
    var subscribed: bool

    ghost function AsSlot(): M.Slot
      reads this
    {
      M.Slot(reference, service, subscribed)
    }

    constructor (kind: Kind)
      ensures this.kind == kind
      ensures AsSlot() == M.EmptySlot
    {
      this.kind := kind;
      reference := None;
      service := None;
      subscribed := false;
    }

    /** The held service object, if any; reads only. */
    function GetService(): (r: Option<Instance>)
      reads this
      ensures r == AsSlot().service
      ensures r.Some? <==> M.Present(AsSlot())
    {
      service
    }

    /** Unsubscribe; the held reference, if any, is kept. */
    method Deactivate()
      modifies this`subscribed
      ensures !subscribed
    {
      subscribed := false;
    }
  }

  /** The coordinator: three watchers, the one-shot install flag and the handle of
      the mirrored installation-listener registration. */
  class ServicesListener {
    const installerListener: Listener
    const providerListener: Listener
    const startupListener: Listener
    var launchpadListenerReg: Option<Registration>
    var installed: bool
    /** The calls made to install, to the registry and to registrations. */
    ghost var log: seq<Call>

    function ListenerFor(k: Kind): Listener
    {
      match k
      case Installer => installerListener
      case Provider => providerListener
      case Startup => startupListener
    }

    /** Three distinct watchers, one per kind. */
    ghost predicate Wired()
      reads this, installerListener, providerListener, startupListener
    {
      installerListener != providerListener && installerListener != startupListener &&
      providerListener != startupListener &&
      installerListener.kind == Installer && providerListener.kind == Provider &&
      startupListener.kind == Startup
    }

    ghost function Abs(): M.State
      reads this, installerListener, providerListener, startupListener
    {
      M.State(installerListener.AsSlot(), providerListener.AsSlot(), startupListener.AsSlot(),
              installed, launchpadListenerReg, log)
    }

    ghost predicate Valid()
      reads this, installerListener, providerListener, startupListener
    {
      Wired() && M.Inv(Abs())
    }

    /** Create the three watchers and start them: installer, provider, startup
        handler. The answers are what the registry replies to each start's
        acquire attempt. */
    constructor (installerAnswer: Answer, providerAnswer: Answer, startupAnswer: Answer)
      ensures Valid()
      ensures fresh(installerListener) && fresh(providerListener) && fresh(startupListener)
      ensures Abs() == M.Init(installerAnswer, providerAnswer, startupAnswer)
    {
      installerListener := new Listener(Installer);
      providerListener := new Listener(Provider);
      startupListener := new Listener(Startup);
      launchpadListenerReg := None;
      installed := false;
      log := [];
      new;
      assert Abs() == M.Empty;
      Start(Installer, installerAnswer);
      Start(Provider, providerAnswer);
      Start(Startup, startupAnswer);
    }

    /** Install once when the installer and the provider are both held; keep the
        wrapper registration published exactly while a startup handler is held. */
    method NotifyChange()
      requires Wired()
      modifies this`installed, this`launchpadListenerReg, this`log
      ensures Abs() == M.Notify(old(Abs()))
      ensures installed == (old(installed) ||
                            (installerListener.service.Some? && providerListener.service.Some?))
      ensures launchpadListenerReg.Some? <==> startupListener.service.Some?
      ensures old(M.Inv(Abs())) ==> Abs() == old(Abs())
      ensures old(Valid()) ==> Valid()
    {
      var installer := installerListener.GetService();
      var lcp := providerListener.GetService();
      if installer.Some? && lcp.Some? {
        if !installed {
          installed := true;
          log := log + [InstallCall(installer.value, lcp.value)];
        }
      }
      var handler := startupListener.GetService();
      if handler.Some? {
        if launchpadListenerReg.None? {
          var registration := Registration(handler.value);
          launchpadListenerReg := Some(registration);
          log := log + [RegisterCall(registration)];
        }
      } else {
        if launchpadListenerReg.Some? {
          log := log + [UnregisterCall(launchpadListenerReg.value)];
          launchpadListenerReg := None;
        }
      }
      if M.Inv(old(Abs())) {
        M.NotifySettled(old(Abs()));
      }
    }

    /** Listener.start for watcher k: acquire, then subscribe. */
    method Start(k: Kind, a: Answer)
      requires Valid()
      modifies ListenerFor(k), this`installed, this`launchpadListenerReg, this`log
      ensures Valid()
      ensures Abs() == M.Start(old(Abs()), k, a)
    {
      RetainService(k, a);
      ListenerFor(k).subscribed := true;
      M.StartPreservesInv(old(Abs()), k, a);
    }

    /** Listener.retainService for watcher k: on an empty slot, look a reference
        up and fetch its object; keep both and notify when the fetch yields an
        object, otherwise drop the reference again. A full slot is left alone. */
    method RetainService(k: Kind, a: Answer)
      requires Valid()
      modifies ListenerFor(k)`reference, ListenerFor(k)`service,
               this`installed, this`launchpadListenerReg, this`log
      ensures Valid()
      ensures Abs() == M.Retain(old(Abs()), k, a)
    {
      ghost var s := Abs();
      var l := ListenerFor(k);
      if l.reference.None? {
        var found := a.reference;
        match found
        case None =>
          log := log + [GetReferenceCall(k)];
          assert Abs() == M.Retain(s, k, a);
        case Some(ref) =>
          var fetched := a.instance;
          log := log + [GetReferenceCall(k), GetServiceCall(ref)];
          match fetched
          case None =>
            l.service := None;
            assert Abs() == M.Retain(s, k, a);
          case Some(_) =>
            l.reference, l.service := found, fetched;
            assert Abs() == M.WithSlot(s.(log := log), k, M.Slot(found, fetched, l.subscribed));
            NotifyChange();
            assert Abs() == M.Retain(s, k, a);
      }
      M.RetainPreservesInv(s, k, a);
    }

    /** Listener.releaseService for watcher k: on a full slot, drop the object,
        unget the reference and notify. An empty slot is left alone. */
    method ReleaseService(k: Kind)
      requires Valid()
      modifies ListenerFor(k)`reference, ListenerFor(k)`service,
               this`installed, this`launchpadListenerReg, this`log
      ensures Valid()
      ensures Abs() == M.Release(old(Abs()), k)
    {
      ghost var s := Abs();
      var l := ListenerFor(k);
      if l.reference.Some? {
        l.service := None;
        log := log + [UngetServiceCall(l.reference.value)];
        l.reference := None;
        assert Abs() == M.WithSlot(s.(log := log), k, M.Slot(None, None, l.subscribed));
        NotifyChange();
        assert Abs() == M.Release(s, k);
      }
      M.ReleasePreservesInv(s, k);
    }

    /** Listener.serviceChanged for watcher k: Registered acquires into an empty
        slot, Unregistering releases a full one, and nothing else has an effect. */
    method ServiceChanged(k: Kind, e: EventType, a: Answer)
      requires Valid()
      modifies ListenerFor(k)`reference, ListenerFor(k)`service,
               this`installed, this`launchpadListenerReg, this`log
      ensures Valid()
      ensures Abs() == M.Changed(old(Abs()), k, e, a)
    {
      var l := ListenerFor(k);
      if e == Registered && l.service.None? {
        RetainService(k, a);
      } else if e == Unregistering && l.service.Some? {
        ReleaseService(k);
      }
    }

    /** Unsubscribe every watcher; slots, the flag and the registration stay. */
    method Deactivate()
      requires Valid()
      modifies installerListener`subscribed, providerListener`subscribed, startupListener`subscribed
      ensures Valid()
      ensures Abs() == M.Deactivate(old(Abs()))
    {
      installerListener.Deactivate();
      providerListener.Deactivate();
      startupListener.Deactivate();
    }
  }
}
