/** Values shared by the watcher, the coordinator and the call log. */
module LaunchpadTypes {

  datatype Option<T> = None | Some(value: T)

  /** The three service interfaces the coordinator waits for:
      the OSGi installer, the launchpad content provider and the startup handler. */
  datatype Kind = Installer | Provider | Startup

  /** Types of a framework service event. Only Registered and Unregistering are acted upon. */
  datatype EventType = Registered | Modified | Unregistering | ModifiedEndmatch

  /** An opaque service reference handed out by the registry. */
  datatype Ref = Ref(id: nat)

  /** An opaque service object fetched through a reference. */
  datatype Instance = Instance(id: nat)

  /** The registration of the installation-listener wrapper built around a startup handler.
      A registration is identified by the handler it wraps. */
  datatype Registration = Registration(handler: Instance)

  /** What the registry answers to one acquire attempt: the reference found for the
      kind (if any) and the object that fetching through it yields (if any). */
  datatype Answer = Answer(reference: Option<Ref>, instance: Option<Instance>)

  /** A call the coordinator makes to one of its collaborators. */
  datatype Call =
    | GetReferenceCall(kind: Kind)
    | GetServiceCall(ref: Ref)
    | UngetServiceCall(ref: Ref)
    | InstallCall(installer: Instance, provider: Instance)
    | RegisterCall(reg: Registration)
    | UnregisterCall(reg: Registration)
  {
    /** Calls that publish or withdraw the mirrored registration. */
    predicate IsToggle() {
      RegisterCall? || UnregisterCall?
    }
  }
}
