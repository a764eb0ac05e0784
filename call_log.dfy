/** The record of collaborator calls: how many times the one-shot install ran,
    which mirrored registration is outstanding, and whether publish and withdraw
    calls alternate. The functions read the log from its end, the way it grows. */
module CallLog {
  import opened LaunchpadTypes

  function Front(log: seq<Call>): seq<Call>
    requires log != []
  {
    log[..|log| - 1]
  }

  function Last(log: seq<Call>): Call
    requires log != []
  {
    log[|log| - 1]
  }

  /** Number of calls to the one-shot install action. */
  function InstallCount(log: seq<Call>): nat
  {
    if log == [] then 0
    else InstallCount(Front(log)) + (if Last(log).InstallCall? then 1 else 0)
  }

  /** The registration published by the last publish call, unless a withdraw came after it. */
  function Outstanding(log: seq<Call>): Option<Registration>
  {
    if log == [] then None
    else match Last(log)
      case RegisterCall(r) => Some(r)
      case UnregisterCall(_) => None
      case _ => Outstanding(Front(log))
  }

  /** A call is allowed after `log` when it publishes only while nothing is
      published and withdraws exactly the registration that is published. */
  predicate Allowed(log: seq<Call>, c: Call)
  {
    match c
    case RegisterCall(_) => Outstanding(log).None?
    case UnregisterCall(r) => Outstanding(log) == Some(r)
    case _ => true
  }

  /** Every call of the log was allowed when it was made. */
  predicate Alternates(log: seq<Call>)
  {
    log == [] || (Alternates(Front(log)) && Allowed(Front(log), Last(log)))
  }

  /** The publish and withdraw calls of the log, in order. */
  function Toggles(log: seq<Call>): (t: seq<Call>)
    ensures |t| <= |log|
    ensures forall i :: 0 <= i < |t| ==> t[i].IsToggle()
  {
    if log == [] then []
    else Toggles(Front(log)) + (if Last(log).IsToggle() then [Last(log)] else [])
  }

  /** How each of the functions above sees one more call. */
  lemma Snoc(log: seq<Call>, c: Call)
    ensures Front(log + [c]) == log && Last(log + [c]) == c
    ensures InstallCount(log + [c]) == InstallCount(log) + (if c.InstallCall? then 1 else 0)
    ensures Outstanding(log + [c]) ==
              (if c.RegisterCall? then Some(c.reg)
               else if c.UnregisterCall? then None
               else Outstanding(log))
    ensures Alternates(log + [c]) == (Alternates(log) && Allowed(log, c))
    ensures Toggles(log + [c]) == Toggles(log) + (if c.IsToggle() then [c] else [])
  {
    assert (log + [c])[..|log|] == log;
  }

  /** The outstanding registration is the one published by the last toggle,
      if that toggle is a publish. */
  lemma {:induction false} OutstandingIsLastToggle(log: seq<Call>)
    ensures Outstanding(log) ==
              (if Toggles(log) == [] || Last(Toggles(log)).UnregisterCall? then None
               else Some(Last(Toggles(log)).reg))
  {
    if log != [] {
      var f, c := Front(log), Last(log);
      assert log == f + [c];
      OutstandingIsLastToggle(f);
      Snoc(f, c);
    }
  }

  /** Publish and withdraw calls strictly alternate, starting with a publish; every
      withdraw names the registration the preceding publish created; and a
      registration is outstanding exactly when the number of toggles is odd. */
  lemma {:induction false} TogglesAlternate(log: seq<Call>)
    requires Alternates(log)
    ensures forall i :: 0 <= i < |Toggles(log)| ==>
              (Toggles(log)[i].RegisterCall? <==> i % 2 == 0)
    ensures forall i :: 0 < i < |Toggles(log)| && Toggles(log)[i].UnregisterCall? ==>
              Toggles(log)[i].reg == Toggles(log)[i - 1].reg
    ensures Outstanding(log).Some? <==> |Toggles(log)| % 2 == 1
  {
    if log != [] {
      var f, c := Front(log), Last(log);
      assert log == f + [c];
      Snoc(f, c);
      TogglesAlternate(f);
      OutstandingIsLastToggle(f);
    }
  }
}
