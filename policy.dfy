/**
 * The capability policy as a value: the flattened shape the builder hands
 * to the engine (three switches, three modes, four pattern lists, two
 * feature sets), the with* setters as calls on that value, and what chains
 * of setter calls leave behind.
 */
module CapabilityPolicy {
  import opened Wrappers
  import opened ExperimentalFeatures

  const ModeDefault: int := 0
  const ModeAllowAll: int := 1
  const ModeAllowNone: int := 2

  predicate IsMode(m: int)
  {
    m == ModeDefault || m == ModeAllowAll || m == ModeAllowNone
  }

  /** The three categories that carry a mode and allow/deny entries. */
  datatype Category = Functions | NetTargets | Experimental

  datatype Policy = Policy(
    scripting: bool,
    guestAccess: bool,
    liveQueryNotifications: bool,
    functionsMode: int,
    netTargetsMode: int,
    experimentalMode: int,
    allowedFunctions: seq<string>,
    deniedFunctions: seq<string>,
    allowedNetTargets: seq<string>,
    deniedNetTargets: seq<string>,
    allowedFeatures: set<ExperimentalFeature>,
    deniedFeatures: set<ExperimentalFeature>)
  {
    function Mode(c: Category): int
    {
      match c
      case Functions => functionsMode
      case NetTargets => netTargetsMode
      case Experimental => experimentalMode
    }

    /** The allow list of a pattern category (functions or net targets). */
    function Allowed(c: Category): seq<string>
      requires c != Experimental
    {
      if c == Functions then allowedFunctions else allowedNetTargets
    }

    /** The deny list of a pattern category (functions or net targets). */
    function Denied(c: Category): seq<string>
      requires c != Experimental
    {
      if c == Functions then deniedFunctions else deniedNetTargets
    }

    predicate AllowEmpty(c: Category)
    {
      match c
      case Functions => allowedFunctions == []
      case NetTargets => allowedNetTargets == []
      case Experimental => allowedFeatures == {}
    }

    /** A category's mode is one of the three wire values, and a mode other than Default comes with an empty allow collection. */
    predicate CategoryInv(c: Category)
    {
      IsMode(Mode(c)) && (Mode(c) != ModeDefault ==> AllowEmpty(c))
    }

    predicate Inv()
    {
      CategoryInv(Functions) && CategoryInv(NetTargets) && CategoryInv(Experimental)
    }
  }

  /** One call per with* setter, with its (non-null) argument. */
  datatype Call =
    | Scripting(enabled: bool)
    | GuestAccess(enabled: bool)
    | LiveQueryNotifications(enabled: bool)
    | AllFunctionsAllowed
    | NoFunctionsAllowed
    | FunctionAllowed(name: string)
    | FunctionDenied(name: string)
    | AllNetTargetsAllowed
    | NoNetTargetsAllowed
    | NetTargetAllowed(target: string)
    | NetTargetDenied(target: string)
    | AllExperimentalFeaturesAllowed
    | NoExperimentalFeaturesAllowed
    | ExperimentalFeatureAllowed(feature: ExperimentalFeature)
    | ExperimentalFeatureDenied(feature: ExperimentalFeature)

  /** The effect of one setter on the policy; every setter keeps the invariant. */
  function Step(p: Policy, call: Call): (r: Policy)
    ensures p.Inv() ==> r.Inv()
  {
    match call
    case Scripting(on) => p.(scripting := on)
    case GuestAccess(on) => p.(guestAccess := on)
    case LiveQueryNotifications(on) => p.(liveQueryNotifications := on)
    case AllFunctionsAllowed => p.(functionsMode := ModeAllowAll, allowedFunctions := [])
    case NoFunctionsAllowed => p.(functionsMode := ModeAllowNone, allowedFunctions := [])
    case FunctionAllowed(f) => p.(functionsMode := ModeDefault, allowedFunctions := p.allowedFunctions + [f])
    case FunctionDenied(f) => p.(deniedFunctions := p.deniedFunctions + [f])
    case AllNetTargetsAllowed => p.(netTargetsMode := ModeAllowAll, allowedNetTargets := [])
    case NoNetTargetsAllowed => p.(netTargetsMode := ModeAllowNone, allowedNetTargets := [])
    case NetTargetAllowed(t) => p.(netTargetsMode := ModeDefault, allowedNetTargets := p.allowedNetTargets + [t])
    case NetTargetDenied(t) => p.(deniedNetTargets := p.deniedNetTargets + [t])
    case AllExperimentalFeaturesAllowed => p.(experimentalMode := ModeAllowAll, allowedFeatures := {})
    case NoExperimentalFeaturesAllowed => p.(experimentalMode := ModeAllowNone, allowedFeatures := {})
    case ExperimentalFeatureAllowed(f) => p.(experimentalMode := ModeDefault, allowedFeatures := p.allowedFeatures + {f})
    case ExperimentalFeatureDenied(f) => p.(deniedFeatures := p.deniedFeatures + {f})
  }

  /** A fluent chain of setter calls, applied left to right. */
  function Apply(p: Policy, calls: seq<Call>): (r: Policy)
    ensures p.Inv() ==> r.Inv()
    decreases |calls|
  {
    if calls == [] then p else Apply(Step(p, calls[0]), calls[1..])
  }

  // ---------------------------------------------------------------------
  // How each call bears on one category.

  /** The mode a call sets for category `c`, if it sets one. */
  function ModeSet(call: Call, c: Category): Option<int>
  {
    match call
    case AllFunctionsAllowed => if c == Functions then Some(ModeAllowAll) else None
    case NoFunctionsAllowed => if c == Functions then Some(ModeAllowNone) else None
    case FunctionAllowed(_) => if c == Functions then Some(ModeDefault) else None
    case AllNetTargetsAllowed => if c == NetTargets then Some(ModeAllowAll) else None
    case NoNetTargetsAllowed => if c == NetTargets then Some(ModeAllowNone) else None
    case NetTargetAllowed(_) => if c == NetTargets then Some(ModeDefault) else None
    case AllExperimentalFeaturesAllowed => if c == Experimental then Some(ModeAllowAll) else None
    case NoExperimentalFeaturesAllowed => if c == Experimental then Some(ModeAllowNone) else None
    case ExperimentalFeatureAllowed(_) => if c == Experimental then Some(ModeDefault) else None
    case _ => None
  }

  /** The call empties the allow collection of `c`: it is that category's allow-all or allow-none setter. */
  predicate Clears(call: Call, c: Category)
  {
    ModeSet(call, c) == Some(ModeAllowAll) || ModeSet(call, c) == Some(ModeAllowNone)
  }

  /** The pattern a call adds to the allow list of `c`, as a list of zero or one entries. */
  function AllowEntry(call: Call, c: Category): seq<string>
  {
    match call
    case FunctionAllowed(f) => if c == Functions then [f] else []
    case NetTargetAllowed(t) => if c == NetTargets then [t] else []
    case _ => []
  }

  /** The pattern a call adds to the deny list of `c`, as a list of zero or one entries. */
  function DenyEntry(call: Call, c: Category): seq<string>
  {
    match call
    case FunctionDenied(f) => if c == Functions then [f] else []
    case NetTargetDenied(t) => if c == NetTargets then [t] else []
    case _ => []
  }

  /** Every allow entry for `c` in a chain, in call order. */
  function AllowEntries(calls: seq<Call>, c: Category): seq<string>
    decreases |calls|
  {
    if calls == [] then [] else AllowEntry(calls[0], c) + AllowEntries(calls[1..], c)
  }

  /** Every deny entry for `c` in a chain, in call order. */
  function DenyEntries(calls: seq<Call>, c: Category): seq<string>
    decreases |calls|
  {
    if calls == [] then [] else DenyEntry(calls[0], c) + DenyEntries(calls[1..], c)
  }

  /** The feature a call adds to the allowed set, as a set of zero or one members. */
  function FeatureAllowEntry(call: Call): set<ExperimentalFeature>
  {
    if call.ExperimentalFeatureAllowed? then {call.feature} else {}
  }

  /** The feature a call adds to the denied set, as a set of zero or one members. */
  function FeatureDenyEntry(call: Call): set<ExperimentalFeature>
  {
    if call.ExperimentalFeatureDenied? then {call.feature} else {}
  }

  /** Every experimental feature a chain allows. */
  function FeaturesAllowedBy(calls: seq<Call>): set<ExperimentalFeature>
    decreases |calls|
  {
    if calls == [] then {} else FeatureAllowEntry(calls[0]) + FeaturesAllowedBy(calls[1..])
  }

  /** Every experimental feature a chain denies. */
  function FeaturesDeniedBy(calls: seq<Call>): set<ExperimentalFeature>
    decreases |calls|
  {
    if calls == [] then {} else FeatureDenyEntry(calls[0]) + FeaturesDeniedBy(calls[1..])
  }

  predicate NoClear(calls: seq<Call>, c: Category)
  {
    forall i :: 0 <= i < |calls| ==> !Clears(calls[i], c)
  }

  predicate NoModeSet(calls: seq<Call>, c: Category)
  {
    forall i :: 0 <= i < |calls| ==> ModeSet(calls[i], c).None?
  }

  // ---------------------------------------------------------------------
  // One call.

  /**
   * What one setter does to a category: the mode changes exactly when the
   * call sets it, the allow list is emptied by allow-all/allow-none and
   * otherwise only extended at its end, and the deny list is only extended
   * at its end. For experimental features the same holds of the two sets:
   * allow-all/allow-none empty the allowed set, an allow call adds its
   * feature, and a deny call adds to the denied set only.
   */
  lemma StepOnCategory(p: Policy, call: Call, c: Category)
    ensures Step(p, call).Mode(c) == (if ModeSet(call, c).Some? then ModeSet(call, c).value else p.Mode(c))
    ensures c != Experimental ==>
      Step(p, call).Allowed(c) == (if Clears(call, c) then [] else p.Allowed(c)) + AllowEntry(call, c)
    ensures c != Experimental ==> Step(p, call).Denied(c) == p.Denied(c) + DenyEntry(call, c)
    ensures Step(p, call).allowedFeatures ==
      (if Clears(call, Experimental) then {} else p.allowedFeatures) + FeatureAllowEntry(call)
    ensures Step(p, call).deniedFeatures == p.deniedFeatures + FeatureDenyEntry(call)
  {
  }

  /** The boolean setters change their own switch and nothing else; no other setter changes a switch. */
  lemma StepOnSwitches(p: Policy, call: Call)
    ensures call.Scripting? ==> Step(p, call) == p.(scripting := call.enabled)
    ensures call.GuestAccess? ==> Step(p, call) == p.(guestAccess := call.enabled)
    ensures call.LiveQueryNotifications? ==> Step(p, call) == p.(liveQueryNotifications := call.enabled)
    ensures !call.Scripting? ==> Step(p, call).scripting == p.scripting
    ensures !call.GuestAccess? ==> Step(p, call).guestAccess == p.guestAccess
    ensures !call.LiveQueryNotifications? ==> Step(p, call).liveQueryNotifications == p.liveQueryNotifications
  {
  }

  // ---------------------------------------------------------------------
  // Chains of calls.

  /** Running two chains one after the other is running their concatenation. */
  lemma {:induction false} ApplyConcat(p: Policy, a: seq<Call>, b: seq<Call>)
    ensures Apply(p, a + b) == Apply(Apply(p, a), b)
    decreases |a|
  {
    if a != [] {
      assert (a + b)[1..] == a[1..] + b;
      ApplyConcat(Step(p, a[0]), a[1..], b);
    } else {
      assert a + b == b;
    }
  }

  /** Deny lists are never cleared: after a chain they hold the old entries followed by every deny entry of the chain, in order, duplicates kept. */
  lemma {:induction false} DeniedAccumulates(p: Policy, calls: seq<Call>, c: Category)
    requires c != Experimental
    ensures Apply(p, calls).Denied(c) == p.Denied(c) + DenyEntries(calls, c)
    decreases |calls|
  {
    if calls != [] {
      StepOnCategory(p, calls[0], c);
      DeniedAccumulates(Step(p, calls[0]), calls[1..], c);
    }
  }

  /** Without an allow-all or allow-none call for `c`, its allow list only grows by the chain's allow entries, in order. */
  lemma {:induction false} AllowedWithoutClear(p: Policy, calls: seq<Call>, c: Category)
    requires c != Experimental
    requires NoClear(calls, c)
    ensures Apply(p, calls).Allowed(c) == p.Allowed(c) + AllowEntries(calls, c)
    decreases |calls|
  {
    if calls != [] {
      StepOnCategory(p, calls[0], c);
      assert !Clears(calls[0], c);
      AllowedWithoutClear(Step(p, calls[0]), calls[1..], c);
    }
  }

  /** After the last allow-all or allow-none call for `c`, the allow list is exactly the allow entries made since, in order. */
  lemma AllowedSinceLastClear(p: Policy, before: seq<Call>, clear: Call, after: seq<Call>, c: Category)
    requires c != Experimental
    requires Clears(clear, c)
    requires NoClear(after, c)
    ensures Apply(p, before + [clear] + after).Allowed(c) == AllowEntries(after, c)
  {
    ApplyConcat(p, before + [clear], after);
    ApplyConcat(p, before, [clear]);
    var q := Apply(p, before);
    assert Apply(q, [clear]) == Step(q, clear);
    StepOnCategory(q, clear, c);
    AllowedWithoutClear(Step(q, clear), after, c);
  }

  /** Deny calls and calls for other categories leave a category's mode alone. */
  lemma {:induction false} ModeUntouched(p: Policy, calls: seq<Call>, c: Category)
    requires NoModeSet(calls, c)
    ensures Apply(p, calls).Mode(c) == p.Mode(c)
    decreases |calls|
  {
    if calls != [] {
      StepOnCategory(p, calls[0], c);
      assert ModeSet(calls[0], c).None?;
      ModeUntouched(Step(p, calls[0]), calls[1..], c);
    }
  }

  /** A category's mode is the one set by the last call that sets it: Default for an allow entry, AllowAll or AllowNone for the bulk setters. */
  lemma ModeOfLastSetter(p: Policy, before: seq<Call>, call: Call, after: seq<Call>, c: Category)
    requires ModeSet(call, c).Some?
    requires NoModeSet(after, c)
    ensures Apply(p, before + [call] + after).Mode(c) == ModeSet(call, c).value
  {
    ApplyConcat(p, before + [call], after);
    ApplyConcat(p, before, [call]);
    var q := Apply(p, before);
    assert Apply(q, [call]) == Step(q, call);
    StepOnCategory(q, call, c);
    ModeUntouched(Step(q, call), after, c);
  }

  /** The denied feature set is the old one plus every feature a chain denies; a repeated feature adds nothing. */
  lemma {:induction false} DeniedFeaturesAccumulate(p: Policy, calls: seq<Call>)
    ensures Apply(p, calls).deniedFeatures == p.deniedFeatures + FeaturesDeniedBy(calls)
    decreases |calls|
  {
    if calls != [] {
      DeniedFeaturesAccumulate(Step(p, calls[0]), calls[1..]);
    }
  }

  /** Without an allow-all or allow-none call for experimental features, the allowed set only gains the features the chain allows. */
  lemma {:induction false} AllowedFeaturesWithoutClear(p: Policy, calls: seq<Call>)
    requires NoClear(calls, Experimental)
    ensures Apply(p, calls).allowedFeatures == p.allowedFeatures + FeaturesAllowedBy(calls)
    decreases |calls|
  {
    if calls != [] {
      assert !Clears(calls[0], Experimental);
      AllowedFeaturesWithoutClear(Step(p, calls[0]), calls[1..]);
    }
  }

  /** After the last allow-all or allow-none call for experimental features, the allowed set is exactly the features allowed since. */
  lemma AllowedFeaturesSinceLastClear(p: Policy, before: seq<Call>, clear: Call, after: seq<Call>)
    requires Clears(clear, Experimental)
    requires NoClear(after, Experimental)
    ensures Apply(p, before + [clear] + after).allowedFeatures == FeaturesAllowedBy(after)
  {
    ApplyConcat(p, before + [clear], after);
    ApplyConcat(p, before, [clear]);
    var q := Apply(p, before);
    assert Apply(q, [clear]) == Step(q, clear);
    StepOnCategory(q, clear, Experimental);
    AllowedFeaturesWithoutClear(Step(q, clear), after);
  }

  /** Allowing a feature that is already allowed changes nothing: the set holds it once, and the mode is already Default. */
  lemma AllowFeatureAlreadyAllowed(p: Policy, f: ExperimentalFeature)
    requires p.Inv() && f in p.allowedFeatures
    ensures Step(p, ExperimentalFeatureAllowed(f)) == p
  {
  }

  /** Denying a feature that is already denied changes nothing. */
  lemma DenyFeatureAlreadyDenied(p: Policy, f: ExperimentalFeature)
    requires f in p.deniedFeatures
    ensures Step(p, ExperimentalFeatureDenied(f)) == p
  {
  }

  /** Allowing the same feature twice in a row is the same as allowing it once. */
  lemma AllowFeatureIdempotent(p: Policy, f: ExperimentalFeature)
    ensures Step(Step(p, ExperimentalFeatureAllowed(f)), ExperimentalFeatureAllowed(f)) == Step(p, ExperimentalFeatureAllowed(f))
  {
  }
}
