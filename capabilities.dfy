/**
 * The fluent capability builder. Its fields are overwritten in place by the
 * with* setters; package-private getters copy the state out for the engine.
 */
module CapabilityBuilder {
  import opened Wrappers
  import opened ExperimentalFeatures
  import opened CapabilityPolicy

  /** The exception `Objects.requireNonNull` throws; its message names the argument. */
  datatype NullPointer = NullPointer(message: string)

  class Capabilities {
    var scripting: bool
    var guestAccess: bool
    var liveQueryNotifications: bool

    var functionsMode: int
    var netTargetsMode: int
    var experimentalMode: int

    var allowedFunctions: seq<string>
    var deniedFunctions: seq<string>
    var allowedNetTargets: seq<string>
    var deniedNetTargets: seq<string>
    var allowedExperimentalFeatures: set<ExperimentalFeature>
    var deniedExperimentalFeatures: set<ExperimentalFeature>

    /** The current configuration as a value. */
    function State(): Policy
      reads this
    {
      Policy(scripting, guestAccess, liveQueryNotifications,
             functionsMode, netTargetsMode, experimentalMode,
             allowedFunctions, deniedFunctions, allowedNetTargets, deniedNetTargets,
             allowedExperimentalFeatures, deniedExperimentalFeatures)
    }

    /** Modes are wire values, and a mode other than Default never coexists with allow entries. */
    predicate Valid()
      reads this
    {
      State().Inv()
    }

    /** The private constructor: the given switches and modes, every collection empty. */
    constructor (scripting: bool, guestAccess: bool, liveQueryNotifications: bool,
                 functionsMode: int, netTargetsMode: int, experimentalMode: int)
      requires IsMode(functionsMode) && IsMode(netTargetsMode) && IsMode(experimentalMode)
      ensures Valid()
      ensures State() == Policy(scripting, guestAccess, liveQueryNotifications,
                                functionsMode, netTargetsMode, experimentalMode,
                                [], [], [], [], {}, {})
    {
      this.scripting := scripting;
      this.guestAccess := guestAccess;
      this.liveQueryNotifications := liveQueryNotifications;
      this.functionsMode := functionsMode;
      this.netTargetsMode := netTargetsMode;
      this.experimentalMode := experimentalMode;
      this.allowedFunctions := [];
      this.deniedFunctions := [];
      this.allowedNetTargets := [];
      this.deniedNetTargets := [];
      this.allowedExperimentalFeatures := {};
      this.deniedExperimentalFeatures := {};
    }

    /** Scripting and guest access off, live-query notifications on, every mode Default. */
    static method Defaults() returns (c: Capabilities)
      ensures fresh(c) && c.Valid()
      ensures c.State() == Policy(false, false, true, ModeDefault, ModeDefault, ModeDefault,
                                  [], [], [], [], {}, {})
    {
      c := new Capabilities(false, false, true, ModeDefault, ModeDefault, ModeDefault);
    }

    /** Every switch on, functions and net targets AllowAll; experimental features stay Default (opt-in). */
    static method All() returns (c: Capabilities)
      ensures fresh(c) && c.Valid()
      ensures c.State() == Policy(true, true, true, ModeAllowAll, ModeAllowAll, ModeDefault,
                                  [], [], [], [], {}, {})
    {
      c := new Capabilities(true, true, true, ModeAllowAll, ModeAllowAll, ModeDefault);
    }

    /** Every switch off, every mode AllowNone. */
    static method None() returns (c: Capabilities)
      ensures fresh(c) && c.Valid()
      ensures c.State() == Policy(false, false, false, ModeAllowNone, ModeAllowNone, ModeAllowNone,
                                  [], [], [], [], {}, {})
    {
      c := new Capabilities(false, false, false, ModeAllowNone, ModeAllowNone, ModeAllowNone);
    }

    // -------------------------------------------------------------------
    // Switches.

    method WithScripting(enabled: bool) returns (self: Capabilities)
      requires Valid()
      modifies this
      ensures Valid() && self == this
      ensures State() == Step(old(State()), Scripting(enabled))
    {
      scripting := enabled;
      return this;
    }

    method WithGuestAccess(enabled: bool) returns (self: Capabilities)
      requires Valid()
      modifies this
      ensures Valid() && self == this
      ensures State() == Step(old(State()), GuestAccess(enabled))
    {
      guestAccess := enabled;
      return this;
    }

    method WithLiveQueryNotifications(enabled: bool) returns (self: Capabilities)
      requires Valid()
      modifies this
      ensures Valid() && self == this
      ensures State() == Step(old(State()), LiveQueryNotifications(enabled))
    {
      liveQueryNotifications := enabled;
      return this;
    }

    // -------------------------------------------------------------------
    // Functions.

    method WithAllFunctionsAllowed() returns (self: Capabilities)
      requires Valid()
      modifies this
      ensures Valid() && self == this
      ensures functionsMode == ModeAllowAll && allowedFunctions == []
      ensures State() == Step(old(State()), AllFunctionsAllowed)
    {
      functionsMode := ModeAllowAll;
      allowedFunctions := [];
      return this;
    }

    method WithNoFunctionsAllowed() returns (self: Capabilities)
      requires Valid()
      modifies this
      ensures Valid() && self == this
      ensures functionsMode == ModeAllowNone && allowedFunctions == []
      ensures State() == Step(old(State()), NoFunctionsAllowed)
    {
      functionsMode := ModeAllowNone;
      allowedFunctions := [];
      return this;
    }

    /** A null name throws before any field changes; any other string, the empty one included, is appended. */
    method WithFunctionAllowed(name: Option<string>) returns (r: Result<Capabilities, NullPointer>)
      requires Valid()
      modifies this
      ensures Valid()
      ensures name.None? ==> r == Failure(NullPointer("function")) && State() == old(State())
      ensures name.Some? ==> r == Success(this)
      ensures name.Some? ==> functionsMode == ModeDefault && allowedFunctions == old(allowedFunctions) + [name.value]
      ensures name.Some? ==> State() == Step(old(State()), FunctionAllowed(name.value))
    {
      if name.None? {
        return Failure(NullPointer("function"));
      }
      functionsMode := ModeDefault;
      allowedFunctions := allowedFunctions + [name.value];
      return Success(this);
    }

    method WithFunctionDenied(name: Option<string>) returns (r: Result<Capabilities, NullPointer>)
      requires Valid()
      modifies this
      ensures Valid()
      ensures name.None? ==> r == Failure(NullPointer("function")) && State() == old(State())
      ensures name.Some? ==> r == Success(this)
      ensures name.Some? ==> deniedFunctions == old(deniedFunctions) + [name.value]
      ensures name.Some? ==> State() == Step(old(State()), FunctionDenied(name.value))
    {
      if name.None? {
        return Failure(NullPointer("function"));
      }
      deniedFunctions := deniedFunctions + [name.value];
      return Success(this);
    }

    // -------------------------------------------------------------------
    // Net targets.

    method WithAllNetTargetsAllowed() returns (self: Capabilities)
      requires Valid()
      modifies this
      ensures Valid() && self == this
      ensures netTargetsMode == ModeAllowAll && allowedNetTargets == []
      ensures State() == Step(old(State()), AllNetTargetsAllowed)
    {
      netTargetsMode := ModeAllowAll;
      allowedNetTargets := [];
      return this;
    }

    method WithNoNetTargetsAllowed() returns (self: Capabilities)
      requires Valid()
      modifies this
      ensures Valid() && self == this
      ensures netTargetsMode == ModeAllowNone && allowedNetTargets == []
      ensures State() == Step(old(State()), NoNetTargetsAllowed)
    {
      netTargetsMode := ModeAllowNone;
      allowedNetTargets := [];
      return this;
    }

    method WithNetTargetAllowed(target: Option<string>) returns (r: Result<Capabilities, NullPointer>)
      requires Valid()
      modifies this
      ensures Valid()
      ensures target.None? ==> r == Failure(NullPointer("target")) && State() == old(State())
      ensures target.Some? ==> r == Success(this)
      ensures target.Some? ==> netTargetsMode == ModeDefault && allowedNetTargets == old(allowedNetTargets) + [target.value]
      ensures target.Some? ==> State() == Step(old(State()), NetTargetAllowed(target.value))
    {
      if target.None? {
        return Failure(NullPointer("target"));
      }
      netTargetsMode := ModeDefault;
      allowedNetTargets := allowedNetTargets + [target.value];
      return Success(this);
    }

    method WithNetTargetDenied(target: Option<string>) returns (r: Result<Capabilities, NullPointer>)
      requires Valid()
      modifies this
      ensures Valid()
      ensures target.None? ==> r == Failure(NullPointer("target")) && State() == old(State())
      ensures target.Some? ==> r == Success(this)
      ensures target.Some? ==> deniedNetTargets == old(deniedNetTargets) + [target.value]
      ensures target.Some? ==> State() == Step(old(State()), NetTargetDenied(target.value))
    {
      if target.None? {
        return Failure(NullPointer("target"));
      }
      deniedNetTargets := deniedNetTargets + [target.value];
      return Success(this);
    }

    // -------------------------------------------------------------------
    // Experimental features.

    method WithAllExperimentalFeaturesAllowed() returns (self: Capabilities)
      requires Valid()
      modifies this
      ensures Valid() && self == this
      ensures experimentalMode == ModeAllowAll && allowedExperimentalFeatures == {}
      ensures State() == Step(old(State()), AllExperimentalFeaturesAllowed)
    {
      experimentalMode := ModeAllowAll;
      allowedExperimentalFeatures := {};
      return this;
    }

    method WithNoExperimentalFeaturesAllowed() returns (self: Capabilities)
      requires Valid()
      modifies this
      ensures Valid() && self == this
      ensures experimentalMode == ModeAllowNone && allowedExperimentalFeatures == {}
      ensures State() == Step(old(State()), NoExperimentalFeaturesAllowed)
    {
      experimentalMode := ModeAllowNone;
      allowedExperimentalFeatures := {};
      return this;
    }

    method WithExperimentalFeatureAllowed(feature: Option<ExperimentalFeature>) returns (r: Result<Capabilities, NullPointer>)
      requires Valid()
      modifies this
      ensures Valid()
      ensures feature.None? ==> r == Failure(NullPointer("feature")) && State() == old(State())
      ensures feature.Some? ==> r == Success(this)
      ensures feature.Some? ==> experimentalMode == ModeDefault
      ensures feature.Some? ==> allowedExperimentalFeatures == old(allowedExperimentalFeatures) + {feature.value}
      ensures feature.Some? ==> State() == Step(old(State()), ExperimentalFeatureAllowed(feature.value))
    {
      if feature.None? {
        return Failure(NullPointer("feature"));
      }
      experimentalMode := ModeDefault;
      allowedExperimentalFeatures := allowedExperimentalFeatures + {feature.value};
      return Success(this);
    }

    method WithExperimentalFeatureDenied(feature: Option<ExperimentalFeature>) returns (r: Result<Capabilities, NullPointer>)
      requires Valid()
      modifies this
      ensures Valid()
      ensures feature.None? ==> r == Failure(NullPointer("feature")) && State() == old(State())
      ensures feature.Some? ==> r == Success(this)
      ensures feature.Some? ==> deniedExperimentalFeatures == old(deniedExperimentalFeatures) + {feature.value}
      ensures feature.Some? ==> State() == Step(old(State()), ExperimentalFeatureDenied(feature.value))
    {
      if feature.None? {
        return Failure(NullPointer("feature"));
      }
      deniedExperimentalFeatures := deniedExperimentalFeatures + {feature.value};
      return Success(this);
    }

    // -------------------------------------------------------------------
    // Export getters, read by the engine at hand-off.

    method IsScripting() returns (b: bool)
      ensures b == scripting
    {
      b := scripting;
    }

    method IsGuestAccess() returns (b: bool)
      ensures b == guestAccess
    {
      b := guestAccess;
    }

    method IsLiveQueryNotifications() returns (b: bool)
      ensures b == liveQueryNotifications
    {
      b := liveQueryNotifications;
    }

    /** The exported mode is a wire value, and anything but Default means no allowed functions are exported. */
    method GetFunctionsMode() returns (m: int)
      requires Valid()
      ensures m == functionsMode && IsMode(m)
      ensures m != ModeDefault ==> allowedFunctions == []
    {
      m := functionsMode;
    }

    method GetNetTargetsMode() returns (m: int)
      requires Valid()
      ensures m == netTargetsMode && IsMode(m)
      ensures m != ModeDefault ==> allowedNetTargets == []
    {
      m := netTargetsMode;
    }

    method GetExperimentalMode() returns (m: int)
      requires Valid()
      ensures m == experimentalMode && IsMode(m)
      ensures m != ModeDefault ==> allowedExperimentalFeatures == {}
    {
      m := experimentalMode;
    }

    /** A fresh array with the allow list's entries in insertion order. */
    method GetAllowedFunctionsArray() returns (a: array<string>)
      ensures fresh(a) && a[..] == allowedFunctions
    {
      a := CopyOut(allowedFunctions);
    }

    method GetDeniedFunctionsArray() returns (a: array<string>)
      ensures fresh(a) && a[..] == deniedFunctions
    {
      a := CopyOut(deniedFunctions);
    }

    method GetAllowedNetTargetsArray() returns (a: array<string>)
      ensures fresh(a) && a[..] == allowedNetTargets
    {
      a := CopyOut(allowedNetTargets);
    }

    method GetDeniedNetTargetsArray() returns (a: array<string>)
      ensures fresh(a) && a[..] == deniedNetTargets
    {
      a := CopyOut(deniedNetTargets);
    }

    /** A fresh array holding the id of each allowed feature exactly once, ascending. */
    method GetAllowedExperimentalFeaturesArray() returns (a: array<int>)
      ensures fresh(a) && IsIdExport(a[..], allowedExperimentalFeatures)
    {
      var ids := ExportIds(allowedExperimentalFeatures);
      a := new int[|ids|](i requires 0 <= i < |ids| => ids[i]);
      assert a[..] == ids;
    }

    method GetDeniedExperimentalFeaturesArray() returns (a: array<int>)
      ensures fresh(a) && IsIdExport(a[..], deniedExperimentalFeatures)
    {
      var ids := ExportIds(deniedExperimentalFeatures);
      a := new int[|ids|](i requires 0 <= i < |ids| => ids[i]);
      assert a[..] == ids;
    }
  }

  /** `List.toArray`: a new array with the list's contents in order. */
  method CopyOut(s: seq<string>) returns (a: array<string>)
    ensures fresh(a) && a[..] == s
  {
    a := new string[|s|](i requires 0 <= i < |s| => s[i]);
  }

  /** Sends a fluent chain to the builder, one setter per call, left to right. */
  method RunChain(c: Capabilities, calls: seq<Call>)
    requires c.Valid()
    modifies c
    ensures c.Valid() && c.State() == Apply(old(c.State()), calls)
  {
    for i := 0 to |calls|
      invariant c.Valid()
      invariant Apply(old(c.State()), calls) == Apply(c.State(), calls[i..])
    {
      assert calls[i..][1..] == calls[i + 1..];
      match calls[i]
      case Scripting(on) => var _ := c.WithScripting(on);
      case GuestAccess(on) => var _ := c.WithGuestAccess(on);
      case LiveQueryNotifications(on) => var _ := c.WithLiveQueryNotifications(on);
      case AllFunctionsAllowed => var _ := c.WithAllFunctionsAllowed();
      case NoFunctionsAllowed => var _ := c.WithNoFunctionsAllowed();
      case FunctionAllowed(f) => var _ := c.WithFunctionAllowed(Some(f));
      case FunctionDenied(f) => var _ := c.WithFunctionDenied(Some(f));
      case AllNetTargetsAllowed => var _ := c.WithAllNetTargetsAllowed();
      case NoNetTargetsAllowed => var _ := c.WithNoNetTargetsAllowed();
      case NetTargetAllowed(t) => var _ := c.WithNetTargetAllowed(Some(t));
      case NetTargetDenied(t) => var _ := c.WithNetTargetDenied(Some(t));
      case AllExperimentalFeaturesAllowed => var _ := c.WithAllExperimentalFeaturesAllowed();
      case NoExperimentalFeaturesAllowed => var _ := c.WithNoExperimentalFeaturesAllowed();
      case ExperimentalFeatureAllowed(f) => var _ := c.WithExperimentalFeatureAllowed(Some(f));
      case ExperimentalFeatureDenied(f) => var _ := c.WithExperimentalFeatureDenied(Some(f));
    }
    assert calls[|calls|..] == [];
  }

  /** An exported array is a snapshot: whatever chain of setters runs after the export, the array keeps the list as it was. */
  method ExportIsDetached(c: Capabilities, calls: seq<Call>) returns (exported: array<string>)
    requires c.Valid()
    modifies c
    ensures fresh(exported) && exported[..] == old(c.allowedFunctions)
    ensures c.Valid() && c.State() == Apply(old(c.State()), calls)
  {
    exported := c.GetAllowedFunctionsArray();
    RunChain(c, calls);
  }
}
