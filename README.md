# Capability policy builder of the SurrealDB Java client

This project models the client-side capability policy of the SurrealDB Java
SDK. The policy is the security configuration that the embedded engine
enforces. It consists of:

- three switches: scripting, guest access and live-query notifications;
- a mode (`0` Default, `1` AllowAll, `2` AllowNone) for each of functions,
  net targets and experimental features;
- ordered allow and deny lists of pattern strings for functions and net targets;
- allow and deny sets of experimental features.

Three presets (`defaults`, `all`, `none`) build a policy. Fluent `with*`
setters then change it in place. Package-private getters flatten it into
plain values and fresh arrays for the engine.

Modules:

- `ExperimentalFeatures` (`experimental_feature.dfy`): the closed feature enum, its
  stable wire ids (`getValue`), and the export of a feature set as an id array
  in `EnumSet` iteration order.
- `CapabilityPolicy` (`policy.dfy`): the policy as a value (`Policy`, the flattened
  hand-off shape), one `Call` per setter, `Step` (one setter) and `Apply` (a
  fluent chain). It also holds lemmas on what chains of setters leave behind.
- `CapabilityBuilder` (`capabilities.dfy`): the mutable `Capabilities` class. It
  has one field per Java field, with `seq<string>` lists and
  `set<ExperimentalFeature>` sets. Each setter is proved against `Step`
  (`State() == Step(old(State()), call)`) and keeps the class invariant
  `Valid()`.
- `Wrappers` (`wrappers.dfy`): `Option` and `Result`. A `None` argument stands for
  Java `null`. `Failure(NullPointer(msg))` stands for the exception that
  `Objects.requireNonNull` throws.

The class invariant is: every mode is 0, 1 or 2, and a category whose mode
is not Default has an empty allow collection. The private constructor
establishes it for the three presets, and every setter preserves it.

## Model

| member | source | states |
|---|---|---|
| `ExperimentalFeatures.Value` | src/main/java/com/surrealdb/ExperimentalFeature.java:7-20 | `getValue`: the id of every constant lies in 0..3 and equals that constant's position in the declaration order (RECORD_REFERENCES 0, GRAPH_QL 1, BEARER_ACCESS 2, DEFINE_API 3) |
| `ExperimentalFeatures.DeclaredIsComplete` | src/main/java/com/surrealdb/ExperimentalFeature.java:7-10 | the declaration lists every feature, each exactly once |
| `ExperimentalFeatures.ValueInjective` | src/main/java/com/surrealdb/ExperimentalFeature.java:7-20 | distinct features have distinct ids |
| `ExperimentalFeatures.ValueOnto` | src/main/java/com/surrealdb/ExperimentalFeature.java:7-10 | an int is the id of some feature if and only if it lies in 0..3 |
| `ExperimentalFeatures.ExportIds` | src/main/java/com/surrealdb/Capabilities.java:196-202 | streaming a feature set through `getValue` yields the members' ids in strictly ascending order: each member's id exactly once and no other int |
| `ExperimentalFeatures.IdExportUnique` | src/main/java/com/surrealdb/Capabilities.java:196-202 | the exported id array is fully determined by the set: two exports of the same set are equal |
| `CapabilityPolicy.Step` | src/main/java/com/surrealdb/Capabilities.java:66-154 | the effect of each of the fifteen `with*` setters on the policy value; every setter preserves the invariant (modes in {0,1,2}, non-Default mode implies empty allow collection) |
| `CapabilityPolicy.Apply` | src/main/java/com/surrealdb/Capabilities.java:66-154 | a fluent chain of setters, applied left to right, preserves the invariant |
| `CapabilityPolicy.StepOnCategory` | src/main/java/com/surrealdb/Capabilities.java:81-154 | per category, one setter changes the mode exactly when it is that category's allow-all, allow-none or allow-entry setter. Allow-all and allow-none empty the allow list or allowed feature set. An allow entry is appended at the end, or its feature is added. A deny call only adds to the deny list or denied set and touches neither mode nor allow collection |
| `CapabilityPolicy.StepOnSwitches` | src/main/java/com/surrealdb/Capabilities.java:66-79 | each boolean setter changes only its own switch, and no other setter changes a switch |
| `CapabilityPolicy.DeniedAccumulates` | src/main/java/com/surrealdb/Capabilities.java:100-104 | after any chain, a function or net-target deny list is its old contents followed by every deny entry of the chain, in call order with duplicates kept; it is never cleared |
| `CapabilityPolicy.AllowedWithoutClear` | src/main/java/com/surrealdb/Capabilities.java:93-98 | without an allow-all or allow-none call, an allow list is its old contents followed by the chain's allow entries, in order with duplicates kept |
| `CapabilityPolicy.AllowedSinceLastClear` | src/main/java/com/surrealdb/Capabilities.java:81-98 | after the last allow-all or allow-none call for a category, its allow list is exactly the allow entries made since then, in order |
| `CapabilityPolicy.ModeUntouched` | src/main/java/com/surrealdb/Capabilities.java:100-104 | deny calls and calls on other categories never change a category's mode |
| `CapabilityPolicy.ModeOfLastSetter` | src/main/java/com/surrealdb/Capabilities.java:81-98 | a category's mode is the one set by the last allow-all (1), allow-none (2) or allow-entry (0) call for it |
| `CapabilityPolicy.DeniedFeaturesAccumulate` | src/main/java/com/surrealdb/Capabilities.java:150-154 | the denied feature set is the old set united with every feature the chain denies; it is never cleared |
| `CapabilityPolicy.AllowedFeaturesWithoutClear` | src/main/java/com/surrealdb/Capabilities.java:143-148 | without an allow-all or allow-none call, the allowed feature set only gains the features the chain allows |
| `CapabilityPolicy.AllowedFeaturesSinceLastClear` | src/main/java/com/surrealdb/Capabilities.java:131-148 | after the last allow-all or allow-none call for experimental features, the allowed set is exactly the features allowed since then |
| `CapabilityPolicy.AllowFeatureAlreadyAllowed` | src/main/java/com/surrealdb/Capabilities.java:143-148 | in a valid policy, allowing a feature that is already in the allowed set leaves the whole policy unchanged: the set holds it once and the mode is already Default |
| `CapabilityPolicy.DenyFeatureAlreadyDenied` | src/main/java/com/surrealdb/Capabilities.java:150-154 | denying a feature that is already in the denied set leaves the whole policy unchanged |
| `CapabilityPolicy.AllowFeatureIdempotent` | src/main/java/com/surrealdb/Capabilities.java:143-148 | allowing the same feature twice in a row is the same as allowing it once, from any policy |
| `CapabilityBuilder.Capabilities.constructor` | src/main/java/com/surrealdb/Capabilities.java:32-52 | stores the given switches and modes, starts all six collections empty, and establishes the invariant |
| `CapabilityBuilder.Capabilities.Defaults` | src/main/java/com/surrealdb/Capabilities.java:54-56 | `defaults()`: a fresh valid policy (false, false, true, Default, Default, Default) with all collections empty |
| `CapabilityBuilder.Capabilities.All` | src/main/java/com/surrealdb/Capabilities.java:58-60 | `all()`: (true, true, true, AllowAll, AllowAll, Default) with all collections empty; experimental features stay opt-in |
| `CapabilityBuilder.Capabilities.None` | src/main/java/com/surrealdb/Capabilities.java:62-64 | `none()`: (false, false, false, AllowNone, AllowNone, AllowNone) with all collections empty |
| `CapabilityBuilder.Capabilities.WithScripting` | src/main/java/com/surrealdb/Capabilities.java:66-69 | sets only the scripting switch and returns the receiver |
| `CapabilityBuilder.Capabilities.WithGuestAccess` | src/main/java/com/surrealdb/Capabilities.java:71-74 | sets only the guest-access switch and returns the receiver |
| `CapabilityBuilder.Capabilities.WithLiveQueryNotifications` | src/main/java/com/surrealdb/Capabilities.java:76-79 | sets only the live-query switch and returns the receiver |
| `CapabilityBuilder.Capabilities.WithAllFunctionsAllowed` | src/main/java/com/surrealdb/Capabilities.java:81-85 | functions mode 1, allowed functions emptied, everything else unchanged, invariant kept |
| `CapabilityBuilder.Capabilities.WithNoFunctionsAllowed` | src/main/java/com/surrealdb/Capabilities.java:87-91 | functions mode 2, allowed functions emptied, everything else unchanged, invariant kept |
| `CapabilityBuilder.Capabilities.WithFunctionAllowed` | src/main/java/com/surrealdb/Capabilities.java:93-98 | null throws `NullPointer("function")` with the state unchanged; any other string, the empty one included, resets the mode to 0 and is appended at the end |
| `CapabilityBuilder.Capabilities.WithFunctionDenied` | src/main/java/com/surrealdb/Capabilities.java:100-104 | null throws with the state unchanged; otherwise the string is appended to the deny list and nothing else changes |
| `CapabilityBuilder.Capabilities.WithAllNetTargetsAllowed` | src/main/java/com/surrealdb/Capabilities.java:106-110 | net-targets mode 1, allowed targets emptied, everything else unchanged |
| `CapabilityBuilder.Capabilities.WithNoNetTargetsAllowed` | src/main/java/com/surrealdb/Capabilities.java:112-116 | net-targets mode 2, allowed targets emptied, everything else unchanged |
| `CapabilityBuilder.Capabilities.WithNetTargetAllowed` | src/main/java/com/surrealdb/Capabilities.java:118-123 | null throws `NullPointer("target")` with the state unchanged; otherwise mode 0 and the target is appended |
| `CapabilityBuilder.Capabilities.WithNetTargetDenied` | src/main/java/com/surrealdb/Capabilities.java:125-129 | null throws with the state unchanged; otherwise the target is appended to the deny list and nothing else changes |
| `CapabilityBuilder.Capabilities.WithAllExperimentalFeaturesAllowed` | src/main/java/com/surrealdb/Capabilities.java:131-135 | experimental mode 1, allowed feature set emptied, everything else unchanged |
| `CapabilityBuilder.Capabilities.WithNoExperimentalFeaturesAllowed` | src/main/java/com/surrealdb/Capabilities.java:137-141 | experimental mode 2, allowed feature set emptied, everything else unchanged |
| `CapabilityBuilder.Capabilities.WithExperimentalFeatureAllowed` | src/main/java/com/surrealdb/Capabilities.java:143-148 | null throws `NullPointer("feature")` with the state unchanged; otherwise mode 0 and the feature is added to the set |
| `CapabilityBuilder.Capabilities.WithExperimentalFeatureDenied` | src/main/java/com/surrealdb/Capabilities.java:150-154 | null throws with the state unchanged; otherwise the feature is added to the deny set and nothing else changes |
| `CapabilityBuilder.Capabilities.IsScripting` | src/main/java/com/surrealdb/Capabilities.java:156-158 | exports the scripting switch as last set |
| `CapabilityBuilder.Capabilities.IsGuestAccess` | src/main/java/com/surrealdb/Capabilities.java:160-162 | exports the guest-access switch as last set |
| `CapabilityBuilder.Capabilities.IsLiveQueryNotifications` | src/main/java/com/surrealdb/Capabilities.java:164-166 | exports the live-query switch as last set |
| `CapabilityBuilder.Capabilities.GetFunctionsMode` | src/main/java/com/surrealdb/Capabilities.java:168-170 | the exported functions mode is a wire value 0..2, and a non-Default mode is exported with no allowed functions |
| `CapabilityBuilder.Capabilities.GetNetTargetsMode` | src/main/java/com/surrealdb/Capabilities.java:172-174 | the exported net-targets mode is 0..2, and a non-Default mode is exported with no allowed targets |
| `CapabilityBuilder.Capabilities.GetExperimentalMode` | src/main/java/com/surrealdb/Capabilities.java:176-178 | the exported experimental mode is 0..2, and a non-Default mode is exported with no allowed features |
| `CapabilityBuilder.Capabilities.GetAllowedFunctionsArray` | src/main/java/com/surrealdb/Capabilities.java:180-182 | a freshly allocated array whose contents and order equal the allow list |
| `CapabilityBuilder.Capabilities.GetDeniedFunctionsArray` | src/main/java/com/surrealdb/Capabilities.java:184-186 | a freshly allocated array whose contents and order equal the deny list |
| `CapabilityBuilder.Capabilities.GetAllowedNetTargetsArray` | src/main/java/com/surrealdb/Capabilities.java:188-190 | a freshly allocated array whose contents and order equal the allowed targets |
| `CapabilityBuilder.Capabilities.GetDeniedNetTargetsArray` | src/main/java/com/surrealdb/Capabilities.java:192-194 | a freshly allocated array whose contents and order equal the denied targets |
| `CapabilityBuilder.Capabilities.GetAllowedExperimentalFeaturesArray` | src/main/java/com/surrealdb/Capabilities.java:196-198 | a fresh int array holding the id of each allowed feature exactly once, ascending, and nothing else |
| `CapabilityBuilder.Capabilities.GetDeniedExperimentalFeaturesArray` | src/main/java/com/surrealdb/Capabilities.java:200-202 | a fresh int array holding the id of each denied feature exactly once, ascending, and nothing else |
| `CapabilityBuilder.CopyOut` | src/main/java/com/surrealdb/Capabilities.java:180-194 | `List.toArray`: a new array with the list's contents in order |
| `CapabilityBuilder.RunChain` | src/main/java/com/surrealdb/Capabilities.java:66-154 | running any chain of setter calls on the object keeps it valid and leaves exactly the state `Apply` gives, so the chain lemmas hold of the class |
| `CapabilityBuilder.ExportIsDetached` | src/main/java/com/surrealdb/Capabilities.java:180-182 | for any chain of setter calls made after the export, the exported array still holds the allow list as it was at export time |

## Left out

- Policy evaluation (deny overrides allow, then mode, then allow list) and `::`/`*` pattern matching. No modelled file implements them; the engine enforces them. The model covers only what the builder encodes.
- Empty-pattern rejection. The builder checks only for `null` (`Objects.requireNonNull`). An empty string is accepted and stored, and the model does the same.
- Java object identity. A setter returning `this` is modelled as a result equal to the receiver. `EnumSet` internals are modelled as a `set`, and iteration order as the declaration order. The JNI hand-off of the exported arrays to the native engine is not part of this model.
- `CapabilityBuilder.Capabilities.constructor`: requires its three mode arguments to be 0, 1 or 2. The Java constructor accepts any int, but it is private and its only callers (the three presets) pass those constants.
- Mode fields are Java `int`. Only the three constants are ever stored, so 32-bit overflow cannot arise and is not modelled.
- The record marshalling layer (value codec, record identifiers) and `TypeTests.java`, which drives the native engine, are I/O and foreign calls. They are not part of this model.
- `pojos/ByteData.java` is a plain test fixture whose `equals` and `hashCode` delegate to `java.util.Arrays`. It has no behaviour of its own to model.
