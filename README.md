# Transform gate of the allocation-instrumenting Java agent

The agent rewrites loaded classes so that every allocation runs between a pre-allocation and a
post-allocation hook. The JVM calls `Transformer.transform` once per class definition or
redefinition. `transform` either returns `null` ("no change") or hands the original class bytes
to `instrument`, which runs the ASM rewriter and returns the new bytes or rethrows its failure.
Classes opt in through the public static set `transformMe`.

The repository holds two variants of `sandbox.instrumentation.Transformer`, and both are modelled
side by side:

- `Main/…/Transformer.java` (module `MainTransformer`) first skips every class whose binary name
  (slash-separated, as in section 4.2.1 of the Java Virtual Machine Specification) starts with
  `java/lang/ThreadLocal`, `java/lang/Class`, `java/lang/reflect/Array` or `sandbox/`. It then skips
  classes that are not in `transformMe`, and rewrites the rest.
- `src/…/Transformer.java` (module `SrcTransformer`) looks only at membership in `transformMe`.

Module `Instrumentation` holds what the variants share:

- the outcome of a call: `NoChange` for `null`, `Rewritten(bytes)`, or `Failed(cause)` for a throw;
- `instrument`, taken as a parameter `instrument: Rewriter`, a total function from bytes to new
  bytes or a `Throwable`. Where two calls are compared (the two variants, or one gate before and
  after a registration), both get the same `instrument`;
- the membership test;
- the class `RegistrationSet`, which holds `transformMe` and offers only an add operation.

Module `Names` models `String.startsWith` character by character and proves it equal to the slice
definition of a prefix. Module `Variants` relates the two gates.

The gate functions take the contents of `transformMe` as an argument. `transform` only reads the
set, so no call of it can change what a later call decides.

The membership test can throw. `transformMe` is `Collections.newSetFromMap(new ConcurrentHashMap<…>())`. `contains(null)` on it
throws `NullPointerException`, because `ConcurrentHashMap` refuses null keys. The field is
`public static` and not `final`; the model assumes the set object built at line 18 is never
replaced (a `HashSet` put in its place would answer `false` instead of throwing). The JVM passes
`cls == null` for the first definition of a class. So for a first definition that reaches the
membership test, both gates end in `Failed(NullPointerException)`. In the `Main/` variant this
applies to every name outside the four prefixes; in the `src/` variant it applies to every name.
A class object can only be in the set once the class exists. So only a redefinition or
retransformation of a registered class is ever rewritten.

The class name can be null too: a class loader may define a class without giving its name.
The `Main/` variant then throws `NullPointerException` from its first `startsWith` call, before
any prefix or membership test. The `src/` variant never reads the name. Both gates therefore take
the name as an `Option<string>`.

## Model

| member | source | states |
|---|---|---|
| `Instrumentation.Instrument` | Main/src/main/sandbox/instrumentation/Transformer.java:63-83 | `instrument` never yields "no change"; it returns the rewriter's bytes exactly when the rewriter succeeds, and otherwise rethrows the rewriter's failure unchanged |
| `Instrumentation.Contains` | Main/src/main/sandbox/instrumentation/Transformer.java:18 | `transformMe.contains(cls)` throws `NullPointerException` exactly when `cls` is absent, and otherwise answers whether `cls` is in the set |
| `Instrumentation.ContainsMonotone` | src/main/sandbox/instrumentation/Transformer.java:18 | adding classes to `transformMe` never turns a positive membership answer negative, and does not change when the test throws |
| `Instrumentation.RegistrationSet.constructor` | Main/src/main/sandbox/instrumentation/Transformer.java:18 | `transformMe` starts empty |
| `Instrumentation.RegistrationSet.Register` | src/main/sandbox/instrumentation/Transformer.java:18 | registering adds exactly the given class and removes nothing; the result says whether the class was new |
| `Names.StartsWithIsPrefix` | Main/src/main/sandbox/instrumentation/Transformer.java:38-44 | the character-by-character `startsWith` holds exactly when the prefix is no longer than the name and equals the name's initial slice |
| `Names.StartsWithSelf` | Main/src/main/sandbox/instrumentation/Transformer.java:38-44 | every name starts with itself |
| `Names.StartsWithExtended` | Main/src/main/sandbox/instrumentation/Transformer.java:38-44 | appending characters to a name keeps every prefix it had |
| `Names.StartsWithTransitive` | Main/src/main/sandbox/instrumentation/Transformer.java:38-44 | prefixes compose: if `s` starts with `p` and `p` starts with `q`, then `s` starts with `q` |
| `MainTransformer.Transform` | Main/src/main/sandbox/instrumentation/Transformer.java:27-52 | a missing name throws `NullPointerException`; an excluded name gives `null`. Otherwise: an absent class throws `NullPointerException`, an unregistered class gives `null`, and a registered class gives exactly `instrument(origBytes)` |
| `MainTransformer.NullNameThrows` | Main/src/main/sandbox/instrumentation/Transformer.java:38 | a missing name throws `NullPointerException` at the first prefix test, whatever the registration set, the class, the bytes and the rewriter are |
| `MainTransformer.ExclusionIsPrefixClosed` | Main/src/main/sandbox/instrumentation/Transformer.java:38-45 | any name that starts with an excluded name is excluded too |
| `MainTransformer.ExcludedPrefixExtended` | Main/src/main/sandbox/instrumentation/Transformer.java:38-45 | each of the four prefixes, followed by anything, is excluded |
| `MainTransformer.ClassLoaderIsExcluded` | Main/src/main/sandbox/instrumentation/Transformer.java:40-41 | `java/lang/ClassLoader` is excluded because it starts with `java/lang/Class` |
| `MainTransformer.ApplicationClassNotExcluded` | Main/src/main/sandbox/instrumentation/Transformer.java:38-45 | a name outside the four families, such as `app/Widget`, passes every prefix test |
| `MainTransformer.ExclusionOverridesRegistration` | Main/src/main/sandbox/instrumentation/Transformer.java:38-46 | an excluded name gives `null` whatever `transformMe`, `cls`, the bytes and the rewriter are |
| `MainTransformer.RewrittenExactlyWhenRegistered` | Main/src/main/sandbox/instrumentation/Transformer.java:38-50 | new bytes come back if and only if the name is present and not excluded, the class is registered, and the rewriter succeeds |
| `MainTransformer.NoSilentFallback` | Main/src/main/sandbox/instrumentation/Transformer.java:38-51 | every outcome is `null`, the membership test's exception, or the rewriter's result. Returned bytes are always the rewriter's output; the original bytes come back only if the rewriter itself produced them |
| `MainTransformer.RewriteFailurePropagates` | Main/src/main/sandbox/instrumentation/Transformer.java:74-81 | when a non-excluded, registered class fails to rewrite, the caller gets the rewriter's own failure, not `null` and not the original bytes |
| `MainTransformer.RegistrationMonotone` | Main/src/main/sandbox/instrumentation/Transformer.java:46-50 | registering one more class never turns a rewrite or a throw into `null`, and leaves the outcome of every other class unchanged |
| `SrcTransformer.Transform` | src/main/sandbox/instrumentation/Transformer.java:34-50 | an absent class throws `NullPointerException`, an unregistered class gives `null`, and a registered class gives exactly `instrument(origBytes)` |
| `SrcTransformer.NameIrrelevant` | src/main/sandbox/instrumentation/Transformer.java:45-49 | the outcome does not depend on the class name, so registered `sandbox/` classes are rewritten too |
| `SrcTransformer.RewrittenExactlyWhenRegistered` | src/main/sandbox/instrumentation/Transformer.java:45-48 | new bytes come back if and only if the class is registered and the rewriter succeeds |
| `SrcTransformer.NoSilentFallback` | src/main/sandbox/instrumentation/Transformer.java:45-49 | every outcome is `null`, the membership test's exception, or the rewriter's result. The original bytes come back only if the rewriter itself produced them |
| `SrcTransformer.RewriteFailurePropagates` | src/main/sandbox/instrumentation/Transformer.java:72-80 | when a registered class fails to rewrite, including by `RuntimeException` or `StackOverflowError`, the caller gets the rewriter's own failure |
| `SrcTransformer.RegistrationMonotone` | src/main/sandbox/instrumentation/Transformer.java:45-48 | registering one more class never turns a rewrite or a throw into `null`, and leaves the outcome of every other class unchanged |
| `Variants.AgreeOutsideExclusion` | Main/src/main/sandbox/instrumentation/Transformer.java:46-50 | on a present name outside the four prefixes, the two variants give the same outcome for every input |
| `Variants.MainRewritesAreSrcRewrites` | Main/src/main/sandbox/instrumentation/Transformer.java:38-50 | every class the `Main/` variant rewrites, the `src/` variant rewrites to the same bytes; on a present name, whenever `Main/` rewrites or throws, `src/` gives the same outcome |
| `Variants.DifferOnExcluded` | Main/src/main/sandbox/instrumentation/Transformer.java:38-45 | on an excluded name `Main/` gives `null`; `src/` hands a registered class to the rewriter, throws `NullPointerException` on an absent class, and gives `null` exactly for a present unregistered class |
| `Variants.DifferOnNullName` | Main/src/main/sandbox/instrumentation/Transformer.java:38 | on a missing name `Main/` throws `NullPointerException`, while `src/` rewrites a registered class as usual |

## Left out

- The ASM pipeline inside `instrument` (`ClassReader`, `ClassAdapter`, `ClassWriter` with `COMPUTE_FRAMES`, `SKIP_FRAMES`). It is a foreign library, and the allocation-site rewriter `ClassAdapter` is not part of this model. `instrument` is an arbitrary total function from bytes to bytes or a failure, so nothing is claimed about the bytes it produces.
- The `ClassLoader` and `ProtectionDomain` arguments. Neither affects the decision, and `instrument` receives the loader but never uses it.
- The static initializer that registers the transformer with the agent's `Instrumentation` object and asks `isRetransformClassesSupported`. This is JVM agent wiring.
- What the JVM does with a `transform` call that throws. The model stops at the throw.
- Concurrency of the `ConcurrentHashMap`-backed set. `transformMe` is a plain sequential set; `RegistrationSet` offers only an add operation, but its field is public, as in the source, so nothing stops a caller from assigning it.
- The console output `Not Transforming!`, `Failed to instrument class: …` and the stack traces. They are diagnostics only.
- The Java distinction between checked and unchecked throwables, and which catch clause logs which failure. Every clause rethrows the same object, so a failure is one `Failed(cause)` passed on unchanged.
- A null `origBytes`. The JVM always passes the class bytes.
- Java strings are UTF-16 code units, while `Names.StartsWith` compares Dafny characters. For the ASCII prefixes tested here this makes no difference.
- `Variants.AgreeOutsideExclusion` is stated for one shared `instrument`, a function of the bytes alone: the two trees' own `ClassAdapter`s are not part of this model and are assumed to rewrite alike, and a rewrite failure that depends on the stack depth at the call (such as a `StackOverflowError`) rather than on the bytes is not modelled.
- `Variants.MainRewritesAreSrcRewrites` is stated for one shared `instrument`, a function of the bytes alone: the two trees' own `ClassAdapter`s are not part of this model and are assumed to rewrite alike, and a rewrite failure that depends on the stack depth at the call (such as a `StackOverflowError`) rather than on the bytes is not modelled.
- `Variants.DifferOnExcluded` is stated for one shared `instrument`, a function of the bytes alone: the two trees' own `ClassAdapter`s are not part of this model and are assumed to rewrite alike, and a rewrite failure that depends on the stack depth at the call (such as a `StackOverflowError`) rather than on the bytes is not modelled.
- `Variants.DifferOnNullName` is stated for one shared `instrument`, a function of the bytes alone: the two trees' own `ClassAdapter`s are not part of this model and are assumed to rewrite alike, and a rewrite failure that depends on the stack depth at the call (such as a `StackOverflowError`) rather than on the bytes is not modelled.
- `MainTransformer.RegistrationMonotone`: both calls it compares get the same `instrument`, a function of the bytes alone; a rewrite failure that depends on the stack depth at the call is not modelled.
- `SrcTransformer.RegistrationMonotone`: both calls it compares get the same `instrument`, a function of the bytes alone; a rewrite failure that depends on the stack depth at the call is not modelled.
- Replacing the `public static` set object `transformMe` with another `Set` implementation. The modelled `NullPointerException` on an absent class holds only for the `ConcurrentHashMap`-backed set built at line 18.
