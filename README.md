# Interception model of a CDI container, in Dafny

This project models Weld's frozen per-bean interception model
(`InterceptionModelImpl`). For one intercepted entity, the model records:

- the class-wide ("global") interceptor list for each interception type;
- the interceptor list bound to each (interception type, method) pair;
- the set of methods that ignore global interceptors;
- the set of all interceptors;
- two flags: whether the target class has interceptor methods, and whether
  any non-constructor interceptor comes from outside the class.

The model is built once from a builder and then answers which interceptors
fire, in which order, for an interception type and an optional method.

Files:

- `wrappers.dfy`: `Option` stands for a Java reference that may be `null`.
  `Result` stands for a query that may throw.
- `interception_type.dfy`: the seven interception types. `AroundInvoke`
  and `AroundTimeout` are the method-scoped ones. All others, including
  `AroundConstruct`, are lifecycle callbacks.
- `interception_model.dfy`: the `Builder` snapshot and the
  `InterceptionModelImpl` class. All of its fields are `const` and are set
  once by the constructor. `GetInterceptors` is a method that builds the
  method-scoped chain step by step (`AddAll` is the `ArrayList.addAll`
  step). It is proved equal to the reference function `Lookup`. The lemmas
  state the lookup's laws about `Lookup`.
- `scenario.dfy`: a client that builds a small model. The verifier checks
  the answers for lifecycle, ignored, unrestricted and missing-entry
  lookups, and for the three errors.

Two facts about the source shape the model:

- The lifecycle path (`InterceptionModelImpl.java:88`) and
  `getConstructorInvocationInterceptors` (`:119`) return the stored list
  itself, not a copy. Only the method-scoped path builds a new list
  (`:92`). In Dafny, sequences are values, so this sharing cannot be
  observed; see "Left out".
- One ignoring set (`:50`) applies to every method-scoped type (`:93`).

## Model

| member | source | states |
|---|---|---|
| `InterceptionModel.InterceptionModelImpl.constructor` | impl/src/main/java/org/jboss/weld/interceptor/builder/InterceptionModelImpl.java:64-72 | the new model holds exactly the builder's entity, both flags and the four collections |
| `InterceptionModel.InterceptionModelImpl.GetInterceptors` | impl/src/main/java/org/jboss/weld/interceptor/builder/InterceptionModelImpl.java:74-106 | the result, built by appending into a fresh local list, equals the reference lookup `Lookup`: the guards in their order, then the lifecycle or method-scoped chain |
| `InterceptionModel.AddAll` | impl/src/main/java/org/jboss/weld/interceptor/builder/InterceptionModelImpl.java:92-103 | appending a list element by element leaves the earlier contents in front and the appended elements after them, in order |
| `InterceptionModel.InterceptionModelImpl.AroundConstructRefused` | impl/src/main/java/org/jboss/weld/interceptor/builder/InterceptionModelImpl.java:75-77 | around-construct is refused with the state error, whether or not a method is given |
| `InterceptionModel.InterceptionModelImpl.FailsIff` | impl/src/main/java/org/jboss/weld/interceptor/builder/InterceptionModelImpl.java:75-84 | the lookup fails exactly for around-construct (state error) or when a method is given for a lifecycle type or missing for a method-scoped type (argument error), in both directions |
| `InterceptionModel.InterceptionModelImpl.LifecycleLookup` | impl/src/main/java/org/jboss/weld/interceptor/builder/InterceptionModelImpl.java:86-89 | a lifecycle lookup returns exactly the global list for the type, or the empty list (the fall-through return at line 105) when the type has no entry |
| `InterceptionModel.InterceptionModelImpl.LifecycleIgnoresMethodBindings` | impl/src/main/java/org/jboss/weld/interceptor/builder/InterceptionModelImpl.java:86-89 | two models with the same global map give the same lifecycle answers, whatever their method-bound maps and ignoring sets |
| `InterceptionModel.InterceptionModelImpl.MethodLookupOrder` | impl/src/main/java/org/jboss/weld/interceptor/builder/InterceptionModelImpl.java:91-103 | for a method that does not ignore globals, the chain is the global list followed by the method's list: global entries first, each list in its own order |
| `InterceptionModel.InterceptionModelImpl.IgnoringMethodLookup` | impl/src/main/java/org/jboss/weld/interceptor/builder/InterceptionModelImpl.java:93-102 | for a method in the ignoring set, the chain is exactly the method's own list; a global interceptor appears only if it is also bound to the method |
| `InterceptionModel.InterceptionModelImpl.IgnoringOnlyRemoves` | impl/src/main/java/org/jboss/weld/interceptor/builder/InterceptionModelImpl.java:93-95 | putting a method in the ignoring set removes exactly the global prefix of its chain and nothing else |
| `InterceptionModel.InterceptionModelImpl.MissingEntriesAreEmpty` | impl/src/main/java/org/jboss/weld/interceptor/builder/InterceptionModelImpl.java:96-105 | a valid query about a type or method with no entry yields the empty list, never an error |
| `InterceptionModel.InterceptionModelImpl.ChainsDrawnFromAllInterceptors` | impl/src/main/java/org/jboss/weld/interceptor/builder/InterceptionModelImpl.java:108-110 | when the builder records every listed interceptor in the all-interceptors set, every interceptor any lookup returns is in `GetAllInterceptors()` |
| `InterceptionModel.InterceptionModelImpl.GetConstructorInvocationInterceptors` | impl/src/main/java/org/jboss/weld/interceptor/builder/InterceptionModelImpl.java:117-122 | the dedicated around-construct lookup returns the global around-construct list, or empty when there is none |
| `InterceptionModel.InterceptionModelImpl.HasExternalConstructorInterceptors` | impl/src/main/java/org/jboss/weld/interceptor/builder/InterceptionModelImpl.java:124-127 | true iff there is a global around-construct entry and it is non-empty |
| `InterceptionModel.InterceptionModelImpl.GetAllInterceptors` | impl/src/main/java/org/jboss/weld/interceptor/builder/InterceptionModelImpl.java:108-110 | returns the all-interceptors set the constructor stored; when the builder kept it covering, it holds every interceptor of every global and method-bound list; tied to the builder's value by `GettersReturnSnapshot` |
| `InterceptionModel.InterceptionModelImpl.GetInterceptedEntity` | impl/src/main/java/org/jboss/weld/interceptor/builder/InterceptionModelImpl.java:112-114 | returns the entity the constructor stored; tied to the builder's value by `GettersReturnSnapshot` |
| `InterceptionModel.InterceptionModelImpl.HasExternalNonConstructorInterceptors` | impl/src/main/java/org/jboss/weld/interceptor/builder/InterceptionModelImpl.java:129-132 | returns the flag the constructor stored, not recomputed; tied to the builder's value by `GettersReturnSnapshot` |
| `InterceptionModel.InterceptionModelImpl.HasTargetClassInterceptors` | impl/src/main/java/org/jboss/weld/interceptor/builder/InterceptionModelImpl.java:134-137 | returns the flag the constructor stored, not recomputed; tied to the builder's value by `GettersReturnSnapshot` |
| `InterceptionModel.InterceptionModelImpl.GettersReturnSnapshot` | impl/src/main/java/org/jboss/weld/interceptor/builder/InterceptionModelImpl.java:108-137 | for a model built from a builder, the entity, all-interceptors, flag and constructor-interceptor getters return the builder's values; the flags are not recomputed |

## Left out

- InterceptionModel.InterceptionModelImpl.constructor: the `NullPointerException` for a null builder (line 65) is not modelled, nor are the null keys, values and elements that `ImmutableMap.copyOf` and `ImmutableSet.copyOf` reject (lines 68-71). The model's maps, sets and sequences cannot hold null, so its constructor never fails. The same null check is what guarantees, in the source, that line 88 returns a non-null list and that `addAll` at line 94 never receives null.
- `porting-package/.../BeansImpl.java` is not part of this model. It only forwards to a proxy-detection utility that is not part of this model either.
- The builder is not modelled. Its duplicate detection and ordering policy are not visible. Its accessors become the fields of the `Builder` value.
- `MethodHolder.of` is not modelled. It turns a reflective `Method` into a key. Methods are opaque keys (`M`) compared by equality.
- Interceptor metadata contents and invocation chaining are not modelled. Interceptors are opaque values (`I`).
- The `InterceptionType` enum's source is not part of this model. Its lifecycle/method-scoped split follows the message at `InterceptionModelImpl.java:83`.
- Sharing and aliasing are not modelled. `ImmutableMap.copyOf` is shallow: the model shares the inner lists and per-method maps with the builder, and returns a stored list on the lifecycle path. In Dafny all collections are immutable values, so later changes to the builder cannot be expressed.
- A `null` interception type is not modelled. In the source it throws a `NullPointerException` at line 78.
- The exception messages are not modelled. Only the exception kind is.
- Thread safety is not modelled. It follows from immutability.
