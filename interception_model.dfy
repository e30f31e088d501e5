/**
 * The frozen per-bean interception model: for one intercepted entity it
 * answers which interceptors fire, and in which order, for an interception
 * type and (for method-scoped types) a method.
 *
 * Interceptor metadata (`I`) and method identities (`M`) are opaque values
 * compared by equality; `T` is the type of the intercepted entity.
 */
module InterceptionModel {
  import opened Wrappers
  import opened InterceptionTypes

  /** The two exceptions `getInterceptors` can throw. */
  datatype LookupError = IllegalStateError | IllegalArgumentError

  /**
   * What the model's constructor reads from its builder: the intercepted
   * entity, the two summary flags and the four collections.
   */
  datatype Builder<T, I, M(==)> = Builder(
    interceptedEntity: T,
    hasTargetClassInterceptors: bool,
    hasExternalNonConstructorInterceptors: bool,
    globalInterceptors: map<InterceptionType, seq<I>>,
    methodBoundInterceptors: map<InterceptionType, map<M, seq<I>>>,
    methodsIgnoringGlobalInterceptors: set<M>,
    allInterceptors: set<I>)

  /**
   * Appends every element of `elements`, in order, to the list `list`
   * (the `ArrayList.addAll` step of the lookup).
   */
  method AddAll<I>(list: seq<I>, elements: seq<I>) returns (r: seq<I>)
    ensures r == list + elements
  {
    r := list;
    for n := 0 to |elements|
      invariant r == list + elements[..n]
    {
      assert elements[..n + 1] == elements[..n] + [elements[n]];
      r := r + [elements[n]];
    }
    assert elements[..|elements|] == elements;
  }

  class InterceptionModelImpl<T, I(==), M(==)> {
    const globalInterceptors: map<InterceptionType, seq<I>>
    const methodBoundInterceptors: map<InterceptionType, map<M, seq<I>>>
    const methodsIgnoringGlobalInterceptors: set<M>
    const allInterceptors: set<I>
    const interceptedEntity: T
    const hasTargetClassInterceptors: bool
    const hasExternalNonConstructorInterceptors: bool

    /** The model holds exactly what the builder handed over. */
    ghost predicate BuiltFrom(builder: Builder<T, I, M>) {
      && interceptedEntity == builder.interceptedEntity
      && hasTargetClassInterceptors == builder.hasTargetClassInterceptors
      && hasExternalNonConstructorInterceptors == builder.hasExternalNonConstructorInterceptors
      && globalInterceptors == builder.globalInterceptors
      && methodBoundInterceptors == builder.methodBoundInterceptors
      && methodsIgnoringGlobalInterceptors == builder.methodsIgnoringGlobalInterceptors
      && allInterceptors == builder.allInterceptors
    }

    /** Takes a snapshot of the builder; the fields are never assigned again. */
    constructor (builder: Builder<T, I, M>)
      ensures BuiltFrom(builder)
    {
      interceptedEntity := builder.interceptedEntity;
      hasTargetClassInterceptors := builder.hasTargetClassInterceptors;
      hasExternalNonConstructorInterceptors := builder.hasExternalNonConstructorInterceptors;
      globalInterceptors := builder.globalInterceptors;
      methodBoundInterceptors := builder.methodBoundInterceptors;
      methodsIgnoringGlobalInterceptors := builder.methodsIgnoringGlobalInterceptors;
      allInterceptors := builder.allInterceptors;
    }

    /** The class-wide list for `t`; a missing entry reads as no interceptors. */
    function GlobalFor(t: InterceptionType): seq<I> {
      if t in globalInterceptors then globalInterceptors[t] else []
    }

    /** The list bound to method `m` for `t`; a missing entry reads as no interceptors. */
    function BoundFor(t: InterceptionType, m: M): seq<I> {
      if t in methodBoundInterceptors && m in methodBoundInterceptors[t]
      then methodBoundInterceptors[t][m]
      else []
    }

    /**
     * Reference definition of the lookup: which interceptors fire for
     * interception type `t` and method `m` (`None` for a lifecycle event),
     * or which error the query raises.
     */
    function Lookup(t: InterceptionType, m: Option<M>): Result<seq<I>, LookupError> {
      if t == AroundConstruct then Failure(IllegalStateError)
      else if t.IsLifecycleCallback() != m.None? then Failure(IllegalArgumentError)
      else if m.None? then Success(GlobalFor(t))
      else
        var global := if m.value in methodsIgnoringGlobalInterceptors then [] else GlobalFor(t);
        Success(global + BoundFor(t, m.value))
    }

    /** The general lookup, building the method-scoped chain step by step. */
    method GetInterceptors(interceptionType: InterceptionType, targetMethod: Option<M>)
      returns (r: Result<seq<I>, LookupError>)
      ensures r == Lookup(interceptionType, targetMethod)
    {
      if interceptionType == AroundConstruct {
        return Failure(IllegalStateError);
      }
      if interceptionType.IsLifecycleCallback() && targetMethod.Some? {
        return Failure(IllegalArgumentError);
      }
      if !interceptionType.IsLifecycleCallback() && targetMethod.None? {
        return Failure(IllegalArgumentError);
      }
      if interceptionType.IsLifecycleCallback() {
        if interceptionType in globalInterceptors {
          return Success(globalInterceptors[interceptionType]);
        }
      } else {
        var methodHolder := targetMethod.value;
        var returnedInterceptors: seq<I> := [];
        if methodHolder !in methodsIgnoringGlobalInterceptors && interceptionType in globalInterceptors {
          returnedInterceptors := AddAll(returnedInterceptors, globalInterceptors[interceptionType]);
          assert [] + GlobalFor(interceptionType) == GlobalFor(interceptionType);
        }
        ghost var global := returnedInterceptors;
        if interceptionType in methodBoundInterceptors {
          var byMethod := methodBoundInterceptors[interceptionType];
          if methodHolder in byMethod {
            returnedInterceptors := AddAll(returnedInterceptors, byMethod[methodHolder]);
          }
        }
        assert returnedInterceptors == global + BoundFor(interceptionType, methodHolder);
        return Success(returnedInterceptors);
      }
      return Success([]);
    }

    /**
     * The all-interceptors set as the builder handed it over; when the builder
     * kept it covering, it holds every interceptor of every global and
     * method-bound list.
     */
    function GetAllInterceptors(): (s: set<I>)
      ensures s == allInterceptors
      ensures AllInterceptorsCover() ==>
                (forall t, x :: x in GlobalFor(t) ==> x in s)
                && (forall t, m, x ::
                      t in methodBoundInterceptors && m in methodBoundInterceptors[t] && x in BoundFor(t, m)
                      ==> x in s)
    {
      allInterceptors
    }

    function GetInterceptedEntity(): (e: T)
      ensures e == interceptedEntity
    {
      interceptedEntity
    }

    /** The dedicated lookup for around-construct interceptors. */
    function GetConstructorInvocationInterceptors(): (r: seq<I>)
      ensures r == GlobalFor(AroundConstruct)
      ensures AroundConstruct !in globalInterceptors ==> r == []
    {
      if AroundConstruct in globalInterceptors then globalInterceptors[AroundConstruct] else []
    }

    function HasExternalConstructorInterceptors(): (b: bool)
      ensures b <==> AroundConstruct in globalInterceptors && globalInterceptors[AroundConstruct] != []
    {
      GetConstructorInvocationInterceptors() != []
    }

    /** The builder's flag, passed through and not recomputed. */
    function HasExternalNonConstructorInterceptors(): (b: bool)
      ensures b == hasExternalNonConstructorInterceptors
    {
      hasExternalNonConstructorInterceptors
    }

    /** The builder's flag, passed through and not recomputed. */
    function HasTargetClassInterceptors(): (b: bool)
      ensures b == hasTargetClassInterceptors
    {
      hasTargetClassInterceptors
    }

    /** Every interceptor named in any list of the model is in `allInterceptors`. */
    ghost predicate AllInterceptorsCover() {
      && (forall t, x :: t in globalInterceptors && x in globalInterceptors[t] ==> x in allInterceptors)
      && (forall t, m, x ::
            t in methodBoundInterceptors && m in methodBoundInterceptors[t] && x in methodBoundInterceptors[t][m]
            ==> x in allInterceptors)
    }

    // ---------------------------------------------------------------------
    // Properties of the lookup
    // ---------------------------------------------------------------------

    /** Around-construct is refused with the state error, whatever the method argument. */
    lemma AroundConstructRefused(m: Option<M>)
      ensures Lookup(AroundConstruct, m) == Failure(IllegalStateError)
    {
    }

    /**
     * The lookup fails exactly for around-construct (state error) and for a
     * mismatch between the type's kind and the presence of a method
     * (argument error).
     */
    lemma FailsIff(t: InterceptionType, m: Option<M>)
      ensures Lookup(t, m).Failure? <==>
                t == AroundConstruct
                || (t.IsLifecycleCallback() && m.Some?)
                || (!t.IsLifecycleCallback() && m.None?)
      ensures Lookup(t, m) == Failure(IllegalStateError) <==> t == AroundConstruct
      ensures Lookup(t, m) == Failure(IllegalArgumentError) <==>
                t != AroundConstruct && t.IsLifecycleCallback() == m.Some?
    {
    }

    /** A lifecycle event gets exactly the global list for its type, or nothing. */
    lemma LifecycleLookup(t: InterceptionType)
      requires t.IsLifecycleCallback() && t != AroundConstruct
      ensures t in globalInterceptors ==> Lookup(t, None) == Success(globalInterceptors[t])
      ensures t !in globalInterceptors ==> Lookup(t, None) == Success([])
    {
    }

    /** The lifecycle path never consults the method-bound map or the ignoring set. */
    lemma LifecycleIgnoresMethodBindings(other: InterceptionModelImpl<T, I, M>, t: InterceptionType)
      requires other.globalInterceptors == globalInterceptors
      requires t.IsLifecycleCallback()
      ensures Lookup(t, None) == other.Lookup(t, None)
    {
    }

    /**
     * For a method that does not ignore global interceptors, the chain is the
     * global list followed by the method's own list: global entries first,
     * each list kept in its order.
     */
    lemma MethodLookupOrder(t: InterceptionType, m: M)
      requires !t.IsLifecycleCallback() && m !in methodsIgnoringGlobalInterceptors
      ensures Lookup(t, Some(m)).Success?
      ensures var chain := Lookup(t, Some(m)).value;
        && |chain| == |GlobalFor(t)| + |BoundFor(t, m)|
        && (forall k :: 0 <= k < |GlobalFor(t)| ==> chain[k] == GlobalFor(t)[k])
        && (forall k :: 0 <= k < |BoundFor(t, m)| ==> chain[|GlobalFor(t)| + k] == BoundFor(t, m)[k])
    {
    }

    /**
     * For a method in the ignoring set, the chain is exactly the method's own
     * list: a global interceptor shows up only if it is also bound to `m`.
     */
    lemma IgnoringMethodLookup(t: InterceptionType, m: M)
      requires !t.IsLifecycleCallback() && m in methodsIgnoringGlobalInterceptors
      ensures Lookup(t, Some(m)) == Success(BoundFor(t, m))
      ensures forall x :: x in GlobalFor(t) && x in Lookup(t, Some(m)).value ==> x in BoundFor(t, m)
    {
      assert [] + BoundFor(t, m) == BoundFor(t, m);
    }

    /** A type or method with no registered entry yields an empty chain, never an error. */
    lemma MissingEntriesAreEmpty(t: InterceptionType, m: Option<M>)
      requires t != AroundConstruct && t.IsLifecycleCallback() == m.None?
      requires t !in globalInterceptors
      requires m.Some? ==> t !in methodBoundInterceptors || m.value !in methodBoundInterceptors[t]
      ensures Lookup(t, m) == Success([])
    {
      if m.Some? {
        var none: seq<I> := [];
        assert none + none == none;
      }
    }

    /**
     * Ignoring global interceptors removes exactly the global prefix: the
     * chain of a model where `m` does not ignore them is the global list
     * followed by this chain.
     */
    lemma IgnoringOnlyRemoves(t: InterceptionType, m: M, other: InterceptionModelImpl<T, I, M>)
      requires other.globalInterceptors == globalInterceptors
      requires other.methodBoundInterceptors == methodBoundInterceptors
      requires m in methodsIgnoringGlobalInterceptors && m !in other.methodsIgnoringGlobalInterceptors
      requires !t.IsLifecycleCallback()
      ensures Lookup(t, Some(m)).Success? && other.Lookup(t, Some(m)).Success?
      ensures other.Lookup(t, Some(m)).value == GlobalFor(t) + Lookup(t, Some(m)).value
    {
    }

    /**
     * When every list's interceptors are recorded in the all-interceptors set,
     * so is every interceptor any lookup returns.
     */
    lemma ChainsDrawnFromAllInterceptors(t: InterceptionType, m: Option<M>)
      requires AllInterceptorsCover()
      ensures Lookup(t, m).Success? ==> forall x :: x in Lookup(t, m).value ==> x in GetAllInterceptors()
      ensures forall x :: x in GetConstructorInvocationInterceptors() ==> x in GetAllInterceptors()
    {
    }

    /** The getters return the builder's values unchanged; the flags are not recomputed. */
    lemma GettersReturnSnapshot(builder: Builder<T, I, M>)
      requires BuiltFrom(builder)
      ensures GetInterceptedEntity() == builder.interceptedEntity
      ensures GetAllInterceptors() == builder.allInterceptors
      ensures HasTargetClassInterceptors() == builder.hasTargetClassInterceptors
      ensures HasExternalNonConstructorInterceptors() == builder.hasExternalNonConstructorInterceptors
      ensures AroundConstruct in builder.globalInterceptors ==>
                GetConstructorInvocationInterceptors() == builder.globalInterceptors[AroundConstruct]
    {
    }
  }
}
