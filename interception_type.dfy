/** The interception types of the interceptor SPI. */
module InterceptionTypes {

  /**
   * The seven kinds of interception. The two method-scoped kinds wrap a
   * business method (or timeout method) invocation; the others are
   * lifecycle callbacks and have no associated method.
   */
  datatype InterceptionType =
    | AroundInvoke
    | AroundConstruct
    | AroundTimeout
    | PostConstruct
    | PreDestroy
    | PostActivate
    | PrePassivate
  {
    /** True for the kinds that are not tied to a method. */
    predicate IsLifecycleCallback() {
      !(AroundInvoke? || AroundTimeout?)
    }
  }
}
