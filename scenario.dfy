/**
 * A client of the interception model: an entity with a global post-construct
 * interceptor A, a global around-invoke interceptor B, and a method m1 that
 * ignores global interceptors and is bound to around-invoke interceptor C.
 */
module InterceptionScenario {
  import opened Wrappers
  import opened InterceptionTypes
  import opened InterceptionModel

  method ExcludedMethodScenario() {
    var builder := Builder(
      "Entity", false, true,
      map[PostConstruct := ["A"], AroundInvoke := ["B"]],
      map[AroundInvoke := map["m1" := ["C"]]],
      {"m1"},
      {"A", "B", "C"});
    var model := new InterceptionModelImpl<string, string, string>(builder);

    var postConstruct := model.GetInterceptors(PostConstruct, None);
    assert postConstruct == Success(["A"]);

    model.IgnoringMethodLookup(AroundInvoke, "m1");
    var onM1 := model.GetInterceptors(AroundInvoke, Some("m1"));
    assert onM1 == Success(["C"]);

    assert model.BoundFor(AroundInvoke, "m2") == [];
    assert ["B"] + [] == ["B"];
    var onM2 := model.GetInterceptors(AroundInvoke, Some("m2"));
    assert onM2 == Success(["B"]);

    model.MissingEntriesAreEmpty(AroundTimeout, Some("m2"));
    var timeout := model.GetInterceptors(AroundTimeout, Some("m2"));
    assert timeout == Success([]);

    var construct := model.GetInterceptors(AroundConstruct, None);
    assert construct == Failure(IllegalStateError);

    var noMethod := model.GetInterceptors(AroundInvoke, None);
    assert noMethod == Failure(IllegalArgumentError);

    var withMethod := model.GetInterceptors(PreDestroy, Some("m1"));
    assert withMethod == Failure(IllegalArgumentError);

    assert !model.HasExternalConstructorInterceptors();
    assert model.HasExternalNonConstructorInterceptors() && !model.HasTargetClassInterceptors();
  }
}
