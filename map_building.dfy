/**
 * The contract of the event-mapping builder: what each kind of handler does to a
 * store of projections keyed by K when an event E arrives with context C.
 *
 * A handler is a chain of `When` guards followed by one action. Creating, updating
 * and deleting act on the projection whose key the handler derives from the event;
 * a custom action (`As`) runs a caller-supplied delegate through the custom-action
 * hook the event map was configured with.
 */
module MapBuilding {
  import opened Core

  /** How custom actions are run: given the context and the action to run, run it (or not). */
  type CustomActionHandler<!C> = (C, () -> Option<Exception>) -> Option<Exception>

  datatype Action<!E, !C, !K, !P> =
    | As(action: (E, C) -> Option<Exception>)
    | AsCreateOf(createKey: E -> K, create: (E, C) -> P)
    | AsCreateIfDoesNotExistOf(createKey: E -> K, create: (E, C) -> P)
    | AsUpdateOf(updateKey: E -> K, update: (P, E, C) -> P)
    | AsUpdateIfExistsOf(updateKey: E -> K, update: (P, E, C) -> P)
    | AsCreateOrUpdateOf(upsertKey: E -> K, create: (E, C) -> P, update: (P, E, C) -> P)
    | AsDeleteOf(deleteKey: E -> K)
    | AsDeleteIfExistsOf(deleteKey: E -> K)

  /** A configured handler: the `When` guards, in the order given, then the action. */
  datatype Handler<!E, !C, !K, !P> = Handler(guards: seq<(E, C) -> bool>, action: Action<E, C, K, P>)

  /** The store after the event, and whether the handler handled it. */
  datatype Step<K, P> = Step(projections: map<K, P>, handled: bool)

  datatype MappingError<K> =
    | ProjectionAlreadyExists(key: K)
    | ProjectionDoesNotExist(key: K)
    | ActionFailed(error: Exception)

  /** The key a projection action derives from the event; custom actions have none. */
  function KeyOf<E, C, K, P>(a: Action<E, C, K, P>, e: E): Option<K>
  {
    match a
    case As(_) => None
    case AsCreateOf(key, _) => Some(key(e))
    case AsCreateIfDoesNotExistOf(key, _) => Some(key(e))
    case AsUpdateOf(key, _) => Some(key(e))
    case AsUpdateIfExistsOf(key, _) => Some(key(e))
    case AsCreateOrUpdateOf(key, _, _) => Some(key(e))
    case AsDeleteOf(key) => Some(key(e))
    case AsDeleteIfExistsOf(key) => Some(key(e))
  }

  /** Only the derived key may change; a custom action changes no projection. */
  ghost predicate OnlyKeyChanged<E, C, K, P>(a: Action<E, C, K, P>, e: E, before: map<K, P>, after: map<K, P>)
  {
    match KeyOf(a, e)
    case None => after == before
    case Some(k) => after - {k} == before - {k}
  }

  /** The effect of one action on the store. */
  function ApplyAction<E, C, K, P>(a: Action<E, C, K, P>, custom: CustomActionHandler<C>,
                                   store: map<K, P>, e: E, c: C): (r: Result<Step<K, P>, MappingError<K>>)
    ensures r.Ok? ==> OnlyKeyChanged(a, e, store, r.value.projections)
    ensures r.Ok? && !r.value.handled ==> r.value.projections == store
  {
    match a
    case As(action) =>
      var failure := custom(c, () => action(e, c));
      if failure.Some? then Err(ActionFailed(failure.value)) else Ok(Step(store, true))
    case AsCreateOf(key, create) =>
      var k := key(e);
      if k in store then Err(ProjectionAlreadyExists(k))
      else Ok(Step(store[k := create(e, c)], true))
    case AsCreateIfDoesNotExistOf(key, create) =>
      var k := key(e);
      if k in store then Ok(Step(store, false))
      else Ok(Step(store[k := create(e, c)], true))
    case AsUpdateOf(key, update) =>
      var k := key(e);
      if k !in store then Err(ProjectionDoesNotExist(k))
      else Ok(Step(store[k := update(store[k], e, c)], true))
    case AsUpdateIfExistsOf(key, update) =>
      var k := key(e);
      if k !in store then Ok(Step(store, false))
      else Ok(Step(store[k := update(store[k], e, c)], true))
    case AsCreateOrUpdateOf(key, create, update) =>
      var k := key(e);
      if k in store then Ok(Step(store[k := update(store[k], e, c)], true))
      else Ok(Step(store[k := create(e, c)], true))
    case AsDeleteOf(key) =>
      var k := key(e);
      if k !in store then Err(ProjectionDoesNotExist(k))
      else Ok(Step(store - {k}, true))
    case AsDeleteIfExistsOf(key) =>
      var k := key(e);
      if k !in store then Ok(Step(store, false))
      else Ok(Step(store - {k}, true))
  }

  /** Whether every guard accepts the event, evaluated in order. */
  function GuardsHold<E, C>(guards: seq<(E, C) -> bool>, e: E, c: C): bool
  {
    if guards == [] then true else guards[0](e, c) && GuardsHold(guards[1..], e, c)
  }

  /** A handler applies its action only when all its guards accept the event. */
  function HandleEvent<E, C, K, P>(h: Handler<E, C, K, P>, custom: CustomActionHandler<C>,
                                   store: map<K, P>, e: E, c: C): (r: Result<Step<K, P>, MappingError<K>>)
    ensures (forall i :: 0 <= i < |h.guards| ==> h.guards[i](e, c)) ==> r == ApplyAction(h.action, custom, store, e, c)
    ensures (exists i :: 0 <= i < |h.guards| && !h.guards[i](e, c)) ==> r == Ok(Step(store, false))
  {
    GuardsAreConjunction(h.guards, e, c);
    if GuardsHold(h.guards, e, c) then ApplyAction(h.action, custom, store, e, c) else Ok(Step(store, false))
  }

  // ---------------------------------------------------------------------------
  // Properties of the contract.
  // ---------------------------------------------------------------------------

  /** The guards are a conjunction: they hold exactly when each of them holds. */
  lemma {:induction false} GuardsAreConjunction<E, C>(guards: seq<(E, C) -> bool>, e: E, c: C)
    ensures GuardsHold(guards, e, c) <==> forall i :: 0 <= i < |guards| ==> guards[i](e, c)
  {
    if guards != [] {
      GuardsAreConjunction(guards[1..], e, c);
      assert forall i :: 1 <= i < |guards| ==> guards[i] == guards[1..][i - 1];
    }
  }

  /** Adding a guard can only narrow the events a handler handles. */
  lemma ExtraGuardNarrows<E, C, K, P>(h: Handler<E, C, K, P>, g: (E, C) -> bool, e: E, c: C)
    ensures var narrowed := Handler(h.guards + [g], h.action);
            GuardsHold(narrowed.guards, e, c) <==> GuardsHold(h.guards, e, c) && g(e, c)
  {
    GuardsAreConjunction(h.guards + [g], e, c);
    GuardsAreConjunction(h.guards, e, c);
    assert forall i :: 0 <= i < |h.guards| ==> (h.guards + [g])[i] == h.guards[i];
    assert (h.guards + [g])[|h.guards|] == g;
  }

  /** Creating fails exactly when the key is already present; otherwise the new projection is stored. */
  lemma CreateOfFailsIffPresent<E, C, K, P>(key: E -> K, create: (E, C) -> P, custom: CustomActionHandler<C>,
                                            store: map<K, P>, e: E, c: C)
    ensures var r := ApplyAction(AsCreateOf(key, create), custom, store, e, c);
            && (r.Err? <==> key(e) in store)
            && (r.Err? ==> r.error == ProjectionAlreadyExists(key(e)))
            && (r.Ok? ==> r.value.handled && key(e) in r.value.projections
                          && r.value.projections[key(e)] == create(e, c)
                          && r.value.projections.Keys == store.Keys + {key(e)})
  {
  }

  /** Create-if-absent is creating, except that a present key leaves the event unhandled instead of failing. */
  lemma CreateIfDoesNotExistRefinesCreate<E, C, K, P>(key: E -> K, create: (E, C) -> P, custom: CustomActionHandler<C>,
                                                      store: map<K, P>, e: E, c: C)
    ensures var lenient := ApplyAction(AsCreateIfDoesNotExistOf(key, create), custom, store, e, c);
            var strict := ApplyAction(AsCreateOf(key, create), custom, store, e, c);
            && lenient.Ok?
            && (strict.Ok? ==> lenient == strict)
            && (strict.Err? ==> lenient.value == Step(store, false))
  {
  }

  /** Updating fails exactly when the key is absent; otherwise only that projection is replaced. */
  lemma UpdateOfFailsIffAbsent<E, C, K, P>(key: E -> K, update: (P, E, C) -> P, custom: CustomActionHandler<C>,
                                           store: map<K, P>, e: E, c: C)
    ensures var r := ApplyAction(AsUpdateOf(key, update), custom, store, e, c);
            && (r.Err? <==> key(e) !in store)
            && (r.Err? ==> r.error == ProjectionDoesNotExist(key(e)))
            && (r.Ok? ==> r.value.handled && r.value.projections.Keys == store.Keys
                          && r.value.projections[key(e)] == update(store[key(e)], e, c))
  {
  }

  /** Update-if-present is updating, except that an absent key leaves the event unhandled instead of failing. */
  lemma UpdateIfExistsRefinesUpdate<E, C, K, P>(key: E -> K, update: (P, E, C) -> P, custom: CustomActionHandler<C>,
                                                store: map<K, P>, e: E, c: C)
    ensures var lenient := ApplyAction(AsUpdateIfExistsOf(key, update), custom, store, e, c);
            var strict := ApplyAction(AsUpdateOf(key, update), custom, store, e, c);
            && lenient.Ok?
            && (strict.Ok? ==> lenient == strict)
            && (strict.Err? ==> lenient.value == Step(store, false))
  {
  }

  /** Create-or-update never fails: it creates when the key is absent, updates when present, and the key is then present. */
  lemma CreateOrUpdateNeverFails<E, C, K, P>(key: E -> K, create: (E, C) -> P, update: (P, E, C) -> P,
                                             custom: CustomActionHandler<C>, store: map<K, P>, e: E, c: C)
    ensures var r := ApplyAction(AsCreateOrUpdateOf(key, create, update), custom, store, e, c);
            && r.Ok? && r.value.handled && key(e) in r.value.projections
            && (key(e) !in store ==> r == ApplyAction(AsCreateOf(key, create), custom, store, e, c))
            && (key(e) in store ==> r == ApplyAction(AsUpdateOf(key, update), custom, store, e, c))
  {
  }

  /** Deleting fails exactly when the key is absent; otherwise it removes that key and nothing else. */
  lemma DeleteOfFailsIffAbsent<E, C, K, P>(key: E -> K, custom: CustomActionHandler<C>,
                                           store: map<K, P>, e: E, c: C)
    ensures var r := ApplyAction(Action<E, C, K, P>.AsDeleteOf(key), custom, store, e, c);
            && (r.Err? <==> key(e) !in store)
            && (r.Err? ==> r.error == ProjectionDoesNotExist(key(e)))
            && (r.Ok? ==> r.value.handled && r.value.projections.Keys == store.Keys - {key(e)})
  {
  }

  /** Delete-if-present is deleting, except that an absent key is a no-op instead of a failure. */
  lemma DeleteIfExistsRefinesDelete<E, C, K, P>(key: E -> K, custom: CustomActionHandler<C>,
                                                store: map<K, P>, e: E, c: C)
    ensures var lenient := ApplyAction(Action<E, C, K, P>.AsDeleteIfExistsOf(key), custom, store, e, c);
            var strict := ApplyAction(Action<E, C, K, P>.AsDeleteOf(key), custom, store, e, c);
            && lenient.Ok?
            && (strict.Ok? ==> lenient == strict)
            && (strict.Err? ==> lenient.value == Step(store, false))
  {
  }

  /** Deleting what was just created restores the store. */
  lemma DeleteUndoesCreate<E, C, K, P>(key: E -> K, create: (E, C) -> P, custom: CustomActionHandler<C>,
                                       store: map<K, P>, e: E, c: C)
    requires key(e) !in store
    ensures var created := ApplyAction(AsCreateOf(key, create), custom, store, e, c);
            && created.Ok?
            && ApplyAction(Action<E, C, K, P>.AsDeleteOf(key), custom, created.value.projections, e, c) == Ok(Step(store, true))
  {
    var created := store[key(e) := create(e, c)];
    assert created - {key(e)} == store;
  }
}
