/**
 * The projector: hands every event of a batch of transactions to a tree of event
 * maps, children before parents, and turns the first failure into a projection
 * exception that says which event of which transaction was being projected.
 *
 * An event map is known only by identity; whether handling an event with a given
 * context fails, and how, is an oracle `MapHandle` fixed by the caller.
 */
module Projecting {
  import opened Core
  import MapBuilding

  /** A built event map, by identity. */
  type EventMap(!new)

  /** An event-map builder, by identity; `build` turns one into its map. */
  type EventMapBuilder(!new)

  /** What an event map sees besides the event itself. */
  datatype ProjectionContext = ProjectionContext(
    transactionId: string,
    streamId: string,
    timeStampUtc: int,
    checkpoint: int,
    eventHeaders: Headers,
    transactionHeaders: Headers)

  /** A projector: its own event map and its child projectors, in order. */
  datatype Projector = Projector(eventMap: EventMap, children: seq<Projector>)

  /** One invocation of an event map. */
  datatype MapCall = MapCall(eventMap: EventMap, event: Body, context: ProjectionContext)

  /** A projection exception, with the fields the projector fills in. */
  datatype ProjectionError = ProjectionError(
    message: string,
    inner: Option<Exception>,
    currentEvent: Option<EventEnvelope>,
    transactionId: Option<string>,
    batch: seq<Transaction>)

  /** What an event map can throw: a projection exception, or anything else. */
  datatype Failure = Projection(error: ProjectionError) | Other(exception: Exception)

  /** Whether, and how, an event map fails on a call. */
  type MapHandle = MapCall -> Option<Failure>

  /** The calls made so far, and the failure that ended them, if any. */
  datatype Walk = Walk(calls: seq<MapCall>, failure: Option<Failure>)

  const WrapMessage := "Projector failed to project an event."
  const NullChildMessage := "There is null child projector."

  // ---------------------------------------------------------------------------
  // Construction.
  // ---------------------------------------------------------------------------

  /** The custom-action hook the projector installs: run the action, nothing more. */
  function SetupHandlers(): (hook: MapBuilding.CustomActionHandler<ProjectionContext>)
    ensures forall context, run :: hook(context, run) == run()
  {
    (context: ProjectionContext, run: () -> Option<Exception>) => run()
  }

  /**
   * Rejects a missing builder and a missing child; no child list at all means no
   * children. On success the projector's map is the one its builder builds.
   */
  function NewProjector(builder: Option<EventMapBuilder>, children: Option<seq<Option<Projector>>>,
                        build: EventMapBuilder -> EventMap): (r: Result<Projector, ArgumentError>)
    ensures builder.None? ==> r == Err(ArgumentNull("eventMapBuilder"))
    ensures builder.Some? && children.Some? && (exists i :: 0 <= i < |children.value| && children.value[i].None?)
            ==> r == Err(Argument(NullChildMessage, "children"))
    ensures r.Ok? <==> builder.Some? && (children.Some? ==> forall i :: 0 <= i < |children.value| ==> children.value[i].Some?)
    ensures r.Ok? ==> r.value.eventMap == build(builder.value)
    ensures r.Ok? && children.None? ==> r.value.children == []
    ensures r.Ok? && children.Some? ==>
              |r.value.children| == |children.value|
              && forall i :: 0 <= i < |children.value| ==> children.value[i] == Some(r.value.children[i])
  {
    if builder.None? then Err(ArgumentNull("eventMapBuilder"))
    else
      var list := if children.Some? then children.value else [];
      if exists i :: 0 <= i < |list| && list[i].None? then Err(Argument(NullChildMessage, "children"))
      else Ok(Projector(build(builder.value), seq(|list|, i requires 0 <= i < |list| => list[i].value)))
  }

  // ---------------------------------------------------------------------------
  // One event: children first, then the projector's own map.
  // ---------------------------------------------------------------------------

  /** Projects one event: every child in order (recursively), then the own map; stops at the first failure. */
  function ProjectEvent(p: Projector, event: Body, context: ProjectionContext, handle: MapHandle): Walk
    decreases p, 1
  {
    var kids := ProjectChildren(p.children, event, context, handle);
    if kids.failure.Some? then kids
    else
      var call := MapCall(p.eventMap, event, context);
      Walk(kids.calls + [call], handle(call))
  }

  function ProjectChildren(cs: seq<Projector>, event: Body, context: ProjectionContext, handle: MapHandle): Walk
    decreases cs, 0
  {
    if cs == [] then Walk([], None)
    else
      var first := ProjectEvent(cs[0], event, context, handle);
      if first.failure.Some? then first
      else
        var rest := ProjectChildren(cs[1..], event, context, handle);
        Walk(first.calls + rest.calls, rest.failure)
  }

  /** Reference: every map of the tree in post-order, each called with the same event and context. */
  function PostOrder(p: Projector, event: Body, context: ProjectionContext): seq<MapCall>
    decreases p, 1
  {
    PostOrderAll(p.children, event, context) + [MapCall(p.eventMap, event, context)]
  }

  function PostOrderAll(cs: seq<Projector>, event: Body, context: ProjectionContext): seq<MapCall>
    decreases cs, 0
  {
    if cs == [] then [] else PostOrder(cs[0], event, context) + PostOrderAll(cs[1..], event, context)
  }

  /** Reference: make the calls in order, stopping after the first that fails. */
  function UpTo(calls: seq<MapCall>, handle: MapHandle): Walk
  {
    if calls == [] then Walk([], None)
    else if handle(calls[0]).Some? then Walk([calls[0]], handle(calls[0]))
    else
      var rest := UpTo(calls[1..], handle);
      Walk([calls[0]] + rest.calls, rest.failure)
  }

  lemma {:induction false} UpToAppend(a: seq<MapCall>, b: seq<MapCall>, handle: MapHandle)
    ensures var first := UpTo(a, handle);
            UpTo(a + b, handle)
              == if first.failure.Some? then first
                 else var rest := UpTo(b, handle); Walk(first.calls + rest.calls, rest.failure)
  {
    if a == [] {
      assert a + b == b;
    } else {
      assert (a + b)[0] == a[0];
      assert (a + b)[1..] == a[1..] + b;
      UpToAppend(a[1..], b, handle);
    }
  }

  /**
   * The walk is exactly the post-order traversal cut off after its first failing
   * call: children (recursively, in list order) before the parent's own map.
   */
  lemma {:induction false} ProjectEventIsPostOrder(p: Projector, event: Body, context: ProjectionContext, handle: MapHandle)
    ensures ProjectEvent(p, event, context, handle) == UpTo(PostOrder(p, event, context), handle)
    decreases p, 1
  {
    var call := MapCall(p.eventMap, event, context);
    ProjectChildrenIsPostOrder(p.children, event, context, handle);
    UpToAppend(PostOrderAll(p.children, event, context), [call], handle);
    assert [call][1..] == [];
  }

  lemma {:induction false} ProjectChildrenIsPostOrder(cs: seq<Projector>, event: Body, context: ProjectionContext, handle: MapHandle)
    ensures ProjectChildren(cs, event, context, handle) == UpTo(PostOrderAll(cs, event, context), handle)
    decreases cs, 0
  {
    if cs != [] {
      ProjectEventIsPostOrder(cs[0], event, context, handle);
      ProjectChildrenIsPostOrder(cs[1..], event, context, handle);
      UpToAppend(PostOrder(cs[0], event, context), PostOrderAll(cs[1..], event, context), handle);
    }
  }

  /** The parent's own map is the last call of its traversal; every call gets the same event and context. */
  lemma {:induction false} PostOrderShape(p: Projector, event: Body, context: ProjectionContext)
    ensures var calls := PostOrder(p, event, context);
            && |calls| > 0 && calls[|calls| - 1] == MapCall(p.eventMap, event, context)
            && forall c :: c in calls ==> c.event == event && c.context == context
    decreases p, 1
  {
    var kids := PostOrderAll(p.children, event, context);
    var own := MapCall(p.eventMap, event, context);
    PostOrderAllShape(p.children, event, context);
    assert (kids + [own])[|kids|] == own;
  }

  lemma {:induction false} PostOrderAllShape(cs: seq<Projector>, event: Body, context: ProjectionContext)
    ensures forall c :: c in PostOrderAll(cs, event, context) ==> c.event == event && c.context == context
    decreases cs, 0
  {
    if cs != [] {
      PostOrderShape(cs[0], event, context);
      PostOrderAllShape(cs[1..], event, context);
      var a := PostOrder(cs[0], event, context);
      var b := PostOrderAll(cs[1..], event, context);
    }
  }

  /**
   * Cutting off at the first failure: the calls made are a prefix of the planned
   * ones; every call but the last succeeded; the walk fails exactly when its last
   * call did, and otherwise made every planned call.
   */
  lemma {:induction false} UpToStopsAtFirstFailure(calls: seq<MapCall>, handle: MapHandle)
    ensures var w := UpTo(calls, handle);
            && w.calls <= calls
            && (forall i :: 0 <= i < |w.calls| - 1 ==> handle(w.calls[i]).None?)
            && (w.failure.None? <==> forall i :: 0 <= i < |calls| ==> handle(calls[i]).None?)
            && (w.failure.None? ==> w.calls == calls)
            && (w.failure.Some? ==> |w.calls| > 0 && w.failure == handle(w.calls[|w.calls| - 1]))
  {
    if calls != [] && handle(calls[0]).None? {
      var tail := calls[1..];
      UpToStopsAtFirstFailure(tail, handle);
      var rest := UpTo(tail, handle);
      var w := [calls[0]] + rest.calls;
      assert calls == [calls[0]] + tail;
      forall i | 0 <= i < |w| - 1 ensures handle(w[i]).None? {
        if i > 0 {
          assert w[i] == rest.calls[i - 1];
        }
      }
      if rest.failure.None? {
        forall i | 0 <= i < |calls| ensures handle(calls[i]).None? {
          if i > 0 {
            assert calls[i] == tail[i - 1];
          }
        }
      } else {
        assert w[|w| - 1] == rest.calls[|rest.calls| - 1];
        var j :| 0 <= j < |tail| && handle(tail[j]).Some?;
        assert calls[j + 1] == tail[j];
      }
    }
  }

  // ---------------------------------------------------------------------------
  // A batch: every event of every transaction, in order.
  // ---------------------------------------------------------------------------

  /** The context an event map sees for one event of a transaction. */
  function ContextFor(t: Transaction, envelope: EventEnvelope): ProjectionContext
  {
    ProjectionContext(t.id, t.streamId, t.timeStampUtc, t.checkpoint, envelope.headers, t.headers)
  }

  /** The failure annotated with the event and transaction: a projection exception is kept, anything else wrapped. */
  function Enrich(f: Failure, t: Transaction, envelope: EventEnvelope): (e: ProjectionError)
    ensures e.currentEvent == Some(envelope) && e.transactionId == Some(t.id) && e.batch == [t]
    ensures f.Projection? ==> e.message == f.error.message && e.inner == f.error.inner
    ensures f.Other? ==> e.message == WrapMessage && e.inner == Some(f.exception)
  {
    match f
    case Projection(error) => error.(currentEvent := Some(envelope), transactionId := Some(t.id), batch := [t])
    case Other(exception) => ProjectionError(WrapMessage, Some(exception), Some(envelope), Some(t.id), [t])
  }

  /** One event of one transaction. */
  datatype Item = Item(transaction: Transaction, envelope: EventEnvelope)

  function TransactionItems(t: Transaction): seq<Item>
  {
    seq(|t.events|, j requires 0 <= j < |t.events| => Item(t, t.events[j]))
  }

  /** The events of the transactions, transaction by transaction, each in envelope order. */
  function Items(txs: seq<Transaction>): seq<Item>
  {
    if txs == [] then [] else TransactionItems(txs[0]) + Items(txs[1..])
  }

  function ItemWalk(root: Projector, item: Item, handle: MapHandle): Walk
  {
    ProjectEvent(root, item.envelope.body, ContextFor(item.transaction, item.envelope), handle)
  }

  /** What projecting a sequence of items leads to: the calls made and the exception that ended them. */
  datatype Projected = Projected(calls: seq<MapCall>, error: Option<ProjectionError>)

  function ProjectItems(root: Projector, items: seq<Item>, handle: MapHandle): Projected
  {
    if items == [] then Projected([], None)
    else
      var w := ItemWalk(root, items[0], handle);
      if w.failure.Some? then Projected(w.calls, Some(Enrich(w.failure.value, items[0].transaction, items[0].envelope)))
      else
        var rest := ProjectItems(root, items[1..], handle);
        Projected(w.calls + rest.calls, rest.error)
  }

  /** Every planned call, item by item. */
  function AllCalls(root: Projector, items: seq<Item>): seq<MapCall>
  {
    if items == [] then []
    else PostOrder(root, items[0].envelope.body, ContextFor(items[0].transaction, items[0].envelope))
         + AllCalls(root, items[1..])
  }

  lemma {:induction false} ProjectItemsAppend(root: Projector, a: seq<Item>, b: seq<Item>, handle: MapHandle)
    ensures var first := ProjectItems(root, a, handle);
            ProjectItems(root, a + b, handle)
              == if first.error.Some? then first
                 else var rest := ProjectItems(root, b, handle); Projected(first.calls + rest.calls, rest.error)
  {
    if a == [] {
      assert a + b == b;
    } else {
      assert (a + b)[0] == a[0];
      assert (a + b)[1..] == a[1..] + b;
      ProjectItemsAppend(root, a[1..], b, handle);
    }
  }

  lemma {:induction false} AllCallsAppend(root: Projector, a: seq<Item>, b: seq<Item>)
    ensures AllCalls(root, a + b) == AllCalls(root, a) + AllCalls(root, b)
  {
    if a == [] {
      assert a + b == b;
    } else {
      assert (a + b)[0] == a[0];
      assert (a + b)[1..] == a[1..] + b;
      AllCallsAppend(root, a[1..], b);
    }
  }

  /**
   * Item k is where the batch failed: every item before it was fully projected,
   * item k was projected up to its failing call, and the error is item k's failure
   * annotated with item k's event and transaction.
   */
  ghost predicate FailedAt(root: Projector, items: seq<Item>, handle: MapHandle, k: nat, r: Projected)
    requires k < |items|
  {
    var w := ItemWalk(root, items[k], handle);
    && (forall i :: 0 <= i < k ==> ItemWalk(root, items[i], handle).failure.None?)
    && w.failure.Some?
    && r.calls == AllCalls(root, items[..k]) + w.calls
    && r.error == Some(Enrich(w.failure.value, items[k].transaction, items[k].envelope))
  }

  lemma FailedAtShift(root: Projector, items: seq<Item>, handle: MapHandle, k: nat, rest: Projected)
    requires 0 < |items| && k < |items| - 1
    requires ItemWalk(root, items[0], handle).failure.None?
    requires ItemWalk(root, items[0], handle).calls == AllCalls(root, [items[0]])
    requires FailedAt(root, items[1..], handle, k, rest)
    ensures FailedAt(root, items, handle, k + 1,
                     Projected(ItemWalk(root, items[0], handle).calls + rest.calls, rest.error))
  {
    assert items[..k + 1] == [items[0]] + items[1..][..k];
    AllCallsAppend(root, [items[0]], items[1..][..k]);
    assert forall i :: 1 <= i < k + 1 ==> items[i] == items[1..][i - 1];
    assert items[k + 1] == items[1..][k];
  }

  /** A projected item that did not fail made every call of its post-order traversal. */
  lemma ItemWalkPlanned(root: Projector, item: Item, handle: MapHandle)
    ensures var w := ItemWalk(root, item, handle);
            var planned := PostOrder(root, item.envelope.body, ContextFor(item.transaction, item.envelope));
            && UpTo(planned, handle) == w
            && (w.failure.None? ==> w.calls == AllCalls(root, [item]))
  {
    var context := ContextFor(item.transaction, item.envelope);
    ProjectEventIsPostOrder(root, item.envelope.body, context, handle);
    UpToStopsAtFirstFailure(PostOrder(root, item.envelope.body, context), handle);
    assert [item][1..] == [];
    assert AllCalls(root, [item]) == PostOrder(root, item.envelope.body, context) + [];
  }

  /**
   * The first failure ends the batch. Without a failure every planned call was made.
   * With one, it happened at some item k (see FailedAt): nothing after item k was
   * handed to any map.
   */
  lemma {:induction false} FirstFailureEndsBatch(root: Projector, items: seq<Item>, handle: MapHandle)
    ensures var r := ProjectItems(root, items, handle);
            && (r.error.None? ==> r.calls == AllCalls(root, items))
            && (r.error.Some? ==> exists k :: 0 <= k < |items| && FailedAt(root, items, handle, k, r))
  {
    if items != [] {
      var w := ItemWalk(root, items[0], handle);
      ItemWalkPlanned(root, items[0], handle);
      if w.failure.Some? {
        assert items[..0] == [];
        assert FailedAt(root, items, handle, 0, ProjectItems(root, items, handle));
      } else {
        FirstFailureEndsBatch(root, items[1..], handle);
        var rest := ProjectItems(root, items[1..], handle);
        AllCallsAppend(root, [items[0]], items[1..]);
        assert [items[0]] + items[1..] == items;
        if rest.error.Some? {
          var k :| 0 <= k < |items[1..]| && FailedAt(root, items[1..], handle, k, rest);
          FailedAtShift(root, items, handle, k, rest);
        }
      }
    }
  }

  /** The call hands the item's event to a map, with a context copied from the item's transaction and envelope. */
  ghost predicate CallFor(c: MapCall, item: Item)
  {
    && c.event == item.envelope.body
    && c.context.transactionId == item.transaction.id
    && c.context.streamId == item.transaction.streamId
    && c.context.timeStampUtc == item.transaction.timeStampUtc
    && c.context.checkpoint == item.transaction.checkpoint
    && c.context.transactionHeaders == item.transaction.headers
    && c.context.eventHeaders == item.envelope.headers
  }

  /** Every call of a batch is made for one of its items, with that item's event and a context copied from it. */
  lemma {:induction false} CallsCarryTheirContext(root: Projector, items: seq<Item>, handle: MapHandle)
    ensures forall c :: c in ProjectItems(root, items, handle).calls ==>
              exists i :: 0 <= i < |items| && CallFor(c, items[i])
  {
    if items != [] {
      var item := items[0];
      var context := ContextFor(item.transaction, item.envelope);
      var w := ItemWalk(root, item, handle);
      var planned := PostOrder(root, item.envelope.body, context);
      ItemWalkPlanned(root, item, handle);
      UpToStopsAtFirstFailure(planned, handle);
      PostOrderShape(root, item.envelope.body, context);
      assert forall c :: c in w.calls ==> CallFor(c, items[0]);
      if w.failure.None? {
        CallsCarryTheirContext(root, items[1..], handle);
        var rest := ProjectItems(root, items[1..], handle).calls;
        forall c | c in rest
          ensures exists i :: 0 <= i < |items| && CallFor(c, items[i])
        {
          var i :| 0 <= i < |items[1..]| && CallFor(c, items[1..][i]);
          assert items[1..][i] == items[i + 1];
        }
      }
    }
  }

  /** Under the projector's hook a custom action runs as given: no projection changes, and it fails exactly when the action does. */
  lemma CustomActionRunsCallback<E, K, P>(action: (E, ProjectionContext) -> Option<Exception>, store: map<K, P>,
                                          e: E, context: ProjectionContext)
    ensures var r := MapBuilding.ApplyAction(MapBuilding.Action<E, ProjectionContext, K, P>.As(action),
                                             SetupHandlers(), store, e, context);
            && (r.Err? <==> action(e, context).Some?)
            && (r.Err? ==> r.error == MapBuilding.ActionFailed(action(e, context).value))
            && (r.Ok? ==> r.value == MapBuilding.Step(store, true))
  {
  }

  // ---------------------------------------------------------------------------
  // The loops.
  // ---------------------------------------------------------------------------

  lemma ProjectItemsUnfolds(root: Projector, items: seq<Item>, j: nat, handle: MapHandle)
    requires j < |items|
    ensures var w := ItemWalk(root, items[j], handle);
            ProjectItems(root, items[j..], handle)
              == if w.failure.Some? then Projected(w.calls, Some(Enrich(w.failure.value, items[j].transaction, items[j].envelope)))
                 else var rest := ProjectItems(root, items[j + 1..], handle); Projected(w.calls + rest.calls, rest.error)
  {
    assert items[j..][0] == items[j];
    assert items[j..][1..] == items[j + 1..];
  }

  /** Projects each event of one transaction in envelope order; the first failure is annotated and ends it. */
  method ProjectTransaction(root: Projector, t: Transaction, handle: MapHandle)
    returns (calls: seq<MapCall>, error: Option<ProjectionError>)
    ensures Projected(calls, error) == ProjectItems(root, TransactionItems(t), handle)
  {
    ghost var items := TransactionItems(t);
    ghost var whole := ProjectItems(root, items, handle);
    calls := [];
    error := None;
    var j := 0;
    while j < |t.events| && error.None?
      invariant 0 <= j <= |t.events|
      invariant error.None? ==> whole.calls == calls + ProjectItems(root, items[j..], handle).calls
      invariant error.None? ==> whole.error == ProjectItems(root, items[j..], handle).error
      invariant error.Some? ==> whole == Projected(calls, error)
      decreases |t.events| - j
    {
      var envelope := t.events[j];
      var w := ProjectEvent(root, envelope.body, ContextFor(t, envelope), handle);
      ProjectItemsUnfolds(root, items, j, handle);
      calls := calls + w.calls;
      if w.failure.Some? {
        error := Some(Enrich(w.failure.value, t, envelope));
      }
      j := j + 1;
    }
    if error.None? {
      assert items[j..] == [];
    }
  }

  lemma ItemsPrefix(txs: seq<Transaction>, i: nat)
    requires i < |txs|
    ensures Items(txs[..i + 1]) == Items(txs[..i]) + TransactionItems(txs[i])
  {
    ItemsAppend(txs[..i], [txs[i]]);
    assert txs[..i + 1] == txs[..i] + [txs[i]];
    assert Items([txs[i]]) == TransactionItems(txs[i]) + Items([]);
  }

  lemma {:induction false} ItemsAppend(a: seq<Transaction>, b: seq<Transaction>)
    ensures Items(a + b) == Items(a) + Items(b)
  {
    if a == [] {
      assert a + b == b;
    } else {
      assert (a + b)[0] == a[0];
      assert (a + b)[1..] == a[1..] + b;
      ItemsAppend(a[1..], b);
    }
  }

  /** Projects the transactions in list order; the first failing transaction ends the batch. */
  method Handle(root: Projector, transactions: seq<Transaction>, handle: MapHandle)
    returns (calls: seq<MapCall>, error: Option<ProjectionError>)
    ensures Projected(calls, error) == ProjectItems(root, Items(transactions), handle)
  {
    calls := [];
    error := None;
    var i := 0;
    while i < |transactions| && error.None?
      invariant 0 <= i <= |transactions|
      invariant error.None? ==> Projected(calls, error) == ProjectItems(root, Items(transactions[..i]), handle)
      invariant error.Some? ==> Projected(calls, error) == ProjectItems(root, Items(transactions), handle)
      decreases |transactions| - i
    {
      var more, failure := ProjectTransaction(root, transactions[i], handle);
      ItemsPrefix(transactions, i);
      ProjectItemsAppend(root, Items(transactions[..i]), TransactionItems(transactions[i]), handle);
      calls := calls + more;
      error := failure;
      if error.Some? {
        ItemsAppend(transactions[..i + 1], transactions[i + 1..]);
        assert transactions[..i + 1] + transactions[i + 1..] == transactions;
        ProjectItemsAppend(root, Items(transactions[..i + 1]), Items(transactions[i + 1..]), handle);
      }
      i := i + 1;
    }
    if error.None? {
      assert transactions[..i] == transactions;
    }
  }
}
