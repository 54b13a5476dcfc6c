/**
 * The in-memory event log: it stamps written transactions with consecutive
 * checkpoints, keeps them as history, replays that history to each new subscriber
 * and fans every later write out to all registered subscribers, in batches.
 */
module EventStore {
  import opened Core

  /** A batch size; the log's default is 10. */
  type BatchSize = n: int | n > 0 witness 10

  /** The transactions of `txs` whose checkpoint is at least `from`, in their order. */
  function Since(txs: seq<Transaction>, from: int): (r: seq<Transaction>)
    ensures |r| <= |txs|
    ensures forall t :: t in r <==> t in txs && t.checkpoint >= from
  {
    if txs == [] then []
    else (if txs[0].checkpoint >= from then [txs[0]] else []) + Since(txs[1..], from)
  }

  lemma {:induction false} SinceAppend(a: seq<Transaction>, b: seq<Transaction>, from: int)
    ensures Since(a + b, from) == Since(a, from) + Since(b, from)
  {
    if a == [] {
      assert a + b == b;
    } else {
      assert (a + b)[0] == a[0];
      assert (a + b)[1..] == a[1..] + b;
      SinceAppend(a[1..], b, from);
    }
  }

  /** Filtering keeps checkpoints strictly increasing: no reordering, no duplicates. */
  lemma {:induction false} SinceIncreasing(txs: seq<Transaction>, from: int)
    requires Increasing(txs)
    ensures Increasing(Since(txs, from))
  {
    if txs != [] {
      var tail := txs[1..];
      assert Increasing(tail) by {
        forall i, j | 0 <= i < j < |tail| ensures tail[i].checkpoint < tail[j].checkpoint {
          assert tail[i] == txs[i + 1] && tail[j] == txs[j + 1];
        }
      }
      SinceIncreasing(tail, from);
      var rest := Since(tail, from);
      if txs[0].checkpoint >= from {
        forall i | 0 <= i < |tail| ensures txs[0].checkpoint < tail[i].checkpoint {
          assert tail[i] == txs[i + 1];
        }
        SinceAbove(tail, from, txs[0].checkpoint);
        IncreasingCons(txs[0], rest);
      }
    }
  }

  /** Filtering keeps a lower bound on the checkpoints. */
  lemma SinceAbove(txs: seq<Transaction>, from: int, bound: int)
    requires forall i :: 0 <= i < |txs| ==> bound < txs[i].checkpoint
    ensures forall j :: 0 <= j < |Since(txs, from)| ==> bound < Since(txs, from)[j].checkpoint
  {
    var r := Since(txs, from);
    forall j | 0 <= j < |r| ensures bound < r[j].checkpoint {
      assert r[j] in txs;
    }
  }

  /** A transaction ahead of every checkpoint of an increasing sequence can lead it. */
  lemma IncreasingCons(t: Transaction, rest: seq<Transaction>)
    requires Increasing(rest) && forall j :: 0 <= j < |rest| ==> t.checkpoint < rest[j].checkpoint
    ensures Increasing([t] + rest)
  {
    var s := [t] + rest;
    forall i, j | 0 <= i < j < |s| ensures s[i].checkpoint < s[j].checkpoint {
      assert s[j] == rest[j - 1];
      if i > 0 {
        assert s[i] == rest[i - 1];
      }
    }
  }

  /** Checkpoints strictly increase along `txs`. */
  ghost predicate Increasing(txs: seq<Transaction>)
  {
    forall i, j :: 0 <= i < j < |txs| ==> txs[i].checkpoint < txs[j].checkpoint
  }

  /**
   * Order-preserving chunking into non-empty batches of at most `size` elements;
   * every batch but the last is full.
   */
  function Chunks(s: seq<Transaction>, size: BatchSize): (r: seq<seq<Transaction>>)
    ensures Concat(r) == s
    ensures forall i :: 0 <= i < |r| ==> 0 < |r[i]| <= size
    decreases |s|
  {
    if s == [] then []
    else if |s| <= size then
      assert Concat([s]) == s + Concat([s][1..]);
      [s]
    else
      var rest := Chunks(s[size..], size);
      assert ([s[..size]] + rest)[0] == s[..size];
      assert ([s[..size]] + rest)[1..] == rest;
      assert s == s[..size] + s[size..];
      [s[..size]] + rest
  }

  /** One single-transaction batch per element of `s`, in order. */
  function Singletons(s: seq<Transaction>): (r: seq<seq<Transaction>>)
    ensures |r| == |s| && Concat(r) == s
    ensures forall i :: 0 <= i < |r| ==> r[i] == [s[i]]
  {
    if s == [] then []
    else
      var rest := Singletons(s[1..]);
      assert ([[s[0]]] + rest)[1..] == rest;
      [[s[0]]] + rest
  }

  /** Replaying one more history entry as a one-transaction send adds at most one singleton batch. */
  lemma ReplayStep(h: seq<Transaction>, i: nat, from: int, size: BatchSize)
    requires i < |h|
    ensures Singletons(Since(h[..i + 1], from))
         == Singletons(Since(h[..i], from)) + Chunks(Since([h[i]], from), size)
  {
    assert [h[i]][1..] == [];
    assert h[..i + 1] == h[..i] + [h[i]];
    SinceAppend(h[..i], [h[i]], from);
    SingletonsAppend(Since(h[..i], from), Since([h[i]], from));
  }

  /** The log's handle on one subscription. */
  class Subscriber {
    const fromCheckpoint: int
    const batchSize: BatchSize
    var disposed: bool
    /** The batches handed to this subscription's handler so far, in order. */
    var delivered: seq<seq<Transaction>>

    constructor (fromCheckpoint: int, batchSize: BatchSize)
      ensures this.fromCheckpoint == fromCheckpoint && this.batchSize == batchSize
      ensures !disposed && delivered == []
    {
      this.fromCheckpoint := fromCheckpoint;
      this.batchSize := batchSize;
      disposed := false;
      delivered := [];
    }

    /**
     * Hands the transactions with checkpoint at least `fromCheckpoint` to the
     * handler, batch by batch, unless the subscription was disposed.
     */
    method Send(transactions: seq<Transaction>)
      modifies this`delivered
      ensures delivered == old(delivered)
        + (if disposed then [] else Chunks(Since(transactions, fromCheckpoint), batchSize))
    {
      if !disposed {
        Deliver(Chunks(Since(transactions, fromCheckpoint), batchSize));
      }
    }

    /** Hands `batches` to the handler one after another. */
    method Deliver(batches: seq<seq<Transaction>>)
      modifies this`delivered
      ensures delivered == old(delivered) + batches
    {
      var i := 0;
      while i < |batches|
        invariant 0 <= i <= |batches|
        invariant delivered == old(delivered) + batches[..i]
      {
        assert batches[..i + 1] == batches[..i] + [batches[i]];
        delivered := delivered + [batches[i]];
        i := i + 1;
      }
      assert batches[..i] == batches;
    }

    /** Stops delivery for good; disposing twice changes nothing more. */
    method Dispose()
      modifies this`disposed
      ensures disposed
    {
      disposed := true;
    }
  }

  class MemoryEventSource {
    const batchSize: BatchSize
    /**
     * The checkpoint counter. In the C# `MemoryEventSource` it is a static field,
     * one counter for every log in the process; here it belongs to the one log
     * modelled.
     */
    var lastCheckpoint: int
    var subscribers: seq<Subscriber>
    var history: seq<Transaction>

    /**
     * History is in strictly increasing checkpoint order, never ahead of the counter;
     * subscribers are distinct; and every live subscriber has been handed, in order,
     * exactly the history at or after its start checkpoint.
     */
    ghost predicate Valid()
      reads this, subscribers
    {
      && Increasing(history)
      && (forall i :: 0 <= i < |history| ==> history[i].checkpoint <= lastCheckpoint)
      && Distinct(subscribers)
      && (forall j :: 0 <= j < |subscribers| ==> subscribers[j].batchSize == batchSize)
      && (forall j :: 0 <= j < |subscribers| && !subscribers[j].disposed ==>
            Concat(subscribers[j].delivered) == Since(history, subscribers[j].fromCheckpoint))
    }

    constructor (batchSize: BatchSize)
      ensures Valid()
      ensures this.batchSize == batchSize && lastCheckpoint == 0
      ensures subscribers == [] && history == []
    {
      this.batchSize := batchSize;
      lastCheckpoint := 0;
      subscribers := [];
      history := [];
    }

    /**
     * Registers a subscriber starting at `fromCheckpoint` (0 when absent), then
     * replays the history to it one transaction at a time.
     */
    method Subscribe(fromCheckpoint: Option<int>) returns (s: Subscriber)
      requires Valid()
      modifies this`subscribers
      ensures Valid() && fresh(s)
      ensures subscribers == old(subscribers) + [s]
      ensures s.fromCheckpoint == (if fromCheckpoint.Some? then fromCheckpoint.value else 0)
      ensures s.batchSize == batchSize && !s.disposed
      ensures s.delivered == Singletons(Since(history, s.fromCheckpoint))
    {
      var from := if fromCheckpoint.Some? then fromCheckpoint.value else 0;
      s := new Subscriber(from, batchSize);
      subscribers := subscribers + [s];
      Replay(s);
      DistinctAppend(old(subscribers), s);
      forall j | 0 <= j < |subscribers| && !subscribers[j].disposed
        ensures Concat(subscribers[j].delivered) == Since(history, subscribers[j].fromCheckpoint)
      {
        if j < |old(subscribers)| {
          assert subscribers[j] == old(subscribers)[j];
        }
      }
    }

    /** Replays the history to `s` one transaction at a time, through its ordinary send path. */
    method Replay(s: Subscriber)
      requires !s.disposed && s.delivered == [] && s.batchSize == batchSize
      modifies s`delivered
      ensures s.delivered == Singletons(Since(history, s.fromCheckpoint))
    {
      var i := 0;
      while i < |history|
        invariant 0 <= i <= |history|
        invariant s.delivered == Singletons(Since(history[..i], s.fromCheckpoint))
      {
        s.Send([history[i]]);
        ReplayStep(history, i, s.fromCheckpoint, batchSize);
        i := i + 1;
      }
      assert history[..i] == history;
    }

    /**
     * Stamps each transaction with the next checkpoint and appends it to the history,
     * then sends all of them to every subscriber in registration order.
     */
    method Write(transactions: seq<Transaction>) returns (written: seq<Transaction>)
      requires Valid()
      modifies this`lastCheckpoint, this`history, subscribers
      ensures Valid()
      ensures |written| == |transactions|
      ensures forall i :: 0 <= i < |written| ==>
                written[i] == transactions[i].(checkpoint := old(lastCheckpoint) + i + 1)
      ensures lastCheckpoint == old(lastCheckpoint) + |transactions|
      ensures history == old(history) + written
      ensures forall j :: 0 <= j < |subscribers| ==> subscribers[j].disposed == old(subscribers[j].disposed)
      ensures forall j :: 0 <= j < |subscribers| ==>
                subscribers[j].delivered == old(subscribers[j].delivered)
                  + (if subscribers[j].disposed then []
                     else Chunks(Since(written, subscribers[j].fromCheckpoint), batchSize))
    {
      written := Stamp(transactions);
      Broadcast(written);

      forall j | 0 <= j < |subscribers| && !subscribers[j].disposed
        ensures Concat(subscribers[j].delivered) == Since(history, subscribers[j].fromCheckpoint)
      {
        var s := subscribers[j];
        ConcatAppend(old(s.delivered), Chunks(Since(written, s.fromCheckpoint), batchSize));
        SinceAppend(old(history), written, s.fromCheckpoint);
      }
    }

    /** Gives each transaction the next checkpoint, in argument order, and appends it to the history. */
    method Stamp(transactions: seq<Transaction>) returns (written: seq<Transaction>)
      requires Increasing(history) && forall k :: 0 <= k < |history| ==> history[k].checkpoint <= lastCheckpoint
      modifies this`lastCheckpoint, this`history
      ensures |written| == |transactions|
      ensures forall i :: 0 <= i < |written| ==>
                written[i] == transactions[i].(checkpoint := old(lastCheckpoint) + i + 1)
      ensures lastCheckpoint == old(lastCheckpoint) + |transactions|
      ensures history == old(history) + written
      ensures Increasing(history) && forall k :: 0 <= k < |history| ==> history[k].checkpoint <= lastCheckpoint
    {
      written := [];
      var i := 0;
      while i < |transactions|
        invariant 0 <= i <= |transactions|
        invariant |written| == i
        invariant forall k :: 0 <= k < i ==>
                    written[k] == transactions[k].(checkpoint := old(lastCheckpoint) + k + 1)
        invariant lastCheckpoint == old(lastCheckpoint) + i
        invariant history == old(history) + written
        invariant Increasing(history)
        invariant forall k :: 0 <= k < |history| ==> history[k].checkpoint <= lastCheckpoint
      {
        lastCheckpoint := lastCheckpoint + 1;
        var stamped := transactions[i].(checkpoint := lastCheckpoint);
        written := written + [stamped];
        history := history + [stamped];
        i := i + 1;
      }
    }

    /** Sends `written` to every registered subscriber, in registration order. */
    method Broadcast(written: seq<Transaction>)
      requires Distinct(subscribers)
      modifies subscribers
      ensures forall j :: 0 <= j < |subscribers| ==> subscribers[j].disposed == old(subscribers[j].disposed)
      ensures forall j :: 0 <= j < |subscribers| ==>
                subscribers[j].delivered == old(subscribers[j].delivered)
                  + (if subscribers[j].disposed then []
                     else Chunks(Since(written, subscribers[j].fromCheckpoint), subscribers[j].batchSize))
    {
      var k := 0;
      while k < |subscribers|
        invariant 0 <= k <= |subscribers|
        invariant forall j :: 0 <= j < |subscribers| ==> subscribers[j].disposed == old(subscribers[j].disposed)
        invariant forall j :: 0 <= j < k ==>
                    subscribers[j].delivered == old(subscribers[j].delivered)
                      + (if subscribers[j].disposed then []
                         else Chunks(Since(written, subscribers[j].fromCheckpoint), subscribers[j].batchSize))
        invariant forall j :: k <= j < |subscribers| ==>
                    subscribers[j].delivered == old(subscribers[j].delivered)
      {
        subscribers[k].Send(written);
        k := k + 1;
      }

    }

    /** Writes one event as a transaction of its own and returns it with its checkpoint. */
    method WriteEvent(event: Body) returns (t: Transaction)
      requires Valid()
      modifies this`lastCheckpoint, this`history, subscribers
      ensures Valid()
      ensures t.events == [EventEnvelope(event, map[])]
      ensures t.checkpoint == old(lastCheckpoint) + 1 == lastCheckpoint
      ensures history == old(history) + [t]
      ensures forall s :: s in subscribers ==> s.disposed == old(s.disposed)
      ensures forall s :: s in subscribers ==>
                s.delivered == old(s.delivered)
                  + (if s.disposed then [] else Chunks(Since([t], s.fromCheckpoint), batchSize))
    {
      var written := Write([NewTransaction([EventEnvelope(event, map[])])]);
      assert written == [written[0]];
      t := written[0];
    }
  }

  /** No subscriber is registered twice. */
  ghost predicate Distinct(ss: seq<Subscriber>)
  {
    forall i, j :: 0 <= i < j < |ss| ==> ss[i] != ss[j]
  }

  lemma DistinctAppend(ss: seq<Subscriber>, s: Subscriber)
    requires Distinct(ss) && s !in ss
    ensures Distinct(ss + [s])
  {
  }

  lemma {:induction false} SingletonsAppend(a: seq<Transaction>, b: seq<Transaction>)
    ensures Singletons(a + b) == Singletons(a) + Singletons(b)
  {
    if a == [] {
      assert a + b == b;
    } else {
      assert (a + b)[0] == a[0];
      assert (a + b)[1..] == a[1..] + b;
      SingletonsAppend(a[1..], b);
    }
  }

  /**
   * What a live subscriber has received: every transaction of the history at or
   * after its start checkpoint, in strictly increasing checkpoint order.
   */
  lemma LiveSubscriberSeesHistory(log: MemoryEventSource, s: Subscriber)
    requires log.Valid() && s in log.subscribers && !s.disposed
    ensures Concat(s.delivered) == Since(log.history, s.fromCheckpoint)
    ensures Increasing(Concat(s.delivered))
  {
    var j :| 0 <= j < |log.subscribers| && log.subscribers[j] == s;
    SinceIncreasing(log.history, s.fromCheckpoint);
  }
}
