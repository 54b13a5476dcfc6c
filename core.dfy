/**
 * Vocabulary shared by the event log, the dispatcher and the projector:
 * transactions, event envelopes, result wrappers and two small sequence helpers.
 */
module Core {

  datatype Option<T> = None | Some(value: T)

  datatype Result<T, E> = Ok(value: T) | Err(error: E)

  /** The argument checks callers can fail: a missing argument, or an invalid one. */
  datatype ArgumentError = ArgumentNull(paramName: string) | Argument(message: string, paramName: string)

  /** An event payload. Consumers dispatch on its runtime type, which this model leaves opaque. */
  type Body(!new)

  /** The value stored under one header name. */
  type HeaderValue(!new)

  /** A header dictionary: transaction headers and event headers alike. */
  type Headers = map<string, HeaderValue>

  /** Anything a handler, a hook or an event map can throw. */
  type Exception(!new)

  /** One event within a transaction. */
  datatype EventEnvelope = EventEnvelope(body: Body, headers: Headers)

  /**
   * An atomic unit of commit. `checkpoint` is assigned by the event log when the
   * transaction is written.
   */
  datatype Transaction = Transaction(
    id: string,
    streamId: string,
    timeStampUtc: int,
    checkpoint: int,
    headers: Headers,
    events: seq<EventEnvelope>)

  /**
   * A transaction as a default constructor leaves it: no identifiers, no headers,
   * checkpoint 0, and the given events. The Transaction class itself is not part of
   * this model; these stand for its defaults.
   */
  function NewTransaction(events: seq<EventEnvelope>): (t: Transaction)
    ensures t.events == events && t.checkpoint == 0 && t.headers == map[]
  {
    Transaction("", "", 0, 0, map[], events)
  }

  /** The concatenation of a sequence of sequences, in order. */
  function Concat<T>(xs: seq<seq<T>>): seq<T>
  {
    if xs == [] then [] else xs[0] + Concat(xs[1..])
  }

  lemma {:induction false} ConcatAppend<T>(a: seq<seq<T>>, b: seq<seq<T>>)
    ensures Concat(a + b) == Concat(a) + Concat(b)
  {
    if a == [] {
      assert a + b == b;
    } else {
      assert (a + b)[0] == a[0];
      assert (a + b)[1..] == a[1..] + b;
      ConcatAppend(a[1..], b);
    }
  }

  /** How many elements of `s` satisfy `p`. */
  function Count<T>(s: seq<T>, p: T -> bool): nat
  {
    if s == [] then 0 else (if p(s[0]) then 1 else 0) + Count(s[1..], p)
  }

  lemma {:induction false} CountAppend<T>(a: seq<T>, b: seq<T>, p: T -> bool)
    ensures Count(a + b, p) == Count(a, p) + Count(b, p)
  {
    if a == [] {
      assert a + b == b;
    } else {
      assert (a + b)[0] == a[0];
      assert (a + b)[1..] == a[1..] + b;
      CountAppend(a[1..], b, p);
    }
  }

  /** The integers from `lo` up to but excluding `lo + n`. */
  function Range(lo: int, n: nat): (r: seq<int>)
    ensures |r| == n && forall i :: 0 <= i < n ==> r[i] == lo + i
  {
    seq(n, i => lo + i)
  }

  lemma RangeCons(lo: int, n: nat)
    requires n > 0
    ensures Range(lo, n) == [lo] + Range(lo + 1, n - 1)
  {
    assert forall i :: 0 <= i < n ==> Range(lo, n)[i] == ([lo] + Range(lo + 1, n - 1))[i];
  }

  lemma RangeSnoc(lo: int, n: nat)
    ensures Range(lo, n + 1) == Range(lo, n) + [lo + n]
  {
    var r := Range(lo, n);
    assert forall i :: 0 <= i < n ==> (r + [lo + n])[i] == r[i];
    assert (r + [lo + n])[n] == lo + n;
  }
}
