/**
 * The sample queue between the capture and render paths, abstracted to its
 * unread contents. Writing appends; reading takes the oldest samples and
 * zero-fills whatever the queue cannot supply.
 */
module Fifo {

  function Min(a: nat, b: nat): nat
  {
    if a <= b then a else b
  }

  /** Appends `samples` behind the unread contents. */
  function Write<T>(queue: seq<T>, samples: seq<T>): (r: seq<T>)
    ensures |r| == |queue| + |samples|
    ensures r[..|queue|] == queue && r[|queue|..] == samples
  {
    queue + samples
  }

  /**
   * Reads `n` samples: the result is the delivered block and the queue left behind.
   * Nothing is lost or reordered, and a shortfall is filled with `zero`.
   */
  function Read<T>(queue: seq<T>, n: nat, zero: T): (r: (seq<T>, seq<T>))
    ensures |r.0| == n
    ensures r.0[..Min(n, |queue|)] + r.1 == queue
    ensures forall i :: |queue| <= i < n ==> r.0[i] == zero
  {
    if n <= |queue| then (queue[..n], queue[n..])
    else (queue + seq(n - |queue|, _ => zero), [])
  }

  /** Samples come out in the order they went in. */
  lemma ReadAfterWrite<T>(queue: seq<T>, samples: seq<T>, zero: T)
    ensures Read(Write(queue, samples), |queue|, zero) == (queue, samples)
    ensures Read(Write(queue, samples), |queue| + |samples|, zero) == (queue + samples, [])
  {
    var w := Write(queue, samples);
    assert w[..|queue|] == queue;
    assert w[..|queue| + |samples|] == w;
  }
}
