/** Parsers that are fed a stream piece by piece. */
module Streams {

  /** A parser that takes one element at a time, for as long as it accepts more. */
  datatype Machine<!S, !C> = Machine(accepts: S -> bool, step: (S, C) -> S)

  /** Takes as much as the parser accepts. Returns what it leaves unread. */
  function Run<S, C>(m: Machine<S, C>, p: S, s: seq<C>): (S, seq<C>)
    decreases |s|
  {
    if s == [] || !m.accepts(p) then (p, s) else Run(m, m.step(p, s[0]), s[1..])
  }

  lemma {:induction false} RunConcat<S, C>(m: Machine<S, C>, p: S, a: seq<C>, b: seq<C>)
    ensures var (q, left) := Run(m, p, a); Run(m, p, a + b) == if left == [] then Run(m, q, b) else (q, left + b)
    decreases |a|
  {
    if a == [] {
      assert a + b == b;
    } else if m.accepts(p) {
      assert (a + b)[0] == a[0] && (a + b)[1..] == a[1..] + b;
      RunConcat(m, m.step(p, a[0]), a[1..], b);
    }
  }

  lemma {:induction false} RunLeavesOnlyIfStopped<S, C>(m: Machine<S, C>, p: S, a: seq<C>)
    ensures var (q, left) := Run(m, p, a); left != [] ==> !m.accepts(q)
    decreases |a|
  {
    if a != [] && m.accepts(p) { RunLeavesOnlyIfStopped(m, m.step(p, a[0]), a[1..]); }
  }

  /** The reads of a reply: each chunk is appended to what is unread, and the parser runs until it stops. */
  function Feed<S, C>(m: Machine<S, C>, p: S, unread: seq<C>, chunks: seq<seq<C>>): (S, seq<C>)
    decreases |chunks|
  {
    if chunks == [] then (p, unread)
    else
      var (q, left) := Run(m, p, unread + chunks[0]);
      Feed(m, q, left, chunks[1..])
  }

  function Flatten<C>(chunks: seq<seq<C>>): seq<C> {
    if chunks == [] then [] else chunks[0] + Flatten(chunks[1..])
  }

  /** Splitting the stream into reads makes no difference. */
  lemma {:induction false} FeedIsRun<S, C>(m: Machine<S, C>, p: S, unread: seq<C>, chunks: seq<seq<C>>)
    requires unread == [] || !m.accepts(p)
    ensures Feed(m, p, unread, chunks) == Run(m, p, unread + Flatten(chunks))
    decreases |chunks|
  {
    if chunks == [] {
      assert unread + Flatten(chunks) == unread;
    } else {
      var (q, left) := Run(m, p, unread + chunks[0]);
      RunLeavesOnlyIfStopped(m, p, unread + chunks[0]);
      FeedIsRun(m, q, left, chunks[1..]);
      RunConcat(m, p, unread + chunks[0], Flatten(chunks[1..]));
      assert unread + Flatten(chunks) == (unread + chunks[0]) + Flatten(chunks[1..]);
      if left == [] { assert left + Flatten(chunks[1..]) == Flatten(chunks[1..]); }
    }
  }
}
