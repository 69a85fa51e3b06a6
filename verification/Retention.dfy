/** In-memory lists that keep only their newest entries (`del xs[:-n]`, `xs = xs[-n:]`).
    The retained list is a window onto the full history; `Base` is where it starts. */
module Retention {
  function LastN<T>(s: seq<T>, n: nat): (kept: seq<T>) {
    if |s| <= n then s else s[|s| - n..]
  }

  function Base<T>(s: seq<T>, n: nat): nat {
    if |s| <= n then 0 else |s| - n
  }

  /** The history after its retained window was rewritten, and possibly extended, to `window`. */
  function Rewrite<T>(history: seq<T>, n: nat, window: seq<T>): seq<T> {
    history[..Base(history, n)] + window
  }

  lemma WindowIsSuffix<T>(s: seq<T>, n: nat)
    ensures s == s[..Base(s, n)] + LastN(s, n)
    ensures |LastN(s, n)| == |s| - Base(s, n) && |LastN(s, n)| <= n
    ensures forall i :: 0 <= i < |LastN(s, n)| ==> LastN(s, n)[i] == s[Base(s, n) + i]
  {}

  /** Trimming the rewritten window gives the window of the rewritten history: a bounded
      list never loses more than the history it stands for. */
  lemma RewriteThenTrim<T>(history: seq<T>, n: nat, window: seq<T>)
    requires |window| >= |LastN(history, n)|
    ensures LastN(Rewrite(history, n, window), n) == LastN(window, n)
    ensures |Rewrite(history, n, window)| == Base(history, n) + |window|
    ensures forall i :: 0 <= i < Base(history, n) ==> Rewrite(history, n, window)[i] == history[i]
    ensures forall i :: 0 <= i < |window| ==>
              Rewrite(history, n, window)[Base(history, n) + i] == window[i]
  {}

  /** One entry of the rewritten history. */
  lemma RewriteIndex<T>(history: seq<T>, n: nat, window: seq<T>, i: nat)
    requires |window| >= |LastN(history, n)| && i < Base(history, n) + |window|
    ensures |Rewrite(history, n, window)| == Base(history, n) + |window| && Base(history, n) <= |history|
    ensures Rewrite(history, n, window)[i] == if i < Base(history, n) then history[i] else window[i - Base(history, n)]
  {}

  /** Changing one retained entry and appending, on the window and on the history. */
  lemma RewriteAt<T>(history: seq<T>, n: nat, at: nat, x: T, tail: seq<T>)
    requires at < |LastN(history, n)|
    ensures Base(history, n) + at < |history|
    ensures history[Base(history, n) + at] == LastN(history, n)[at]
    ensures LastN(history[Base(history, n) + at := x] + tail, n) == LastN(LastN(history, n)[at := x] + tail, n)
    ensures |LastN(history, n)| <= n
  {
    WindowIsSuffix(history, n);
    var window := LastN(history, n)[at := x] + tail;
    assert history[Base(history, n) + at := x] + tail == Rewrite(history, n, window);
    RewriteThenTrim(history, n, window);
  }

  /** A reflexive relation that holds along the window holds along the whole history. */
  lemma RewritePointwise<T>(history: seq<T>, n: nat, window: seq<T>, related: (T, T) -> bool)
    requires |window| >= |LastN(history, n)|
    requires forall i :: 0 <= i < |LastN(history, n)| ==> related(LastN(history, n)[i], window[i])
    requires forall i :: 0 <= i < |history| ==> related(history[i], history[i])
    ensures forall i :: 0 <= i < |history| ==> related(history[i], Rewrite(history, n, window)[i])
  {}
}
