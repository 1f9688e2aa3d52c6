/** The bounded rolling window of durations kept by both admission engines: the scheduler's
    `deque(maxlen=100)` and the dispatcher's list trimmed with `pop(0)` after each append. */
module Window {

  /** Both engines keep the latest 100 durations. */
  const Capacity: nat := 100

  /** Append `x` as the newest entry and, if the window then holds more than `Capacity`
      entries, drop the oldest one. */
  function Push<T>(w: seq<T>, x: T): (r: seq<T>)
    ensures |r| > 0 && r[|r| - 1] == x
    ensures |w| < Capacity ==> r == w + [x]
    ensures |w| >= Capacity ==> r == w[1..] + [x]
    ensures |w| <= Capacity ==> |r| <= Capacity
  {
    var s := w + [x];
    if |s| > Capacity then s[1..] else s
  }

  /** Pushing the entries of `xs` one after another, first entry first. */
  function PushAll<T>(w: seq<T>, xs: seq<T>): seq<T>
    decreases |xs|
  {
    if xs == [] then w else Push(PushAll(w, xs[..|xs| - 1]), xs[|xs| - 1])
  }

  /** After any number of pushes into a window that starts within bounds, it holds exactly the
      latest `min(Capacity, total)` entries of everything pushed, oldest first. */
  lemma {:induction false} PushAllKeepsLatest<T>(w: seq<T>, xs: seq<T>)
    requires |w| <= Capacity
    ensures |PushAll(w, xs)| == if |w| + |xs| <= Capacity then |w| + |xs| else Capacity
    ensures PushAll(w, xs) == (w + xs)[|w| + |xs| - |PushAll(w, xs)|..]
    decreases |xs|
  {
    if xs == [] {
      assert w + xs == w;
    } else {
      var init := xs[..|xs| - 1];
      var x := xs[|xs| - 1];
      assert xs == init + [x];
      PushAllKeepsLatest(w, init);
      assert w + xs == (w + init) + [x];
    }
  }

  function Sum(s: seq<nat>): nat {
    if s == [] then 0 else Sum(s[..|s| - 1]) + s[|s| - 1]
  }

  /** `sum(window) / len(window)` as an exact rational, 0 for an empty window. */
  function Mean(s: seq<nat>): (r: real)
    ensures r >= 0.0
    ensures s != [] ==> r * (|s| as real) == Sum(s) as real
  {
    if s == [] then 0.0 else (Sum(s) as real) / (|s| as real)
  }
}
