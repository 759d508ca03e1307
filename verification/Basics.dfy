/** Shared vocabulary: options and results, clock readings, bounded counters
    and the "last n elements" view used by every sliding window. */
module Basics {

  datatype Option<+T> = None | Some(value: T)

  datatype Result<+T, +E> = Ok(value: T) | Err(error: E)

  /** A monotonic-clock reading in microseconds. Nothing below assumes that
      successive readings increase. */
  type Instant = int

  /** `Instant::duration_since`: zero when `since` lies in the future. */
  function Elapsed(now: Instant, since: Instant): (d: nat)
    ensures d == 0 <==> now <= since
    ensures now >= since ==> since + d == now
  {
    if now >= since then now - since else 0
  }

  /** An unsigned byte, the type of the pacer's streak counters. */
  type U8 = n: int | 0 <= n < 256

  /** `u8::saturating_add(1)`. */
  function SaturatingInc(x: U8): (r: U8)
    ensures x < 255 ==> r == x + 1
  {
    if x == 255 then 255 else x + 1
  }

  function RealMin(a: real, b: real): (m: real)
    ensures m <= a && m <= b && (m == a || m == b)
  {
    if b < a then b else a
  }

  function RealMax(a: real, b: real): (m: real)
    ensures m >= a && m >= b && (m == a || m == b)
  {
    if a < b then b else a
  }

  function Abs(x: real): (a: real)
    ensures a >= 0.0 && (a == x || a == -x)
  {
    if x < 0.0 then -x else x
  }

  lemma MulNonNeg(a: real, b: real)
    requires a >= 0.0 && b >= 0.0
    ensures a * b >= 0.0
  {
  }

  /** `factor` to the power `n`, times `x`. */
  function Decay(factor: real, n: nat, x: real): (r: real)
    ensures 0.0 <= factor && 0.0 <= x ==> 0.0 <= r
  {
    if n == 0 then x else factor * Decay(factor, n - 1, x)
  }

  /** With a factor of at most one, more steps leave no more. */
  lemma {:induction false} DecayShrinks(factor: real, m: nat, n: nat, x: real)
    requires 0.0 <= factor <= 1.0 && 0.0 <= x && m <= n
    ensures Decay(factor, n, x) <= Decay(factor, m, x)
  {
    if m < n {
      DecayShrinks(factor, m, n - 1, x);
      var d := Decay(factor, n - 1, x);
      MulNonNeg(1.0 - factor, d);
      assert (1.0 - factor) * d == d - factor * d;
      assert Decay(factor, n, x) == factor * d;
    }
  }

  lemma IntMulMono(a: int, b: int, c: int)
    requires a <= b && c >= 0
    ensures a * c <= b * c
  {
    assert (b - a) * c >= 0;
  }

  function Front<T>(s: seq<T>): (r: seq<T>)
    requires s != []
    ensures |r| == |s| - 1
  {
    s[..|s| - 1]
  }

  function Last<T>(s: seq<T>): T
    requires s != []
  {
    s[|s| - 1]
  }

  lemma FrontAndLast<T>(s: seq<T>)
    requires s != []
    ensures s[..|s| - 1] + [s[|s| - 1]] == s
  {
  }

  lemma AppendLast<T>(a: seq<T>, b: seq<T>)
    requires b != []
    ensures a + b == (a + b[..|b| - 1]) + [b[|b| - 1]]
  {
  }

  lemma AppendFront<T>(a: seq<T>, b: seq<T>)
    requires b != []
    ensures (a + b)[..|a + b| - 1] == a + b[..|b| - 1]
  {
  }

  /** The last `n` elements of `s`, or all of them when there are fewer. */
  function LastN<T>(s: seq<T>, n: nat): (r: seq<T>)
    ensures |r| == if |s| <= n then |s| else n
  {
    if |s| <= n then s else s[|s| - n..]
  }

  /** A deque of capacity `n` that pops its front when full, as both packet
      windows do before pushing. */
  function PushBounded<T>(window: seq<T>, x: T, n: nat): (r: seq<T>)
    requires |window| <= n && 0 < n
    ensures 0 < |r| <= n && r[|r| - 1] == x
  {
    (if |window| >= n then window[1..] else window) + [x]
  }

  /** Pushing onto a bounded window keeps exactly the last `n` of the history. */
  lemma PushKeepsLastN<T>(history: seq<T>, x: T, n: nat)
    requires 0 < n
    ensures PushBounded(LastN(history, n), x, n) == LastN(history + [x], n)
  {
    assert PushBounded(LastN(history, n), x, n) == LastN(history + [x], n);
  }

  /** A list rewritten in place from the front, one element further. */
  lemma RewriteStep<T>(before: seq<T>, after: seq<T>, i: nat)
    requires |before| == |after| && i < |before|
    ensures (after[..i] + before[i..])[i] == before[i]
    ensures (after[..i] + before[i..])[i := after[i]] == after[..i + 1] + before[i + 1..]
  {
  }
}
