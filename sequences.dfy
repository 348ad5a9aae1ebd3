/** Sums, means and bounded FIFO logs over sequences, shared by the metrics collector and the monitor. */
module Sequences {

  /** The sum of `s`, folded from the left as `reduce((a, b) => a + b, 0)` does. */
  function Sum(s: seq<int>): int
  {
    if s == [] then 0 else Sum(s[..|s| - 1]) + s[|s| - 1]
  }

  lemma {:induction false} SumAppend(a: seq<int>, b: seq<int>)
    ensures Sum(a + b) == Sum(a) + Sum(b)
    decreases |b|
  {
    if b == [] {
      assert a + b == a;
    } else {
      assert (a + b)[..|a + b| - 1] == a + b[..|b| - 1];
      SumAppend(a, b[..|b| - 1]);
    }
  }

  lemma {:induction false} SumFirst(s: seq<int>)
    requires s != []
    ensures Sum(s) == s[0] + Sum(s[1..])
  {
    assert s == [s[0]] + s[1..];
    SumAppend([s[0]], s[1..]);
    assert [s[0]][..0] == [];
  }

  /** Arithmetic mean of a non-empty sequence, as an exact real number. */
  function Mean(s: seq<int>): real
    requires |s| > 0
  {
    Sum(s) as real / |s| as real
  }

  /** The last `n` elements of `s` (all of `s` when it is shorter): `slice(-n)` for `n > 0`. */
  function Last<T>(s: seq<T>, n: nat): (r: seq<T>)
    ensures |r| == if |s| <= n then |s| else n
  {
    if |s| <= n then s else s[|s| - n..]
  }

  /**
   * `log.push(x)` followed by a single `log.shift()` when the log then holds more than `cap`
   * entries: the bounded append used for every history in the system.
   */
  function Push<T>(log: seq<T>, x: T, cap: nat): (r: seq<T>)
    ensures |log| <= cap ==> |r| <= cap
    ensures cap > 0 ==> r != [] && r[|r| - 1] == x
    ensures |log| < cap ==> r == log + [x]
    ensures |log| == cap > 0 ==> r == log[1..] + [x]
  {
    var grown := log + [x];
    if |grown| > cap then grown[1..] else grown
  }

  /**
   * If a log holds the last `cap` of everything appended so far, it still does after one more
   * bounded append: the oldest entry is dropped first and order is kept.
   */
  lemma {:induction false} PushKeepsLast<T>(all: seq<T>, log: seq<T>, x: T, cap: nat)
    requires cap > 0
    requires log == Last(all, cap)
    ensures Push(log, x, cap) == Last(all + [x], cap)
  {
    var all' := all + [x];
    if |all| < cap {
      assert log == all;
    } else {
      assert log == all[|all| - cap..];
      assert Push(log, x, cap) == all[|all| - cap + 1..] + [x];
      assert Last(all', cap) == all'[|all'| - cap..];
      assert all'[|all'| - cap..] == all[|all| - cap + 1..] + [x];
    }
  }
}
