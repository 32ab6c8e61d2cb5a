/** Small notions every other module uses: optional values, prefix coverage of
    topics, the size of an integer range, and the sum of a finite map. */
module Prelude {

  datatype Option<+T> = None | Some(value: T)

  /** Where a chart announces itself; never a symbol. */
  const CONTROL_TOPIC := "__ts2py__"

  /** A ZeroMQ subscription is a prefix filter: `sub` delivers every topic that
      starts with it. */
  predicate Covers(sub: string, topic: string) {
    sub <= topic
  }

  function Max(a: int, b: int): int {
    if a < b then b else a
  }

  /** The last (at most) `n` elements of `s`: what a `deque(maxlen=n)` retains. */
  function LastN<T>(s: seq<T>, n: nat): (r: seq<T>) {
    if |s| <= n then s else s[|s| - n..]
  }

  /** As many as there are, at most `n`, and the last of them. */
  lemma LastNIsTail<T>(s: seq<T>, n: nat)
    ensures var r := LastN(s, n);
            |r| == (if |s| < n then |s| else n) && forall i :: 0 <= i < |r| ==> r[i] == s[|s| - |r| + i]
  {
  }

  lemma Someone<T>(s: set<T>) returns (x: T)
    requires s != {}
    ensures x in s
  {
    x :| x in s;
  }

  ghost predicate Within(n: int, lo: int, hi: int) {
    lo <= n < hi
  }

  /** The integers lo, ..., hi - 1. */
  ghost function Range(lo: int, hi: int): set<int> {
    set n | lo <= n < hi && Within(n, lo, hi)
  }

  lemma {:induction false} RangeSize(lo: int, hi: int)
    requires lo <= hi
    ensures |Range(lo, hi)| == hi - lo
    decreases hi - lo
  {
    if lo == hi {
      assert Range(lo, hi) == {};
    } else {
      RangeSize(lo, hi - 1);
      assert Range(lo, hi) == Range(lo, hi - 1) + {hi - 1};
    }
  }

  /** Sum of the values of a finite map. */
  ghost function SumMap<K>(m: map<K, int>): int
    decreases |m|
  {
    if m == map[] then 0
    else
      var k :| k in m;
      m[k] + SumMap(m - {k})
  }

  lemma {:induction false} SumMapRemove<K>(m: map<K, int>, k: K)
    requires k in m
    ensures SumMap(m) == m[k] + SumMap(m - {k})
    decreases |m|
  {
    var j :| j in m && SumMap(m) == m[j] + SumMap(m - {j});
    if j != k {
      SumMapRemove(m - {j}, k);
      SumMapRemove(m - {k}, j);
      assert m - {j} - {k} == m - {k} - {j};
    }
  }

  lemma SumMapUpdate<K>(m: map<K, int>, k: K, v: int)
    ensures SumMap(m[k := v]) == SumMap(m) + v - (if k in m then m[k] else 0)
  {
    SumMapRemove(m[k := v], k);
    assert m[k := v] - {k} == m - {k};
    if k in m {
      SumMapRemove(m, k);
    } else {
      assert m - {k} == m;
    }
  }
}
