/** Percentiles over a sliding window of latency samples, with exact fractions. The converter
    and the source round the index up, the sink rounds it down.
 */
module Percentiles {

  const MAX_SAMPLES := 1000

  // ---------------------------------------------------------------- the window

  /** `push_back`, then `pop_front` when there are too many. */
  method Record(window: seq<nat>, sample: nat) returns (r: seq<nat>)
    ensures r == Push(window, sample)
  {
    r := window + [sample];
    if |r| > MAX_SAMPLES { r := r[1..]; }
  }

  function Push(window: seq<nat>, sample: nat): seq<nat> {
    if |window| >= MAX_SAMPLES then window[1..] + [sample] else window + [sample]
  }

  function PushAll(samples: seq<nat>): seq<nat> {
    if samples == [] then [] else Push(PushAll(samples[..|samples| - 1]), samples[|samples| - 1])
  }

  function Last(samples: seq<nat>, n: nat): seq<nat> {
    if |samples| <= n then samples else samples[|samples| - n..]
  }

  /** The window holds exactly the last samples, up to a thousand of them, in order. */
  lemma {:induction false} WindowIsLast(samples: seq<nat>)
    ensures PushAll(samples) == Last(samples, 1000)
  {
    if samples != [] {
      WindowIsLast(samples[..|samples| - 1]);
    }
  }

  // ---------------------------------------------------------------- sorting

  predicate Sorted(s: seq<nat>) {
    forall i, j :: 0 <= i < j < |s| ==> s[i] <= s[j]
  }

  function Insert(x: nat, s: seq<nat>): (r: seq<nat>)
    ensures |r| == |s| + 1
  {
    if s == [] || x <= s[0] then [x] + s else [s[0]] + Insert(x, s[1..])
  }

  /** What `std::sort` leaves: the same samples in order. */
  function Sort(s: seq<nat>): (r: seq<nat>)
    ensures |r| == |s|
  {
    if s == [] then [] else Insert(s[0], Sort(s[1..]))
  }

  function Count(s: seq<nat>, v: nat): nat {
    if s == [] then 0 else (if s[0] <= v then 1 else 0) + Count(s[1..], v)
  }

  lemma {:induction false} InsertKeeps(x: nat, s: seq<nat>, v: nat)
    requires Sorted(s)
    ensures Sorted(Insert(x, s))
    ensures Count(Insert(x, s), v) == Count(s, v) + (if x <= v then 1 else 0)
    ensures forall y :: y in Insert(x, s) <==> y == x || y in s
  {
    if s == [] || x <= s[0] {
      assert ([x] + s)[1..] == s;
    } else {
      InsertKeeps(x, s[1..], v);
      assert ([s[0]] + Insert(x, s[1..]))[1..] == Insert(x, s[1..]);
      assert s == [s[0]] + s[1..];
    }
  }

  lemma {:induction false} SortKeeps(s: seq<nat>, v: nat)
    ensures Sorted(Sort(s)) && Count(Sort(s), v) == Count(s, v)
    ensures forall y :: y in Sort(s) <==> y in s
  {
    if s != [] {
      SortKeeps(s[1..], v);
      InsertKeeps(s[0], Sort(s[1..]), v);
      assert s == [s[0]] + s[1..];
    }
  }

  /** In sorted order at least `i + 1` samples are no larger than sample `i`. */
  lemma {:induction false} RankBelow(s: seq<nat>, i: nat, v: nat)
    requires i < |s| && Sorted(s) && s[i] <= v
    ensures Count(s, v) >= i + 1
  {
    if i > 0 {
      assert s[0] <= s[i];
      RankBelow(s[1..], i - 1, v);
    }
  }

  /** How many samples are smaller than `v`. */
  function Below(s: seq<nat>, v: nat): nat {
    if v == 0 then 0 else Count(s, v - 1)
  }

  /** In sorted order at most `i` samples are smaller than sample `i`. */
  lemma {:induction false} RankAbove(s: seq<nat>, i: nat, v: nat)
    requires i < |s| && Sorted(s) && v < s[i]
    ensures Count(s, v) <= i
  {
    if i == 0 {
      NoneSmaller(s, v);
    } else {
      RankAbove(s[1..], i - 1, v);
    }
  }

  lemma {:induction false} NoneSmaller(s: seq<nat>, v: nat)
    requires forall i :: 0 <= i < |s| ==> v < s[i]
    ensures Count(s, v) == 0
  {
    if s != [] { NoneSmaller(s[1..], v); }
  }

  // ---------------------------------------------------------------- the index

  /** A fraction in [0, 1]. */
  datatype Fraction = Fraction(num: nat, den: nat)

  predicate Proper(p: Fraction) {
    p.den > 0 && p.num <= p.den
  }

  /** `ceil(p * (n - 1))`. */
  function CeilIndex(n: nat, p: Fraction): (i: nat)
    requires n > 0 && Proper(p)
    ensures i < n && i * p.den >= p.num * (n - 1) && (i > 0 ==> (i - 1) * p.den < p.num * (n - 1))
  {
    MulMono(p.num, p.den, n - 1);
    CeilDiv(p.num * (n - 1), p.den, n - 1)
  }

  /** The truncated `p * (n - 1)`. */
  function FloorIndex(n: nat, p: Fraction): (i: nat)
    requires n > 0 && Proper(p)
    ensures i < n && i * p.den <= p.num * (n - 1) < (i + 1) * p.den
  {
    MulMono(p.num, p.den, n - 1);
    FloorDiv(p.num * (n - 1), p.den, n - 1)
  }

  /** The quotient rounded up, known to be at most `m`. */
  function CeilDiv(x: nat, d: nat, m: nat): (i: nat)
    requires d > 0 && x <= d * m
    ensures i <= m && i * d >= x && (i > 0 ==> (i - 1) * d < x)
  {
    CeilFacts(x, d, m);
    (x + d - 1) / d
  }

  function FloorDiv(x: nat, d: nat, m: nat): (i: nat)
    requires d > 0 && x <= d * m
    ensures i <= m && i * d <= x < (i + 1) * d
  {
    FloorFacts(x, d, m);
    x / d
  }

  lemma CeilFacts(x: nat, d: nat, m: nat)
    requires d > 0 && x <= d * m
    ensures var i := (x + d - 1) / d;
            0 <= i <= m && i * d >= x && (i > 0 ==> (i - 1) * d < x)
  {
    var i := (x + d - 1) / d;
    Divided(x + d - 1, d);
    assert (i + 1) * d == i * d + d && (m + 1) * d == d * m + d;
    if i > m { MulMono(m + 1, i, d); }
    assert (i - 1) * d == i * d - d;
  }

  lemma FloorFacts(x: nat, d: nat, m: nat)
    requires d > 0 && x <= d * m
    ensures 0 <= x / d <= m && (x / d) * d <= x < (x / d + 1) * d
  {
    Divided(x, d);
    assert (m + 1) * d == d * m + d;
    if x / d > m { MulMono(m + 1, x / d, d); }
  }

  lemma MulMono(a: nat, b: nat, m: nat)
    requires a <= b
    ensures a * m <= b * m
  {
  }

  lemma Divided(x: nat, d: nat)
    requires d > 0
    ensures (x / d) * d <= x < (x / d + 1) * d
  {
    assert x == (x / d) * d + x % d;
    assert (x / d + 1) * d == (x / d) * d + d;
  }

  function CeilPercentile(samples: seq<nat>, p: Fraction): nat
    requires Proper(p)
  {
    if samples == [] then 0 else Sort(samples)[CeilIndex(|samples|, p)]
  }

  function FloorPercentile(samples: seq<nat>, p: Fraction): nat
    requires Proper(p)
  {
    if samples == [] then 0 else Sort(samples)[FloorIndex(|samples|, p)]
  }

  // ---------------------------------------------------------------- what they mean

  /** The value rounded up is a sample, and at least the fraction `p` of all samples is no
      larger. */
  lemma CeilCovers(samples: seq<nat>, p: Fraction)
    requires samples != [] && Proper(p)
    ensures var v := CeilPercentile(samples, p);
            v in samples && Count(samples, v) * p.den >= p.num * |samples|
  {
    hide CeilIndex, Sort, Count, Sorted;
    var n, i := |samples|, CeilIndex(|samples|, p);
    var v := Sort(samples)[i];
    SortKeeps(samples, v);
    RankBelow(Sort(samples), i, v);
    Covers(i, n, p, Count(samples, v));
  }

  /** And it is the least such value up to one sample: fewer than `p * (n - 1) + 1` samples are
      smaller. Rounded down, at most `p * (n - 1)` are. */
  lemma NotTooHigh(samples: seq<nat>, p: Fraction)
    requires samples != [] && Proper(p)
    ensures FloorPercentile(samples, p) in samples
    ensures Below(samples, CeilPercentile(samples, p)) > 0 ==>
              (Below(samples, CeilPercentile(samples, p)) - 1) * p.den < p.num * (|samples| - 1)
    ensures Below(samples, FloorPercentile(samples, p)) * p.den <= p.num * (|samples| - 1)
  {
    hide CeilIndex, FloorIndex, Sort, Count, Sorted;
    var c, f := CeilIndex(|samples|, p), FloorIndex(|samples|, p);
    SmallerThan(samples, c);
    SmallerThan(samples, f);
    MulMono(Below(samples, Sort(samples)[f]), f, p.den);
    if Below(samples, Sort(samples)[c]) > 0 { MulMono(Below(samples, Sort(samples)[c]) - 1, c - 1, p.den); }
  }

  lemma SmallerThan(samples: seq<nat>, i: nat)
    requires i < |samples|
    ensures Below(samples, Sort(samples)[i]) <= i && Sort(samples)[i] in samples
  {
    hide Sort, Count, Sorted;
    var v := Sort(samples)[i];
    if v > 0 {
      SortKeeps(samples, v - 1);
      RankAbove(Sort(samples), i, v - 1);
    } else {
      SortKeeps(samples, 0);
    }
  }

  lemma Covers(i: nat, n: nat, p: Fraction, count: nat)
    requires n > 0 && Proper(p) && i * p.den >= p.num * (n - 1) && count >= i + 1
    ensures count * p.den >= p.num * n
  {
    MulMono(i + 1, count, p.den);
    assert (i + 1) * p.den == i * p.den + p.den;
    assert p.num * (n - 1) == p.num * n - p.num;
  }

  /** A larger fraction never gives a smaller value. */
  lemma CeilMonotone(samples: seq<nat>, p: Fraction, q: Fraction)
    requires Proper(p) && Proper(q) && p.num * q.den <= q.num * p.den
    ensures CeilPercentile(samples, p) <= CeilPercentile(samples, q)
  {
    if samples != [] {
      IndexMonotone(|samples|, p, q);
      SortKeeps(samples, 0);
    }
  }

  lemma IndexMonotone(n: nat, p: Fraction, q: Fraction)
    requires n > 0 && Proper(p) && Proper(q) && p.num * q.den <= q.num * p.den
    ensures CeilIndex(n, p) <= CeilIndex(n, q)
  {
    hide CeilIndex;
    var i, j, m := CeilIndex(n, p), CeilIndex(n, q), n - 1;
    if i > j {
      MulMono(j, i - 1, p.den);
      Cross(j * p.den, p.num * m, q.den);
      MulMono(p.num * q.den, q.num * p.den, m);
      MulMono(q.num * m, j * q.den, p.den);
      Commute(j, p.den, q.den);
      Commute(p.num, m, q.den);
      Commute(q.num, m, p.den);
      assert false;
    }
  }

  lemma Cross(a: nat, b: nat, c: nat)
    requires a < b && c > 0
    ensures a * c < b * c
  {
  }

  lemma Commute(a: nat, b: nat, c: nat)
    ensures (a * b) * c == (a * c) * b
  {
  }

  /** Rounding down never exceeds rounding up, and they pick neighbouring samples at most. */
  lemma FloorBelowCeil(samples: seq<nat>, p: Fraction)
    requires Proper(p)
    ensures FloorPercentile(samples, p) <= CeilPercentile(samples, p)
    ensures samples != [] ==> FloorIndex(|samples|, p) <= CeilIndex(|samples|, p) <= FloorIndex(|samples|, p) + 1
  {
    hide CeilIndex, FloorIndex;
    if samples != [] {
      var f, c, d := FloorIndex(|samples|, p), CeilIndex(|samples|, p), p.den;
      assert (c + 1) * d == c * d + d;
      if f > c {
        MulMono(c + 1, f, d);
        assert false;
      }
      if c > f + 1 {
        MulMono(f + 1, c - 1, d);
        assert false;
      }
      SortKeeps(samples, 0);
    }
  }

  /** The value rounded down may cover less than it says: of two samples, the 99th percentile
      is the smaller. */
  lemma FloorUndershoots()
    ensures var (samples, p) := ([1, 2], Fraction(99, 100));
            Count(samples, FloorPercentile(samples, p)) * p.den < p.num * |samples|
  {
    var p := Fraction(99, 100);
    assert Sort([1, 2]) == [1, 2] by {
      assert [1, 2][1..] == [2] && [2][1..] == [];
      assert Sort([2]) == [2];
    }
    assert FloorIndex(2, p) == 0;
    assert Count([1, 2], 1) == 1 by { assert [1, 2][1..] == [2] && [2][1..] == []; assert Count([2], 1) == 0; }
  }

  /** Exactly when it covers: for lists of `n` samples the value rounded down always has the
      fraction `p` of them no larger than it if and only if rounding down loses nothing that
      counts, which `n` and `p` alone decide. */
  lemma FloorCoversIff(n: nat, p: Fraction)
    requires n > 0 && Proper(p)
    ensures (forall samples: seq<nat> :: |samples| == n ==> FloorCovers(samples, p)) <==>
            (FloorIndex(n, p) + 1) * p.den >= p.num * n
  {
    hide FloorCovers, FloorIndex;
    if (FloorIndex(n, p) + 1) * p.den >= p.num * n {
      forall samples: seq<nat> | |samples| == n ensures FloorCovers(samples, p) {
        FloorCoversHere(samples, p);
      }
    } else {
      DistinctUncovered(n, p);
      assert !FloorCovers(UpTo(0, n), p);
    }
  }

  predicate FloorCovers(samples: seq<nat>, p: Fraction)
    requires Proper(p)
  {
    Count(samples, FloorPercentile(samples, p)) * p.den >= p.num * |samples|
  }

  lemma FloorCoversHere(samples: seq<nat>, p: Fraction)
    requires samples != [] && Proper(p)
    requires (FloorIndex(|samples|, p) + 1) * p.den >= p.num * |samples|
    ensures FloorCovers(samples, p)
  {
    hide FloorIndex, Sort, Count, Sorted;
    var i := FloorIndex(|samples|, p);
    var v := Sort(samples)[i];
    SortKeeps(samples, v);
    RankBelow(Sort(samples), i, v);
    MulMono(i + 1, Count(samples, v), p.den);
  }

  /** The `n` samples from `low` on, all distinct. */
  function UpTo(low: nat, n: nat): (s: seq<nat>)
    ensures |s| == n
    decreases n
  {
    if n == 0 then [] else [low] + UpTo(low + 1, n - 1)
  }

  lemma {:induction false} UpToSorted(low: nat, n: nat)
    ensures Sort(UpTo(low, n)) == UpTo(low, n)
    ensures n > 0 ==> UpTo(low, n)[0] == low
    decreases n
  {
    if n > 0 {
      UpToSorted(low + 1, n - 1);
      assert UpTo(low, n)[1..] == UpTo(low + 1, n - 1);
    }
  }

  lemma {:induction false} UpToRank(low: nat, n: nat, v: nat)
    requires v < low + n
    ensures Count(UpTo(low, n), v) == if v < low then 0 else v - low + 1
    ensures v >= low ==> UpTo(low, n)[v - low] == v
    decreases n
  {
    if n == 1 {
      assert UpTo(low, 1) == [low] && [low][1..] == [] && Count([], v) == 0;
    } else if n > 0 {
      assert UpTo(low, n)[1..] == UpTo(low + 1, n - 1);
      UpToRank(low + 1, n - 1, v);
    }
  }

  lemma DistinctUncovered(n: nat, p: Fraction)
    requires n > 0 && Proper(p) && (FloorIndex(n, p) + 1) * p.den < p.num * n
    ensures !FloorCovers(UpTo(0, n), p)
  {
    hide FloorIndex, UpTo, Sort, Count;
    UpToSorted(0, n);
    UpToRank(0, n, FloorIndex(n, p));
  }

  /** The sink's 99th percentile covers once its window of a thousand samples is full, and does
      not for two samples. */
  lemma FullWindowCovers(samples: seq<nat>)
    requires |samples| == 1000
    ensures FloorCovers(samples, Fraction(99, 100)) && FloorCovers(samples, Fraction(95, 100))
  {
    FloorCoversHere(samples, Fraction(99, 100));
    FloorCoversHere(samples, Fraction(95, 100));
  }
}
