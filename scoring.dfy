/** What every category checker produces, tier tables, and Python's
    rounding.  Points are kept in TENTHS of a point, so the source's
    awards 1.5, 0.5, 0.3 and 0.2 are the integers 15, 5, 3 and 2. */
module Scoring {

  datatype Option<T> = None | Some(value: T)

  /** The four finding types. */
  datatype Kind = Pass | Warning | Fail | Info

  /** One observation of a sub-check: its type, a fixed tag naming the
      message it carries, and the numbers and strings that message cites. */
  datatype Finding = Finding(kind: Kind, tag: string, counts: seq<int>, items: seq<string>)

  /** A finding whose message cites nothing. */
  function Note(kind: Kind, tag: string): Finding {
    Finding(kind, tag, [], [])
  }

  /** The `(score, max_score, findings)` triple a checker returns, both
      scores in tenths. */
  datatype CheckResult = CheckResult(score: int, maxScore: int, findings: seq<Finding>)

  /** One entry of the report's category list: the check's name, its score
      and maximum (tenths), its whole percentage and its findings. */
  datatype Category = Category(name: string, score: int, maxScore: int, percentage: int, findings: seq<Finding>)

  /** Number of findings of one type. */
  function CountKind(fs: seq<Finding>, k: Kind): (n: nat)
    ensures n <= |fs|
  {
    if fs == [] then 0 else CountKind(fs[..|fs| - 1], k) + (if fs[|fs| - 1].kind == k then 1 else 0)
  }

  /** The four type counts add up to the number of findings. */
  lemma {:induction false} CountKindsSum(fs: seq<Finding>)
    ensures CountKind(fs, Pass) + CountKind(fs, Warning) + CountKind(fs, Fail) + CountKind(fs, Info) == |fs|
  {
    if fs != [] { CountKindsSum(fs[..|fs| - 1]); }
  }

  lemma {:induction false} CountKindAppend(a: seq<Finding>, b: seq<Finding>, k: Kind)
    ensures CountKind(a + b, k) == CountKind(a, k) + CountKind(b, k)
    decreases |b|
  {
    if b == [] {
      assert a + b == a;
    } else {
      assert (a + b)[..|a + b| - 1] == a + b[..|b| - 1];
      assert (a + b)[|a + b| - 1] == b[|b| - 1];
      CountKindAppend(a, b[..|b| - 1], k);
    }
  }

  /** `min(score, max_score)`; rounding to one decimal leaves a score in tenths unchanged. */
  function Clamp(score: int, maxScore: int): (r: int)
    ensures r <= score && r <= maxScore
    ensures r == score || r == maxScore
  {
    if score < maxScore then score else maxScore
  }

  /** A points award and the finding type that goes with it. */
  datatype Grade = Grade(points: int, kind: Kind)

  /** One row of a tiered award: values of at least `atLeast` earn `grade`. */
  datatype Step<G> = Step(atLeast: int, grade: G)

  /** The `if x >= t1 ... elif x >= t2 ... else` chain of a tier table: the
      grade of the first row whose threshold `x` reaches, else `otherwise`. */
  function Tier<G>(x: int, steps: seq<Step<G>>, otherwise: G): G {
    if steps == [] then otherwise
    else if x >= steps[0].atLeast then steps[0].grade
    else Tier(x, steps[1..], otherwise)
  }

  /** Thresholds strictly falling, awards never rising, and the fallback
      below every row. */
  predicate Descending(steps: seq<Step<Grade>>, otherwise: Grade) {
    (forall i, j :: 0 <= i < j < |steps| ==> steps[i].atLeast > steps[j].atLeast && steps[i].grade.points >= steps[j].grade.points)
    && (forall i :: 0 <= i < |steps| ==> steps[i].grade.points >= otherwise.points)
  }

  /** In a descending table the award is at most the top row's and at least the fallback. */
  lemma {:induction false} TierBounds(x: int, steps: seq<Step<Grade>>, otherwise: Grade)
    requires Descending(steps, otherwise)
    ensures otherwise.points <= Tier(x, steps, otherwise).points
    ensures steps != [] ==> Tier(x, steps, otherwise).points <= steps[0].grade.points
  {
    if steps != [] && x < steps[0].atLeast {
      var rest := steps[1..];
      assert forall i :: 0 <= i < |rest| ==> rest[i] == steps[i + 1];
      TierBounds(x, rest, otherwise);
    }
  }

  /** A descending tier table awards more (or the same) to a larger value. */
  lemma {:induction false} TierMonotone(x: int, y: int, steps: seq<Step<Grade>>, otherwise: Grade)
    requires Descending(steps, otherwise)
    requires x <= y
    ensures Tier(x, steps, otherwise).points <= Tier(y, steps, otherwise).points
  {
    if steps != [] {
      var rest := steps[1..];
      assert forall i :: 0 <= i < |rest| ==> rest[i] == steps[i + 1];
      if y < steps[0].atLeast {
        TierMonotone(x, y, rest, otherwise);
      } else if x < steps[0].atLeast {
        TierBounds(x, rest, otherwise);
        if rest != [] { assert rest[0].grade.points <= steps[0].grade.points; }
      }
    }
  }

  /** The award is one of the table's grades or the fallback. */
  lemma {:induction false} TierIsRow<G>(x: int, steps: seq<Step<G>>, otherwise: G)
    ensures Tier(x, steps, otherwise) == otherwise
      || exists i :: 0 <= i < |steps| && Tier(x, steps, otherwise) == steps[i].grade
  {
    if steps != [] && x < steps[0].atLeast {
      var rest := steps[1..];
      TierIsRow(x, rest, otherwise);
      if Tier(x, rest, otherwise) != otherwise {
        var i :| 0 <= i < |rest| && Tier(x, rest, otherwise) == rest[i].grade;
        assert rest[i] == steps[i + 1];
      }
    }
  }

  /** The first five rows of a table, spelled out (the verifier unfolds
      `Tier` only a step at a time). */
  lemma Unroll<G>(x: int, steps: seq<Step<G>>, o: G)
    ensures Tier(x, steps, o) ==
      if |steps| > 0 && x >= steps[0].atLeast then steps[0].grade
      else if |steps| > 1 && x >= steps[1].atLeast then steps[1].grade
      else if |steps| > 2 && x >= steps[2].atLeast then steps[2].grade
      else if |steps| > 3 && x >= steps[3].atLeast then steps[3].grade
      else if |steps| > 4 && x >= steps[4].atLeast then steps[4].grade
      else if |steps| > 5 then Tier(x, steps[5..], o)
      else o
  {
    if |steps| > 0 && x < steps[0].atLeast {
      var s1 := steps[1..];
      assert Tier(x, steps, o) == Tier(x, s1, o);
      if |s1| > 0 && x < s1[0].atLeast {
        var s2 := s1[1..];
        assert Tier(x, s1, o) == Tier(x, s2, o) && s2 == steps[2..];
        if |s2| > 0 && x < s2[0].atLeast {
          var s3 := s2[1..];
          assert Tier(x, s2, o) == Tier(x, s3, o) && s3 == steps[3..];
          if |s3| > 0 && x < s3[0].atLeast {
            var s4 := s3[1..];
            assert Tier(x, s3, o) == Tier(x, s4, o) && s4 == steps[4..];
            if |s4| > 0 && x < s4[0].atLeast {
              assert Tier(x, s4, o) == Tier(x, s4[1..], o) && s4[1..] == steps[5..];
            }
          }
        }
      }
    }
  }

  /** Python's `round(n / d)` on exact rationals: the nearest integer, ties
      to the even one. */
  function RoundHalfEven(n: int, d: int): (r: int)
    requires d > 0
    ensures 2 * (n - d * r) <= d && 2 * (d * r - n) <= d
    ensures (2 * (n - d * r) == d || 2 * (d * r - n) == d) ==> r % 2 == 0
  {
    var q := n / d;
    var m := n % d;
    assert n == d * q + m;
    if 2 * m < d then q
    else if 2 * m > d then q + 1
    else if q % 2 == 0 then q
    else q + 1
  }

  /** The two properties of `RoundHalfEven` determine its value. */
  lemma RoundHalfEvenUnique(n: int, d: int, r: int)
    requires d > 0
    requires 2 * (n - d * r) <= d && 2 * (d * r - n) <= d
    requires (2 * (n - d * r) == d || 2 * (d * r - n) == d) ==> r % 2 == 0
    ensures r == RoundHalfEven(n, d)
  {
    var q := RoundHalfEven(n, d);
    var k := r - q;
    var a, b, dk := n - d * q, n - d * r, d * k;
    assert b == a - dk;
    MulUnit(d, k);
    assert k == 1 ==> dk == d;
    assert k == -1 ==> dk == -d;
  }

  /** Only -1, 0 and 1 have a multiple of `d` between `-d` and `d`. */
  lemma MulUnit(d: int, k: int)
    requires d > 0 && -d <= d * k <= d
    ensures -1 <= k <= 1
  {
    if k >= 2 {
      MulMonotone(d, 2, k);
      assert false;
    } else if k <= -2 {
      MulMonotone(d, k, -2);
      assert false;
    }
  }

  lemma MulMonotone(d: int, a: int, b: int)
    requires d > 0 && a <= b
    ensures d * a <= d * b
  {
  }

  /** Rounding is monotone in the numerator. */
  lemma RoundHalfEvenMonotone(n1: int, n2: int, d: int)
    requires d > 0 && n1 <= n2
    ensures RoundHalfEven(n1, d) <= RoundHalfEven(n2, d)
  {
    var r1, r2 := RoundHalfEven(n1, d), RoundHalfEven(n2, d);
    if r1 > r2 {
      assert d * r2 <= d * r1 - d by { MulMonotone(d, r2, r1 - 1); }
    }
  }

  /** Multiples of the denominator round to themselves. */
  lemma RoundHalfEvenExact(k: int, d: int)
    requires d > 0
    ensures RoundHalfEven(k * d, d) == k
  {
    RoundHalfEvenUnique(k * d, d, k);
  }

  /** `round((s / m) * 100) if m else 0` for scores in the same unit: the
      whole percentage nearest to `100 * s / m`. */
  function Percent(score: int, maxScore: int): (p: int)
    ensures maxScore == 0 ==> p == 0
    ensures maxScore > 0 ==> 2 * (100 * score - maxScore * p) <= maxScore && 2 * (maxScore * p - 100 * score) <= maxScore
    ensures maxScore < 0 ==> 2 * (maxScore * p - 100 * score) <= -maxScore && 2 * (100 * score - maxScore * p) <= -maxScore
  {
    if maxScore == 0 then 0
    else if maxScore > 0 then RoundHalfEven(100 * score, maxScore)
    else RoundHalfEven(-100 * score, -maxScore)
  }

  /** A score between 0 and its maximum has a percentage between 0 and 100. */
  lemma PercentInRange(score: int, maxScore: int)
    requires 0 <= score <= maxScore
    ensures 0 <= Percent(score, maxScore) <= 100
  {
    if maxScore > 0 {
      RoundHalfEvenExact(0, maxScore);
      RoundHalfEvenExact(100, maxScore);
      RoundHalfEvenMonotone(0, 100 * score, maxScore);
      RoundHalfEvenMonotone(100 * score, 100 * maxScore, maxScore);
    }
  }

  /** `max(n, 1)`, the denominator of a ratio. */
  function AtLeastOne(n: nat): (d: nat)
    ensures d >= 1 && d >= n
  {
    if n >= 1 then n else 1
  }

  /** A quotient exceeds `c` exactly when the dividend exceeds `c` times
      the (positive) divisor. */
  lemma QuotientAbove(x: real, d: real, c: real)
    requires d > 0.0
    ensures x / d > c <==> x > c * d
  {
    var q := x / d;
    assert q * d == x;
    if q > c {
      assert (q - c) * d > 0.0;
    } else {
      assert (c - q) * d >= 0.0;
    }
  }
}
