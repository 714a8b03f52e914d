/**
 * The Grey Wolf Optimizer of gwo_viz: a pack of 2D points is sampled inside a
 * box, ranked by distance to a target, and pulled for a number of rounds
 * towards its three best members (alpha, beta, delta), one ranked snapshot of
 * the pack being recorded before the first round and after every round.
 *
 * The random generator is an injected oracle of unit draws, `rng(k)` being
 * the k-th value the generator hands out. A run consumes 2 draws per wolf
 * for the initial pack and then, per round, 12 draws for the leaders'
 * coefficients followed by 4 draws per wolf for the per-wolf coefficients,
 * which are computed and never used.
 */
module Gwo {
  import opened CorexMath

  /** A pack, and a recorded snapshot of it. */
  type Pack = seq<Point>

  /** Fitness of a point: its squared distance to the target (lower is better). */
  function Fitness(p: Point, target: Point): real
  {
    Distance2DSquared(target, p)
  }

  /** Ranked by fitness: non-decreasing distance to the target. */
  ghost predicate SortedByFitness(s: Pack, target: Point)
  {
    SortedBy(s, FitnessKey(target))
  }

  /** `s` is `orig` re-ordered into ranked order (ties in any order). */
  ghost predicate IsRankingOf(s: Pack, orig: Pack, target: Point)
  {
    multiset(s) == multiset(orig) && SortedByFitness(s, target)
  }

  ghost predicate InBox(p: Point, minPt: Point, maxPt: Point)
  {
    minPt.x <= p.x <= maxPt.x && minPt.y <= p.y <= maxPt.y
  }

  ghost predicate UnitDraws(rng: nat -> real)
  {
    forall k :: IsUnitDraw(rng(k))
  }

  /** The number of rounds a call runs: the loop `t < numIterations` runs none for a negative count. */
  function Rounds(numIterations: int): nat
  {
    if numIterations < 0 then 0 else numIterations
  }

  /** The number of wolves sampled: the loop `i < numWolves` samples none for a negative count. */
  function PackSize(numWolves: int): nat
  {
    if numWolves < 0 then 0 else numWolves
  }

  /** Index of the first draw of round t: after the 2n initial draws and t rounds of 12 + 4n draws. */
  function DrawOffset(t: nat, numWolves: nat): nat
  {
    2 * numWolves + t * (12 + 4 * numWolves)
  }

  /** Wolf i of the initial pack: x from draw 2i, y from draw 2i + 1. */
  function SamplePoint(minPt: Point, maxPt: Point, rng: nat -> real, i: nat): Point
  {
    Point(Uniform(minPt.x, maxPt.x, rng(2 * i)), Uniform(minPt.y, maxPt.y, rng(2 * i + 1)))
  }

  /** The pack as sampled, before its first ranking. */
  function InitialPack(numWolves: nat, minPt: Point, maxPt: Point, rng: nat -> real): (pack: Pack)
    ensures |pack| == numWolves
  {
    seq(numWolves, i requires 0 <= i < numWolves => SamplePoint(minPt, maxPt, rng, i))
  }

  /**
   * The convergence coefficient used in round t of N. It starts at 2 and is
   * reassigned at the end of round t to 2 - 2t/N, so round t >= 1 runs with
   * the value written at the end of round t - 1.
   */
  function ScheduleA(t: nat, numIterations: int): real
    requires t == 0 || numIterations > 0
  {
    if t == 0 then 2.0 else 2.0 - 2.0 * ((t - 1) as real / numIterations as real)
  }

  /** The coefficient pair `A`, `C` of one leader. */
  datatype Coefficients = Coefficients(A: Point, C: Point)

  /** Two consecutive draws taken from `getRandomRealUniformly(0, 1)`: draws k and k + 1. */
  function UnitPoint(rng: nat -> real, k: nat): Point
  {
    Point(Uniform(0.0, 1.0, rng(k)), Uniform(0.0, 1.0, rng(k + 1)))
  }

  /** One component of A: `2a·r − a`. */
  function ScaledDraw(a: real, u: real): real
  {
    2.0 * a * u - a
  }

  /** `A = 2a·r1 − a`, componentwise. */
  function CoefficientA(a: real, r1: Point): Point
  {
    Point(ScaledDraw(a, r1.x), ScaledDraw(a, r1.y))
  }

  /** `C = 2·r2`, componentwise. */
  function CoefficientC(r2: Point): Point
  {
    Point(2.0 * r2.x, 2.0 * r2.y)
  }

  /**
   * Coefficients of leader l (0 alpha, 1 beta, 2 delta) in a round whose
   * leader draws start at `off`: r1 from draws off+4l, off+4l+1 and r2 from
   * off+4l+2, off+4l+3.
   */
  function LeaderCoefficients(a: real, rng: nat -> real, off: nat, l: nat): Coefficients
  {
    Coefficients(CoefficientA(a, UnitPoint(rng, off + 4 * l)), CoefficientC(UnitPoint(rng, off + 4 * l + 2)))
  }

  /** With unit draws and a >= 0, A lies in [-a, a] and C in [0, 2] componentwise. */
  lemma CoefficientBounds(a: real, rng: nat -> real, off: nat, l: nat)
    requires a >= 0.0
    requires UnitDraws(rng)
    ensures var c := LeaderCoefficients(a, rng, off, l);
      -a <= c.A.x <= a && -a <= c.A.y <= a && 0.0 <= c.C.x <= 2.0 && 0.0 <= c.C.y <= 2.0
  {
    var k := off + 4 * l;
    var r1, r2 := UnitPoint(rng, k), UnitPoint(rng, k + 2);
    UnitPointIsUnit(rng, k);
    UnitPointIsUnit(rng, k + 2);
    CoefficientARange(a, r1);
    CoefficientCRange(r2);
  }

  /** A point built from two unit draws has unit coordinates. */
  lemma UnitPointIsUnit(rng: nat -> real, k: nat)
    requires UnitDraws(rng)
    ensures IsUnitDraw(UnitPoint(rng, k).x) && IsUnitDraw(UnitPoint(rng, k).y)
  {
    assert IsUnitDraw(rng(k)) && IsUnitDraw(rng(k + 1));
    UniformInRange(0.0, 1.0, rng(k));
    UniformInRange(0.0, 1.0, rng(k + 1));
  }

  lemma CoefficientARange(a: real, r1: Point)
    requires a >= 0.0 && IsUnitDraw(r1.x) && IsUnitDraw(r1.y)
    ensures -a <= CoefficientA(a, r1).x <= a && -a <= CoefficientA(a, r1).y <= a
  {
    ScaledDrawBound(a, r1.x);
    ScaledDrawBound(a, r1.y);
  }

  lemma CoefficientCRange(r2: Point)
    requires IsUnitDraw(r2.x) && IsUnitDraw(r2.y)
    ensures 0.0 <= CoefficientC(r2).x <= 2.0 && 0.0 <= CoefficientC(r2).y <= 2.0
  {
  }

  lemma ScaledDrawBound(a: real, u: real)
    requires a >= 0.0 && IsUnitDraw(u)
    ensures -a <= ScaledDraw(a, u) <= a
  {
    NonNegProduct(a, u);
    NonNegProduct(a, 1.0 - u);
  }

  /** `X_l = leader - A ⊙ |C ⊙ leader - w|`: the pull of one leader on the wolf at w. */
  function Pull(leader: Point, c: Coefficients, w: Point): Point
  {
    Sub(leader, PairwiseMult(c.A, Vec2Abs(Sub(PairwiseMult(c.C, leader), w))))
  }

  /** New position of the wolf at w: the mean of the three leaders' pulls. */
  function Move(w: Point, alpha: Point, beta: Point, delta: Point, ca: Coefficients, cb: Coefficients, cd: Coefficients): Point
  {
    DivScalar(Add(Add(Pull(alpha, ca, w), Pull(beta, cb, w)), Pull(delta, cd, w)), 3.0)
  }

  /**
   * The pack after the moves of one round, before re-ranking. Every wolf,
   * leaders included, moves; the leaders' positions are those at the start
   * of the round, so moving pack[0..2] does not change the pull on later wolves.
   */
  function MovedPack(pack: Pack, a: real, rng: nat -> real, off: nat): (moved: Pack)
    requires |pack| >= 3
    ensures |moved| == |pack|
  {
    var ca, cb, cd := LeaderCoefficients(a, rng, off, 0), LeaderCoefficients(a, rng, off, 1), LeaderCoefficients(a, rng, off, 2);
    seq(|pack|, j requires 0 <= j < |pack| => Move(pack[j], pack[0], pack[1], pack[2], ca, cb, cd))
  }

  /** Snapshot t + 1 is snapshot t, moved with round t's coefficients and re-ranked. */
  ghost predicate IsRound(prev: Pack, next: Pack, t: nat, numIterations: int, target: Point, rng: nat -> real)
    requires t < Rounds(numIterations)
  {
    |prev| >= 3 &&
    IsRankingOf(next, MovedPack(prev, ScheduleA(t, numIterations), rng, DrawOffset(t, |prev|)), target)
  }

  /**
   * `history` is what a run of `optimize` returns: the ranked initial pack
   * and one ranked snapshot per round, each obtained from the one before.
   */
  ghost predicate IsRun(history: seq<Pack>, numIterations: int, numWolves: nat, target: Point,
                        minPt: Point, maxPt: Point, rng: nat -> real)
  {
    |history| == Rounds(numIterations) + 1 &&
    IsRunPrefix(history, numIterations, numWolves, target, minPt, maxPt, rng)
  }

  /** The first |history| snapshots of a run. */
  ghost predicate IsRunPrefix(history: seq<Pack>, numIterations: int, numWolves: nat, target: Point,
                              minPt: Point, maxPt: Point, rng: nat -> real)
  {
    1 <= |history| <= Rounds(numIterations) + 1 &&
    IsRankingOf(history[0], InitialPack(numWolves, minPt, maxPt, rng), target) &&
    forall t :: 0 <= t < |history| - 1 ==> IsRound(history[t], history[t + 1], t, numIterations, target, rng)
  }

  /** The ranked initial pack on its own is a prefix of the run. */
  lemma StartRunPrefix(first: Pack, numIterations: int, numWolves: nat, target: Point,
                       minPt: Point, maxPt: Point, rng: nat -> real)
    requires IsRankingOf(first, InitialPack(numWolves, minPt, maxPt, rng), target)
    ensures IsRunPrefix([first], numIterations, numWolves, target, minPt, maxPt, rng)
  {
  }

  /** A prefix followed by one more round is a longer prefix. */
  lemma ExtendRunPrefix(history: seq<Pack>, next: Pack, numIterations: int, numWolves: nat, target: Point,
                        minPt: Point, maxPt: Point, rng: nat -> real)
    requires IsRunPrefix(history, numIterations, numWolves, target, minPt, maxPt, rng)
    requires |history| <= Rounds(numIterations)
    requires IsRound(history[|history| - 1], next, |history| - 1, numIterations, target, rng)
    ensures IsRunPrefix(history + [next], numIterations, numWolves, target, minPt, maxPt, rng)
  {
    var h := history + [next];
    forall t | 0 <= t < |h| - 1
      ensures IsRound(h[t], h[t + 1], t, numIterations, target, rng)
    {
      if t < |history| - 1 {
        assert h[t] == history[t] && h[t + 1] == history[t + 1];
      } else {
        assert h[t] == history[|history| - 1] && h[t + 1] == next;
      }
    }
  }

  /** Every snapshot of a run has numWolves points and is ranked. */
  lemma {:induction false} RunShape(history: seq<Pack>, numIterations: int, numWolves: nat, target: Point,
                                    minPt: Point, maxPt: Point, rng: nat -> real)
    requires IsRun(history, numIterations, numWolves, target, minPt, maxPt, rng)
    ensures forall t :: 0 <= t < |history| ==> |history[t]| == numWolves && SortedByFitness(history[t], target)
  {
    var t := 0;
    while t < |history|
      invariant 0 <= t <= |history|
      invariant forall s :: 0 <= s < t ==> |history[s]| == numWolves && SortedByFitness(history[s], target)
    {
      if t == 0 {
        assert |multiset(history[0])| == |multiset(InitialPack(numWolves, minPt, maxPt, rng))|;
      } else {
        assert IsRound(history[t - 1], history[t], t - 1, numIterations, target, rng);
        var moved := MovedPack(history[t - 1], ScheduleA(t - 1, numIterations), rng, DrawOffset(t - 1, |history[t - 1]|));
        assert |multiset(history[t])| == |multiset(moved)|;
      }
      t := t + 1;
    }
  }

  /** Ranking only re-orders, so a box containing every point of the original contains every point of the ranking. */
  lemma RankingKeepsBox(s: Pack, orig: Pack, target: Point, minPt: Point, maxPt: Point)
    requires IsRankingOf(s, orig, target)
    requires forall i :: 0 <= i < |orig| ==> InBox(orig[i], minPt, maxPt)
    ensures forall i :: 0 <= i < |s| ==> InBox(s[i], minPt, maxPt)
  {
    forall i | 0 <= i < |s|
      ensures InBox(s[i], minPt, maxPt)
    {
      assert s[i] in multiset(s);
      assert s[i] in multiset(orig);
      var k :| 0 <= k < |orig| && orig[k] == s[i];
    }
  }

  /** With unit draws, every point of the first snapshot lies in the sampling box. */
  lemma FirstSnapshotInBox(history: seq<Pack>, numIterations: int, numWolves: nat, target: Point,
                           minPt: Point, maxPt: Point, rng: nat -> real)
    requires minPt.x <= maxPt.x && minPt.y <= maxPt.y
    requires UnitDraws(rng)
    requires IsRun(history, numIterations, numWolves, target, minPt, maxPt, rng)
    ensures forall i :: 0 <= i < |history[0]| ==> InBox(history[0][i], minPt, maxPt)
  {
    var init := InitialPack(numWolves, minPt, maxPt, rng);
    forall i | 0 <= i < |init|
      ensures InBox(init[i], minPt, maxPt)
    {
      assert IsUnitDraw(rng(2 * i)) && IsUnitDraw(rng(2 * i + 1));
      UniformInRange(minPt.x, maxPt.x, rng(2 * i));
      UniformInRange(minPt.y, maxPt.y, rng(2 * i + 1));
    }
    RankingKeepsBox(history[0], init, target, minPt, maxPt);
  }

  /** The schedule as executed: within (0, 2], non-increasing, and 2 in both of the first two rounds. */
  lemma ScheduleBounds(s: nat, t: nat, numIterations: int)
    requires s <= t < numIterations
    ensures 0.0 < ScheduleA(t, numIterations) <= 2.0
    ensures ScheduleA(t, numIterations) <= ScheduleA(s, numIterations)
    ensures t == 1 ==> ScheduleA(t, numIterations) == 2.0
  {
    var n := numIterations as real;
    if t > 0 {
      assert 0.0 <= (t - 1) as real / n < 1.0 by { QuotientBelowOne(t - 1, numIterations); }
      if s > 0 {
        assert (s - 1) as real / n <= (t - 1) as real / n by { QuotientMonotone(s - 1, t - 1, numIterations); }
      }
    }
  }

  lemma QuotientBelowOne(k: nat, n: int)
    requires k < n
    ensures 0.0 <= k as real / n as real < 1.0
  {
    var q := k as real / n as real;
    assert q * n as real == k as real;
  }

  lemma QuotientMonotone(j: nat, k: nat, n: int)
    requires j <= k && n > 0
    ensures j as real / n as real <= k as real / n as real
  {
    var d := k as real / n as real - j as real / n as real;
    assert d * n as real == (k - j) as real;
  }

  /** Non-decreasing by `key`: the whole sequence is a sorted prefix. */
  ghost predicate SortedBy(s: Pack, key: Point -> real)
  {
    SortedPrefix(s, |s|, key)
  }

  /** The sort key of `optimize`'s comparator. */
  function FitnessKey(target: Point): Point -> real
  {
    p => Fitness(p, target)
  }

  /** The index of a least element of s[from..] by `key`. */
  method MinIndexFrom(s: array<Point>, from: nat, key: Point -> real) returns (m: nat)
    requires from < s.Length
    ensures from <= m < s.Length
    ensures forall k :: from <= k < s.Length ==> key(s[m]) <= key(s[k])
  {
    m := from;
    var k := from + 1;
    while k < s.Length
      invariant from <= m < k <= s.Length
      invariant forall i :: from <= i < k ==> key(s[m]) <= key(s[i])
    {
      if key(s[k]) < key(s[m]) {
        m := k;
      }
      k := k + 1;
    }
  }

  method Swap(s: array<Point>, i: nat, j: nat)
    requires i < s.Length && j < s.Length
    modifies s
    ensures s[..] == old(s[..])[i := old(s[j])][j := old(s[i])]
    ensures multiset(s[..]) == old(multiset(s[..]))
  {
    s[i], s[j] := s[j], s[i];
  }

  /** s[..i] is non-decreasing by key. */
  ghost predicate SortedPrefix(s: Pack, i: nat, key: Point -> real)
    requires i <= |s|
  {
    forall p, q :: 0 <= p < q < i ==> key(s[p]) <= key(s[q])
  }

  /** No element of s[..i] has a larger key than an element of s[i..]. */
  ghost predicate PartitionedAt(s: Pack, i: nat, key: Point -> real)
    requires i <= |s|
  {
    forall p, q :: 0 <= p < i <= q < |s| ==> key(s[p]) <= key(s[q])
  }

  /** One selection step: swapping a least element of s[i..] into place i extends the sorted prefix by one. */
  lemma SelectionStep(before: Pack, after: Pack, i: nat, m: nat, key: Point -> real)
    requires i <= m < |before|
    requires after == before[i := before[m]][m := before[i]]
    requires SortedPrefix(before, i, key) && PartitionedAt(before, i, key)
    requires forall k :: i <= k < |before| ==> key(before[m]) <= key(before[k])
    ensures SortedPrefix(after, i + 1, key) && PartitionedAt(after, i + 1, key)
  {
    forall p, q | 0 <= p < q < i + 1
      ensures key(after[p]) <= key(after[q])
    {
      if q == i {
        assert after[q] == before[m];
        assert after[p] == before[p];
      }
    }
    forall p, q | 0 <= p < i + 1 <= q < |after|
      ensures key(after[p]) <= key(after[q])
    {
      assert after[q] == before[q] || (q == m && after[q] == before[i]);
      if p == i {
        assert after[p] == before[m];
      } else {
        assert after[p] == before[p];
      }
    }
  }

  /**
   * `std::sort` with a `key(a) < key(b)` comparator: afterwards the array is
   * a permutation of its old contents, non-decreasing by key. Which of two
   * equal-key points comes first is left open, as `std::sort` is not stable.
   */
  method SortByKey(s: array<Point>, key: Point -> real)
    modifies s
    ensures multiset(s[..]) == old(multiset(s[..]))
    ensures SortedBy(s[..], key)
  {
    var i := 0;
    while i < s.Length
      invariant 0 <= i <= s.Length
      invariant SortedPrefix(s[..], i, key) && PartitionedAt(s[..], i, key)
      invariant multiset(s[..]) == old(multiset(s[..]))
    {
      ghost var before := s[..];
      var m := MinIndexFrom(s, i, key);
      Swap(s, i, m);
      SelectionStep(before, s[..], i, m, key);
      i := i + 1;
    }
    assert SortedPrefix(s[..], s.Length, key);
  }

  /** The ranking step of `optimize`: sort the pack ascending by distance to the target. */
  method RankPack(pack: array<Point>, target: Point)
    modifies pack
    ensures IsRankingOf(pack[..], old(pack[..]), target)
  {
    SortByKey(pack, FitnessKey(target));
  }

  /** The initial sampling loop: wolf i takes draws 2i (x) and 2i + 1 (y). */
  method SamplePack(numWolves: nat, minPt: Point, maxPt: Point, rng: nat -> real) returns (pack: array<Point>)
    ensures fresh(pack)
    ensures pack[..] == InitialPack(numWolves, minPt, maxPt, rng)
  {
    pack := new Point[numWolves];
    var cursor := 0;
    for i := 0 to numWolves
      invariant cursor == 2 * i
      invariant forall k :: 0 <= k < i ==> pack[k] == SamplePoint(minPt, maxPt, rng, k)
    {
      var x := Uniform(minPt.x, maxPt.x, rng(cursor));
      var y := Uniform(minPt.y, maxPt.y, rng(cursor + 1));
      pack[i] := Point(x, y);
      cursor := cursor + 2;
    }
  }

  /** The leader-coefficient loop of one round: 12 draws starting at `start`. */
  method ComputeLeaderCoefficients(a: real, rng: nat -> real, start: nat) returns (al: array<Point>, cl: array<Point>)
    ensures fresh(al) && fresh(cl) && al.Length == 3 && cl.Length == 3
    ensures forall l :: 0 <= l < 3 ==>
              al[l] == LeaderCoefficients(a, rng, start, l).A && cl[l] == LeaderCoefficients(a, rng, start, l).C
  {
    al := new Point[3];
    cl := new Point[3];
    var cursor := start;
    for n := 0 to 3
      invariant cursor == start + 4 * n
      invariant forall l :: 0 <= l < n ==>
                  al[l] == LeaderCoefficients(a, rng, start, l).A && cl[l] == LeaderCoefficients(a, rng, start, l).C
    {
      var r1 := UnitPoint(rng, cursor);
      var r2 := UnitPoint(rng, cursor + 2);
      cursor := cursor + 4;
      al[n] := CoefficientA(a, r1);
      cl[n] := CoefficientC(r2);
    }
  }

  /**
   * The position-update loop of one round: wolf j draws its own (unused)
   * coefficients from draws start + 4j .. start + 4j + 3 and then moves to
   * the mean of the three pulls of the leaders copied at the round's start.
   */
  method MoveWolves(pack: array<Point>, alphaWolf: Point, betaWolf: Point, deltaWolf: Point,
                    ca: Coefficients, cb: Coefficients, cd: Coefficients,
                    a: real, rng: nat -> real, start: nat) returns (cursor: nat)
    modifies pack
    ensures cursor == start + 4 * pack.Length
    ensures pack[..] == seq(pack.Length, k requires 0 <= k < pack.Length =>
                              Move(old(pack[k]), alphaWolf, betaWolf, deltaWolf, ca, cb, cd))
  {
    cursor := start;
    for j := 0 to pack.Length
      invariant cursor == start + 4 * j
      invariant forall k :: 0 <= k < j ==> pack[k] == Move(old(pack[k]), alphaWolf, betaWolf, deltaWolf, ca, cb, cd)
      invariant forall k :: j <= k < pack.Length ==> pack[k] == old(pack[k])
    {
      // The per-wolf coefficients: drawn, and never used.
      var r1w := UnitPoint(rng, cursor);
      var r2w := UnitPoint(rng, cursor + 2);
      cursor := cursor + 4;
      var aw := CoefficientA(a, r1w);
      var cw := CoefficientC(r2w);

      var wolf := pack[j];
      pack[j] := Move(wolf, alphaWolf, betaWolf, deltaWolf, ca, cb, cd);
    }
  }

  /** Round t's draws follow straight on from round t - 1's. */
  lemma DrawOffsetNext(t: nat, numWolves: nat)
    ensures DrawOffset(t + 1, numWolves) == DrawOffset(t, numWolves) + 12 + 4 * numWolves
  {
    assert (t + 1) * (12 + 4 * numWolves) == t * (12 + 4 * numWolves) + (12 + 4 * numWolves);
  }

  /**
   * The body of one round: copy the three leaders, compute their
   * coefficients from the 12 draws at `start`, move every wolf, re-rank.
   */
  method RunRound(pack: array<Point>, a: real, rng: nat -> real, start: nat, target: Point) returns (next: nat)
    requires pack.Length >= 3
    modifies pack
    ensures next == start + 12 + 4 * pack.Length
    ensures IsRankingOf(pack[..], MovedPack(old(pack[..]), a, rng, start), target)
  {
    var alphaWolf, betaWolf, deltaWolf := pack[0], pack[1], pack[2];

    var al, cl := ComputeLeaderCoefficients(a, rng, start);
    var ca, cb, cd := Coefficients(al[0], cl[0]), Coefficients(al[1], cl[1]), Coefficients(al[2], cl[2]);

    next := MoveWolves(pack, alphaWolf, betaWolf, deltaWolf, ca, cb, cd, a, rng, start + 12);
    assert pack[..] == MovedPack(old(pack[..]), a, rng, start);

    RankPack(pack, target);
  }

  /**
   * One pass of the optimizer's loop seen against the run: a pack that is
   * the last snapshot of a run prefix, advanced by RunRound at the round's
   * draw offset and `a`, extends the prefix by one snapshot.
   */
  method AdvanceRun(pack: array<Point>, ghost history: seq<Pack>, a: real, rng: nat -> real, cursor: nat,
                    numIterations: int, numWolves: nat, target: Point, minPt: Point, maxPt: Point)
    returns (next: nat)
    requires pack.Length == numWolves >= 3
    requires IsRunPrefix(history, numIterations, numWolves, target, minPt, maxPt, rng)
    requires |history| <= Rounds(numIterations) && history[|history| - 1] == pack[..]
    requires cursor == DrawOffset(|history| - 1, numWolves) && a == ScheduleA(|history| - 1, numIterations)
    modifies pack
    ensures next == DrawOffset(|history|, numWolves)
    ensures IsRunPrefix(history + [pack[..]], numIterations, numWolves, target, minPt, maxPt, rng)
  {
    ghost var t := |history| - 1;
    ghost var prev := pack[..];
    next := RunRound(pack, a, rng, cursor, target);
    DrawOffsetNext(t, numWolves);
    assert IsRound(prev, pack[..], t, numIterations, target, rng);
    ExtendRunPrefix(history, pack[..], numIterations, numWolves, target, minPt, maxPt, rng);
  }

  /** The optimizer object; it keeps the number of rounds done by the last call of Optimize. */
  class GreyWolfOptimizer {
    var numItersPerformed: int

    constructor ()
      ensures numItersPerformed == 0
    {
      numItersPerformed := 0;
    }

    method GetNumItersPerformed() returns (n: int)
      ensures n == numItersPerformed
    {
      n := numItersPerformed;
    }

    /**
     * `GWO::optimize`. Every round indexes pack[0..2] without a check, so a
     * call that runs a round needs at least three wolves; the sampler needs
     * a non-inverted box. A negative wolf count samples an empty pack.
     */
    method Optimize(numIterations: int, numWolves: int, bestSolution: Point, minPt: Point, maxPt: Point,
                    rng: nat -> real)
      returns (solutions: seq<Pack>)
      requires numIterations > 0 ==> numWolves >= 3
      requires minPt.x <= maxPt.x && minPt.y <= maxPt.y
      modifies this`numItersPerformed
      ensures IsRun(solutions, numIterations, PackSize(numWolves), bestSolution, minPt, maxPt, rng)
      ensures |solutions| == Rounds(numIterations) + 1
      ensures forall t :: 0 <= t < |solutions| ==>
                |solutions[t]| == PackSize(numWolves) && SortedByFitness(solutions[t], bestSolution)
      ensures UnitDraws(rng) ==> forall i :: 0 <= i < PackSize(numWolves) ==> InBox(solutions[0][i], minPt, maxPt)
      ensures numItersPerformed == Rounds(numIterations)
    {
      var n := PackSize(numWolves);
      var pack := SamplePack(n, minPt, maxPt, rng);
      var cursor := 2 * n;

      RankPack(pack, bestSolution);
      solutions := [pack[..]];
      StartRunPrefix(pack[..], numIterations, n, bestSolution, minPt, maxPt, rng);

      numItersPerformed := 0;

      var a := 2.0;
      var t := 0;
      while t < numIterations
        invariant 0 <= t <= Rounds(numIterations)
        invariant pack.Length == n
        invariant |solutions| == t + 1 && solutions[t] == pack[..]
        invariant cursor == DrawOffset(t, n)
        invariant a == ScheduleA(t, numIterations)
        invariant numItersPerformed == t
        invariant IsRunPrefix(solutions, numIterations, n, bestSolution, minPt, maxPt, rng)
      {
        cursor := AdvanceRun(pack, solutions, a, rng, cursor, numIterations, n, bestSolution, minPt, maxPt);
        solutions := solutions + [pack[..]];

        a := 2.0 - (2.0 * (t as real / numIterations as real));
        assert a == ScheduleA(t + 1, numIterations);

        numItersPerformed := numItersPerformed + 1;
        t := t + 1;
      }

      RunShape(solutions, numIterations, n, bestSolution, minPt, maxPt, rng);
      if UnitDraws(rng) {
        FirstSnapshotInBox(solutions, numIterations, n, bestSolution, minPt, maxPt, rng);
      }
    }
  }
}
