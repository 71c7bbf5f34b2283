/**
  Index arithmetic shared by the two carousels (pre-launch and guest reviews):
  the slide count of a grouped carousel and the wrap-around steps used by the
  autoplay tick and by the previous / next buttons.
*/
module SlideIndex {

  /** `Math.ceil(n / d)` for a non-negative count: the number of pages of `d` items. */
  function CeilDiv(n: nat, d: nat): (r: nat)
    requires d > 0
    ensures n <= r * d
    ensures r > 0 ==> (r - 1) * d < n
    ensures r == 0 <==> n == 0
  {
    (n + d - 1) / d
  }

  /** `(i + 1) % total`: one slide forward, wrapping from the last slide to the first. */
  function Next(i: nat, total: nat): (r: nat)
    requires i < total
    ensures r < total
    ensures i == total - 1 ==> r == 0
    ensures i < total - 1 ==> r == i + 1
  {
    (i + 1) % total
  }

  /** `(i - 1 + total) % total`: one slide back, wrapping from the first slide to the last. */
  function Previous(i: nat, total: nat): (r: nat)
    requires i < total
    ensures r < total
    ensures i == 0 ==> r == total - 1
    ensures i > 0 ==> r == i - 1
  {
    (i - 1 + total) % total
  }

  /** Previous undoes Next and Next undoes Previous, so the two buttons are inverse moves. */
  lemma PreviousUndoesNext(i: nat, total: nat)
    requires i < total
    ensures Previous(Next(i, total), total) == i
    ensures Next(Previous(i, total), total) == i
  {
  }

  /** The index after `k` autoplay ticks starting from `i`. */
  function Advance(i: nat, k: nat, total: nat): (r: nat)
    requires i < total
    ensures r < total
  {
    if k == 0 then i else Next(Advance(i, k - 1, total), total)
  }

  /** `k` ticks move the index by `k` modulo the slide count. */
  lemma {:induction false} AdvanceIsModular(i: nat, k: nat, total: nat)
    requires i < total
    ensures Advance(i, k, total) == (i + k) % total
  {
    if k == 0 {
      ModUnique(i, total, 0, i);
    } else {
      AdvanceIsModular(i, k - 1, total);
      NextOfRemainder(i + k - 1, total);
    }
  }

  /** Stepping the remainder of `x` gives the remainder of `x + 1`. */
  lemma NextOfRemainder(x: nat, total: nat)
    requires total > 0
    ensures Next(x % total, total) == (x + 1) % total
  {
    var p, q := x % total, x / total;
    assert x == q * total + p;
    if p == total - 1 {
      MulSucc(q, total);
      ModUnique(x + 1, total, q + 1, 0);
    } else {
      ModUnique(x + 1, total, q, p + 1);
    }
  }

  /** Division with remainder is unique: `x == q * t + r` with `0 <= r < t` fixes `x % t`. */
  lemma ModUnique(x: int, t: int, q: int, r: int)
    requires t > 0 && 0 <= r < t
    requires x == q * t + r
    ensures x % t == r
  {
    var m, d := x % t, x / t;
    assert x == d * t + m;
    MulDistributes(q, d, t);
    assert (q - d) * t == m - r;
    if q - d >= 1 {
      MulAtLeast(q - d, t);
    } else if d - q >= 1 {
      MulDistributes(d, q, t);
      MulAtLeast(d - q, t);
    }
  }

  lemma MulDistributes(a: int, b: int, t: int)
    ensures (a - b) * t == a * t - b * t
  {
  }

  lemma MulSucc(q: int, t: int)
    ensures (q + 1) * t == q * t + t
  {
  }

  lemma MulAtLeast(a: int, t: int)
    requires a >= 1 && t > 0
    ensures a * t >= t
  {
    assert a * t == t + (a - 1) * t;
  }

  /** After one full round of `total` ticks the carousel is back where it started. */
  lemma FullCycleReturns(i: nat, total: nat)
    requires i < total
    ensures Advance(i, total, total) == i
  {
    AdvanceIsModular(i, total, total);
    ModUnique(i + total, total, 1, i);
  }
}
