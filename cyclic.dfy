/**
 * The wrap-around rule shared by the project carousel and the modal gallery: a step past
 * either end lands on the opposite end. It clamps to the other end rather than reducing
 * modulo the length, and leaves the index alone when there is nothing to show.
 */
module Cyclic {

  /** The index after moving `direction` places among `n` entries. */
  function WrapStep(index: int, direction: int, n: nat): (r: int)
    ensures n == 0 ==> r == index
    ensures n > 0 ==> 0 <= r < n
    ensures n > 0 && 0 <= index + direction < n ==> r == index + direction
  {
    if n == 0 then index
    else if index + direction < 0 then n - 1
    else if index + direction >= n then 0
    else index + direction
  }

  /** The two wrap-arounds: forward from the last entry, back from the first. */
  lemma WrapAtEnds(n: nat)
    requires n > 0
    ensures WrapStep(n - 1, 1, n) == 0
    ensures WrapStep(0, -1, n) == n - 1
  {
  }

  /** A positive multiple of `n` is at least `n`. */
  lemma {:induction false} MultipleAtLeast(m: nat, n: int)
    requires m >= 1 && n > 0
    ensures m * n >= n
  {
    if m > 1 {
      MultipleAtLeast(m - 1, n);
      assert m * n == (m - 1) * n + n;
    }
  }

  /** `a % n` is the only remainder `s` with `a == q * n + s` and `0 <= s < n`. */
  lemma ModUnique(a: int, n: int, q: int, s: int)
    requires n > 0 && 0 <= s < n && a == q * n + s
    ensures a % n == s
  {
    var q', s' := a / n, a % n;
    assert a == q' * n + s';
    assert (q - q') * n == q * n - q' * n;
    if q > q' {
      MultipleAtLeast(q - q', n);
    } else if q < q' {
      MultipleAtLeast(q' - q, n);
    }
  }

  /** For unit steps from a valid index the rule is addition modulo `n`. */
  lemma {:induction false} WrapStepIsMod(index: int, direction: int, n: nat)
    requires n > 0 && 0 <= index < n
    requires direction == 1 || direction == -1
    ensures WrapStep(index, direction, n) == (index + direction) % n
  {
    var a := index + direction;
    if a < 0 {
      ModUnique(a, n, -1, n - 1);
    } else if a >= n {
      ModUnique(a, n, 1, 0);
    } else {
      ModUnique(a, n, 0, a);
    }
  }

  /** A step taken from the remainder of `x` lands on the remainder of `x + direction`. */
  lemma {:induction false} WrapStepOfRemainder(x: int, direction: int, n: nat)
    requires n > 0
    requires direction == 1 || direction == -1
    ensures WrapStep(x % n, direction, n) == (x + direction) % n
  {
    var q, r := x / n, x % n;
    WrapStepIsMod(r, direction, n);
    var s := (r + direction) % n;
    var t := (r + direction) / n;
    assert x + direction == (q + t) * n + s;
    ModUnique(x + direction, n, q + t, s);
  }

  /** `k` successive steps in the same direction. */
  function Walk(index: int, direction: int, n: nat, k: nat): (r: int)
    ensures n == 0 ==> r == index
    ensures n > 0 && k > 0 ==> 0 <= r < n
  {
    if k == 0 then index else WrapStep(Walk(index, direction, n, k - 1), direction, n)
  }

  /** `k` unit steps from a valid index move it by `k * direction` modulo `n`. */
  lemma {:induction false} WalkIsMod(index: int, direction: int, n: nat, k: nat)
    requires n > 0 && 0 <= index < n
    requires direction == 1 || direction == -1
    ensures Walk(index, direction, n, k) == (index + k * direction) % n
  {
    if k == 0 {
      ModUnique(index, n, 0, index);
    } else {
      WalkIsMod(index, direction, n, k - 1);
      WrapStepOfRemainder(index + (k - 1) * direction, direction, n);
    }
  }

  /** Moving `n` times in one direction comes back to the starting entry. */
  lemma WalkFullCycle(index: int, direction: int, n: nat)
    requires n > 0 && 0 <= index < n
    requires direction == 1 || direction == -1
    ensures Walk(index, direction, n, n) == index
  {
    WalkIsMod(index, direction, n, n);
    ModUnique(index + n * direction, n, direction, index);
  }
}
