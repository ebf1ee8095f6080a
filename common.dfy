/** Values shared by every part of the model: optional values, abstract colours,
    `Mathf.Clamp`, and the quotient/remainder facts behind row-major indexing. */
module Common {

  datatype Option<+T> = None | Some(value: T)

  /** A colour as the model sees it: the built-in colours the scripts name, plus any
      inspector-chosen colour identified abstractly (no RGBA arithmetic). `Clear` is
      C#'s `default(Color)`, the value of an unassigned Color field. */
  datatype Color = White | Grey | Black | Clear | Custom(id: nat)

  /** `Mathf.Clamp(value, min, max)` for ints. */
  function Clamp(value: int, min: int, max: int): (r: int)
    requires min <= max
    ensures min <= r <= max
    ensures min <= value <= max ==> r == value
    ensures value < min ==> r == min
    ensures value > max ==> r == max
  {
    if value < min then min else if value > max then max else value
  }

  /** `Mathf.Clamp(value, -1f, 1f)` on reals. */
  function ClampUnit(value: real): (r: real)
    ensures -1.0 <= r <= 1.0
    ensures -1.0 <= value <= 1.0 ==> r == value
    ensures value < -1.0 ==> r == -1.0
    ensures value > 1.0 ==> r == 1.0
  {
    if value < -1.0 then -1.0 else if value > 1.0 then 1.0 else value
  }

  function Min(a: int, b: int): int {
    if a <= b then a else b
  }

  lemma {:induction false} MulAtLeast(a: int, d: int)
    requires d > 0
    ensures a >= 1 ==> a * d >= d
    ensures a <= -1 ==> a * d <= -d
    decreases if a < 0 then -a else a
  {
    if a > 1 {
      MulAtLeast(a - 1, d);
      assert a * d == (a - 1) * d + d;
    } else if a < -1 {
      MulAtLeast(a + 1, d);
      assert a * d == (a + 1) * d - d;
    }
  }

  /** The quotient and remainder of `q * d + r` by `d` are `q` and `r` for `0 <= r < d`. */
  lemma {:induction false} DivMod(q: int, r: int, d: int)
    requires q >= 0 && 0 <= r < d
    ensures (q * d + r) / d == q && (q * d + r) % d == r
  {
    var k := q * d + r;
    var m, s := k / d, k % d;
    assert k == m * d + s && 0 <= s < d;
    assert (q - m) * d == s - r;
    MulAtLeast(q - m, d);
  }

  /** Adding one after taking the remainder is adding one before. */
  lemma {:induction false} ModSucc(t: int, d: int)
    requires t >= 0 && d > 0
    ensures (t % d + 1) % d == (t + 1) % d
  {
    var q, r := t / d, t % d;
    if r + 1 < d {
      DivMod(q, r + 1, d);
      DivMod(0, r + 1, d);
      assert q * d + (r + 1) == t + 1;
    } else {
      DivMod(q + 1, 0, d);
      DivMod(1, 0, d);
      assert (q + 1) * d + 0 == t + 1 by {
        assert (q + 1) * d == q * d + d;
      }
    }
  }

  /** A non-negative `k` is `(k / d) * d + k % d`, its quotient being below `n` when `k < n * d`. */
  lemma {:induction false} Decompose(k: int, n: int, d: int)
    requires 0 <= k < n * d && d > 0
    ensures k == (k / d) * d + k % d
    ensures 0 <= k / d < n && 0 <= k % d < d
  {
    var m := k / d;
    assert k == m * d + k % d;
    MulAtLeast(m - n + 1, d);
    assert (m - n + 1) * d == m * d - n * d + d;
  }
}
