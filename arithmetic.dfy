/** Facts about natural-number multiplication, division and remainder used by
    the row-pitched and voxel-indexed memory layouts. */
module Arithmetic {

  /** A row that starts inside the surface ends inside it. */
  lemma RowBounds(y: nat, pitch: nat, height: nat)
    requires y < height
    ensures y * pitch + pitch <= height * pitch
  {
    MulMonotone(y + 1, height, pitch);
    MulSucc(y, pitch);
  }

  lemma MulSucc(a: nat, d: nat)
    ensures (a + 1) * d == a * d + d
  {
  }

  lemma MulMonotone(a: nat, b: nat, d: nat)
    requires a <= b
    ensures a * d <= b * d
  {
    var k := b - a;
    assert b * d == a * d + k * d;
  }

  /** The column of offset i within row y of a surface with the given pitch. */
  lemma ModInRow(i: nat, y: nat, pitch: nat)
    requires pitch > 0 && y * pitch <= i < y * pitch + pitch
    ensures i % pitch == i - y * pitch && i / pitch == y
  {
    var r := i - y * pitch;
    DivModUnique(i, pitch, y, r);
  }

  /** Quotient and remainder are unique. */
  lemma DivModUnique(n: nat, d: nat, q: nat, r: nat)
    requires d > 0 && r < d && n == q * d + r
    ensures n / d == q && n % d == r
  {
    var q', r' := n / d, n % d;
    assert n == q' * d + r';
    if q' < q {
      MulMonotone(q' + 1, q, d);
      MulSucc(q', d);
    } else if q' > q {
      MulMonotone(q + 1, q', d);
      MulSucc(q, d);
    }
  }

  /** Offset i of a surface of `count` rows of the given pitch lies in row i / pitch < count. */
  lemma RowIndexBound(i: nat, pitch: nat, count: nat)
    requires pitch > 0 && i < count * pitch
    ensures i / pitch < count
  {
    var q, r := i / pitch, i % pitch;
    if q >= count {
      MulMonotone(count, q, pitch);
    }
  }

  /** Multiplying by a non-negative d keeps the order of any two integers. */
  lemma MulOrderInt(a: int, b: int, d: nat)
    ensures a <= b ==> a * d <= b * d
  {
    var k := b - a;
    assert b * d == a * d + k * d;
  }

  /** The only multiple of d strictly between -d and d is 0. */
  lemma SmallMultipleIsZero(m: int, d: nat)
    requires d > 0 && -(d as int) < m * d < d
    ensures m == 0
  {
    MulOrderInt(1, m, d);
    MulOrderInt(m, -1, d);
  }

  /** Adding a multiple of d does not change the remainder modulo d. */
  lemma ModAddMultiple(a: int, k: int, d: nat)
    requires d > 0
    ensures (a + k * d) % d == a % d
  {
    var q, r := a / d, a % d;
    var q', r' := (a + k * d) / d, (a + k * d) % d;
    assert (q + k - q') * d == r' - r;
    SmallMultipleIsZero(q + k - q', d);
  }
}
