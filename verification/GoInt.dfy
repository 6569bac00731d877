/** Options, sets and Go's fixed-width integer operations. */
module Wrappers {

  datatype Option<+T> = None | Some(value: T)

  lemma Inhabited(keys: set<int>)
    ensures keys == {} || exists k :: k in keys
  {
    if forall k :: k !in keys { assert keys == {}; }
  }
}

/** The integer operations of Go that differ from Dafny's: truncating division and narrowing. */
module GoInt {

  const INT32_LIMIT := 0x8000_0000
  const INT64_LIMIT := 0x8000_0000_0000_0000

  /** Go's `/`, which rounds toward zero. */
  function Quot(a: int, b: int): int
    requires b > 0
  {
    if a >= 0 then a / b else -((-a) / b)
  }

  /** Go's `%`, whose sign follows the dividend. */
  function Rem(a: int, b: int): int
    requires b > 0
  {
    a - b * Quot(a, b)
  }

  /** The conversion `int32(x)`: two's-complement truncation. */
  function Int32(x: int): int {
    (x + INT32_LIMIT) % (2 * INT32_LIMIT) - INT32_LIMIT
  }

  /** The value an int64 expression holds once it has wrapped around. */
  function Int64(x: int): int {
    (x + INT64_LIMIT) % (2 * INT64_LIMIT) - INT64_LIMIT
  }

  /** The division is the one whose quotient is cut off toward zero: the remainder is smaller than the divisor and
      never of the other sign than the dividend. */
  lemma QuotTruncates(a: int, b: int)
    requires b > 0
    ensures a == b * Quot(a, b) + Rem(a, b) && -b < Rem(a, b) < b
    ensures (a >= 0 ==> Rem(a, b) >= 0) && (a <= 0 ==> Rem(a, b) <= 0)
  {
    if a < 0 { assert -a == b * (-a / b) + -a % b; }
  }

  /** Both conversions keep the value modulo their range, and nothing else does. */
  lemma ConversionsWrap(x: int, y: int)
    ensures Int32(x) == y <==> -INT32_LIMIT <= y < INT32_LIMIT && (x - y) % (2 * INT32_LIMIT) == 0
    ensures Int64(x) == y <==> -INT64_LIMIT <= y < INT64_LIMIT && (x - y) % (2 * INT64_LIMIT) == 0
  {
    Congruent(x, y, INT32_LIMIT);
    Congruent(x, y, INT64_LIMIT);
  }

  lemma Congruent(x: int, y: int, limit: int)
    requires limit > 0
    ensures (x + limit) % (2 * limit) - limit == y <==> -limit <= y < limit && (x - y) % (2 * limit) == 0
  {
    var m, r := 2 * limit, (x + limit) % (2 * limit);
    var k := (x + limit) / m;
    assert x + limit == m * k + r;
    if r - limit == y {
      assert x - y == m * k;
      MultipleRem(m, k);
    }
    if -limit <= y < limit && (x - y) % m == 0 {
      var j := (x - y) / m;
      assert x - y == m * j;
      SameRem(m, k, r, j, y + limit);
    }
  }

  lemma MultipleRem(m: int, k: int)
    requires m > 0
    ensures (m * k) % m == 0
  {
    var r, q := (m * k) % m, (m * k) / m;
    assert m * k == m * q + r && 0 <= r < m;
    assert m * (k - q) == r;
    MultipleSize(m, k - q);
  }

  lemma MultipleSize(m: int, d: int)
    requires m > 0
    ensures (d >= 1 ==> m * d >= m) && (d <= -1 ==> m * d <= -m)
  {
    if d >= 1 { assert m * d == m * (d - 1) + m; }
    if d <= -1 { assert m * d == m * (d + 1) - m; }
  }

  lemma SameRem(m: int, k: int, r: int, j: int, s: int)
    requires m > 0 && 0 <= r < m && 0 <= s < m && m * k + r == m * j + s
    ensures r == s
  {
    assert m * (k - j) == s - r;
    MultipleSize(m, k - j);
  }

  /** `int32` loses nothing on exactly the values that fit. */
  lemma Int32Exact(x: int)
    requires 0 <= x
    ensures Int32(x) == x <==> x < INT32_LIMIT
  {
    if x >= INT32_LIMIT {
      assert Int32(x) < INT32_LIMIT;
    }
  }
}
