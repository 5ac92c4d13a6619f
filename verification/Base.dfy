/** Machine integers, options and sums over finite maps, shared by every component. */
module Base {

  const TWO64: nat := 0x1_0000_0000_0000_0000
  const TWO128: nat := 0x1_0000_0000_0000_0000_0000_0000_0000_0000
  const TWO256: nat :=
    0x1_0000_0000_0000_0000_0000_0000_0000_0000_0000_0000_0000_0000_0000_0000_0000_0000

  type uint64 = n: nat | n < TWO64
  type uint128 = n: nat | n < TWO128
  type uint256 = n: nat | n < TWO256
  type byte = n: nat | n < 256
  type Bytes = seq<byte>

  /** A 20-byte account address, and a 32-byte hash. Only equality matters here. */
  type Address = int
  type Id = int

  datatype Option<+T> = None | Some(value: T)

  /** Unsigned arithmetic of Solidity before 0.8 and of Rust in release mode: wrap, never trap. */
  function U64(n: int): (r: uint64) {
    n % TWO64
  }

  function U128(n: int): (r: uint128) {
    n % TWO128
  }

  function U256(n: int): (r: uint256) {
    n % TWO256
  }

  /** Index of the first `x` of a list, its length when there is none. */
  function IndexOf<T(==)>(s: seq<T>, x: T): (i: nat)
    ensures i <= |s|
    ensures i < |s| ==> s[i] == x
    ensures forall k | 0 <= k < i :: s[k] != x
  {
    if s == [] then 0
    else if s[0] == x then 0
    else
      assert forall k | 0 < k < |s| :: s[k] == s[1..][k - 1];
      1 + IndexOf(s[1..], x)
  }

  /** Sum of the values of a finite map. */
  ghost function Sum<K>(m: map<K, int>): int
    decreases m.Keys
  {
    if m == map[] then 0
    else
      var k :| k in m;
      m[k] + Sum(m - {k})
  }

  /** Any key may be taken out first. */
  lemma {:induction false} SumPick<K>(m: map<K, int>, k: K)
    requires k in m
    ensures Sum(m) == m[k] + Sum(m - {k})
    decreases m.Keys
  {
    var first :| first in m && Sum(m) == m[first] + Sum(m - {first});
    if first != k {
      SumPick(m - {first}, k);
      SumPick(m - {k}, first);
      assert m - {first} - {k} == m - {k} - {first};
    }
  }

  /** Writing one key changes the sum by the difference of its old and new value. */
  lemma SumUpdate<K>(m: map<K, int>, k: K, v: int)
    ensures Sum(m[k := v]) == Sum(m) - (if k in m then m[k] else 0) + v
  {
    SumPick(m[k := v], k);
    assert m[k := v] - {k} == m - {k};
    if k in m {
      SumPick(m, k);
    } else {
      assert m - {k} == m;
    }
  }

  lemma {:induction false} SumNonNegative<K>(m: map<K, int>)
    requires forall k | k in m :: m[k] >= 0
    ensures Sum(m) >= 0
    ensures forall k | k in m :: m[k] <= Sum(m)
    decreases m.Keys
  {
    if m != map[] {
      var first :| first in m && Sum(m) == m[first] + Sum(m - {first});
      SumNonNegative(m - {first});
      forall k | k in m ensures m[k] <= Sum(m) {
        if k != first {
          assert k in m - {first};
          assert (m - {first})[k] <= Sum(m - {first});
        }
      }
    }
  }

  /** Wrapped sums only depend on their operands modulo the word size. */
  lemma WrapPlus(a: int, b: int)
    ensures U256(U256(a) + b) == U256(a + b)
  {
  }

  lemma WrapMinus(a: int, b: int)
    ensures U256(a - U256(b)) == U256(a - b)
  {
  }

  /** Two numbers that wrap alike are whole turns apart. */
  lemma WholeTurns(x: int, y: int)
    ensures U256(x) == U256(y) <==> (x - y) % TWO256 == 0
  {
  }

  lemma TurnsAdd(x: int, y: int)
    requires x % TWO256 == 0 && y % TWO256 == 0
    ensures (x + y) % TWO256 == 0
  {
  }

  /** A wrapped sum is the sum, or the sum less one turn. */
  lemma WrapTurns(a: nat)
    requires a < 2 * TWO256
    ensures U256(a) == a || U256(a) == a - TWO256
    ensures a < TWO256 ==> U256(a) == a
  {
  }

  /** Wrapped multiplication only depends on its operands modulo the word size. */
  lemma WrapTimes(a: nat, b: nat)
    ensures U64(U64(a) * b) == U64(a * b)
  {
    var q, r := a / TWO64, a % TWO64;
    assert a * b == r * b + q * b * TWO64 by {
      assert a == q * TWO64 + r;
      Distribute(q * TWO64, r, b);
      assert q * TWO64 * b == q * b * TWO64;
    }
    WrapShift(r * b, q * b);
  }

  lemma WrapShift(x: int, k: int)
    ensures U64(x + k * TWO64) == U64(x)
  {
  }

  lemma Distribute(x: int, y: int, z: int)
    ensures (x + y) * z == x * z + y * z
  {
  }
}
