/**
 * Small shared vocabulary: optional values, the C unsigned 16-bit counter
 * type with its wrap-around, and C's truncating integer division.
 */
module Common {

  datatype Option<+T> = None | Some(value: T)

  /** The values of a C `uint16_t`. */
  type U16 = x: int | 0 <= x < 0x1_0000

  /** C conversion of an integer to `uint16_t`: reduction modulo 2^16. */
  function ToU16(x: int): U16
  {
    x % 0x1_0000
  }

  /** `counter++` on a `uint16_t` counter: wraps from 65535 to 0. */
  function Inc(c: U16): (r: U16)
    ensures r != c
    ensures c < 0xFFFF ==> r == c + 1
    ensures c == 0xFFFF ==> r == 0
  {
    if c == 0xFFFF then 0 else c + 1
  }

  /** `if (flag) counter++;` */
  function IncIf(flag: bool, c: U16): (r: U16)
    ensures (r != c) == flag
  {
    if flag then Inc(c) else c
  }

  /** `n` increments of a `uint16_t` counter in a row. */
  function AddU16(c: U16, n: nat): U16
  {
    if n == 0 then c else Inc(AddU16(c, n - 1))
  }

  /** `n` increments add `n` modulo 2^16. */
  lemma {:induction false} AddU16Value(c: U16, n: nat)
    ensures AddU16(c, n) == ToU16(c + n)
  {
    if n > 0 {
      AddU16Value(c, n - 1);
      ModStep(c + (n - 1));
    }
  }

  /** Reducing one more modulo 2^16 is `Inc` of the reduced number. */
  lemma {:induction false} ModStep(q: int)
    ensures ToU16(q + 1) == Inc(ToU16(q))
  {
    var k, r := q / 0x1_0000, q % 0x1_0000;
    assert q == k * 0x1_0000 + r;
    if r == 0xFFFF {
      assert q + 1 == (k + 1) * 0x1_0000;
    } else {
      assert q + 1 == k * 0x1_0000 + (r + 1);
    }
  }

  /** Counting `a` then `b` increments is counting `a + b`. */
  lemma {:induction false} AddU16Split(c: U16, a: nat, b: nat)
    ensures AddU16(c, a + b) == AddU16(AddU16(c, a), b)
  {
    if b > 0 {
      AddU16Split(c, a, b - 1);
    }
  }

  /** C's `/` on `int`: the quotient is truncated toward zero. */
  function CDiv(a: int, b: int): int
    requires b != 0
  {
    var q := Abs(a) / Abs(b);
    if (a < 0) == (b < 0) then q else -q
  }

  /** C's `%` on `int`: the remainder takes the sign of the dividend. */
  function CMod(a: int, b: int): int
    requires b != 0
  {
    var r := Abs(a) % Abs(b);
    if a < 0 then -r else r
  }

  function Abs(a: int): nat { if a < 0 then -a else a }

  predicate StartsWith(s: string, prefix: string) {
    |prefix| <= |s| && s[..|prefix|] == prefix
  }

  /** C's `strstr(s, sub) != NULL`. */
  predicate Contains(s: string, sub: string) {
    exists i | 0 <= i <= |s| - |sub| :: OccursAt(s, sub, i)
  }

  predicate OccursAt(s: string, sub: string, i: nat) {
    i + |sub| <= |s| && s[i..i + |sub|] == sub
  }

  /** At most the first `n` characters of `s` (a bounded `snprintf`). */
  function Truncate(s: string, n: nat): (r: string)
    ensures |r| <= n && StartsWith(s, r)
    ensures |s| <= n ==> r == s
  {
    if |s| <= n then s else s[..n]
  }
}
