/** Ids of deferred calls: a fixed-width per-instance prefix and a decimal counter. */
module CallIds {
  const WORD: nat := 0x1_0000_0000_0000_0000

  /** QUuid::Id128 spells a UUID as 32 hexadecimal digits. */
  const ID128_WIDTH: nat := 32

  type InstanceId = s: string | |s| == ID128_WIDTH
    witness "00000000000000000000000000000000"

  function Digit(n: nat): (c: char)
    requires n < 10
  {
    ('0' as int + n) as char
  }

  function Decimal(n: nat): (s: string)
    ensures s != []
  {
    if n < 10 then [Digit(n)] else Decimal(n / 10) + [Digit(n % 10)]
  }

  lemma {:induction false} DecimalIsInjective(a: nat, b: nat)
    requires Decimal(a) == Decimal(b)
    ensures a == b
  {
    var s, t := Decimal(a), Decimal(b);
    assert s[|s| - 1] == Digit(a % 10) && t[|t| - 1] == Digit(b % 10);
    if a >= 10 && b >= 10 {
      assert s[..|s| - 1] == Decimal(a / 10) && t[..|t| - 1] == Decimal(b / 10);
      DecimalIsInjective(a / 10, b / 10);
    }
  }

  /** m_callIdPrefix + the value fetch_add returned, a 64-bit counter that wraps. */
  function CallId(instance: InstanceId, call: nat): string {
    "lc-" + instance + "-" + Decimal(call % WORD)
  }

  /** Two calls share an id exactly when one instance made both, a multiple of 2^64
      calls apart. */
  lemma CallIdsCollideOnlyOnWrap(i: InstanceId, m: nat, j: InstanceId, n: nat)
    ensures CallId(i, m) == CallId(j, n)
            <==> i == j && m % 18_446_744_073_709_551_616 == n % 18_446_744_073_709_551_616
  {
    var s, t := CallId(i, m), CallId(j, n);
    var width := 3 + ID128_WIDTH;
    assert s[3..width] == i && t[3..width] == j;
    assert s[width + 1..] == Decimal(m % WORD) && t[width + 1..] == Decimal(n % WORD);
    if s == t {
      DecimalIsInjective(m % WORD, n % WORD);
    }
  }

  /** No collision at all while each instance makes at most 2^64 calls. */
  lemma CallIdsNeverCollide(i: InstanceId, m: nat, j: InstanceId, n: nat)
    requires m < WORD && n < WORD && (i, m) != (j, n)
    ensures CallId(i, m) != CallId(j, n)
  {
    CallIdsCollideOnlyOnWrap(i, m, j, n);
  }
}
