/** Connection names (`TcpServer::newConnection`): the server's own name followed by '#' and the decimal
    rendering of a counter, produced through a 32-byte `snprintf` buffer. */
module Names {
  /** The largest value of the source's 32-bit `int`. */
  const INT_MAX: nat := 0x7fff_ffff

  /** `sizeof(buf)` in `newConnection`. */
  const NAME_BUFFER: nat := 32

  function Digit(d: nat): char
    requires d < 10
  {
    '0' + d as char
  }

  /** What the conversion `%d` produces for a non-negative argument. */
  function Decimal(n: nat): (s: string)
    ensures s != []
  {
    if n < 10 then [Digit(n)] else Decimal(n / 10) + [Digit(n % 10)]
  }

  /** Reads a digit string back, most significant digit first. */
  ghost function Parse(s: string): int {
    if s == [] then 0 else 10 * Parse(s[..|s| - 1]) + (s[|s| - 1] as int - '0' as int)
  }

  lemma {:induction false} DecimalRoundTrip(n: nat)
    ensures Parse(Decimal(n)) == n
  {
    if n < 10 {
      assert Decimal(n)[..0] == [];
    } else {
      DecimalRoundTrip(n / 10);
      assert Decimal(n)[..|Decimal(n)| - 1] == Decimal(n / 10);
    }
  }

  ghost function Power10(k: nat): nat {
    if k == 0 then 1 else 10 * Power10(k - 1)
  }

  /** A number below ten to the `k` has at most `k` digits. */
  lemma {:induction false} DecimalLength(n: nat, k: nat)
    requires 0 < k && n < Power10(k)
    ensures |Decimal(n)| <= k
  {
    if n >= 10 {
      assert k > 1 by { assert Power10(1) == 10 * Power10(0); }
      DecimalLength(n / 10, k - 1);
    }
  }

  /** `snprintf` into a buffer of `size` bytes keeps at most `size - 1` characters. */
  function Snprintf(size: nat, text: string): string
    requires 0 < size
  {
    if |text| < size then text else text[..size - 1]
  }

  function ConnName(server: string, id: nat): string {
    server + Snprintf(NAME_BUFFER, "#" + Decimal(id))
  }

  /** Every id that fits an `int` is rendered whole: '#', at most ten digits and the terminator fit. */
  lemma NameIsNotTruncated(server: string, id: nat)
    requires id <= INT_MAX
    ensures ConnName(server, id) == server + "#" + Decimal(id)
    ensures |"#" + Decimal(id)| + 1 <= 12 <= NAME_BUFFER
  {
    assert Power10(10) == 10_000_000_000 by {
      assert Power10(2) == 100;
      assert Power10(4) == 10_000;
      assert Power10(6) == 1_000_000;
      assert Power10(8) == 100_000_000;
    }
    DecimalLength(id, 10);
  }

  /** Two ids give the same name exactly when they are the same id, whatever the server is called. */
  lemma NameInjective(server: string, i: nat, j: nat)
    requires i <= INT_MAX && j <= INT_MAX
    ensures ConnName(server, i) == ConnName(server, j) <==> i == j
  {
    NameIsNotTruncated(server, i);
    NameIsNotTruncated(server, j);
    if ConnName(server, i) == ConnName(server, j) {
      assert (server + "#" + Decimal(i))[|server| + 1..] == Decimal(i);
      assert (server + "#" + Decimal(j))[|server| + 1..] == Decimal(j);
      DecimalRoundTrip(i);
      DecimalRoundTrip(j);
    }
  }
}
