/** Bytes, C strings and decimal numbers. */
module Text {

  type byte = bv8

  const NUL: char := '\0'

  /** The characters before the first occurrence of c, or all of them. */
  function Until(s: string, c: char): (r: string)
    ensures r <= s && c !in r
    ensures |r| < |s| ==> s[|r|] == c
    ensures c !in s ==> r == s
  {
    if s == "" || s[0] == c then "" else [s[0]] + Until(s[1..], c)
  }

  lemma {:induction false} UntilSplit(a: string, c: char, b: string)
    requires c !in a
    ensures Until(a + [c] + b, c) == a
  {
    var s := a + [c] + b;
    if a == "" {
      assert s[0] == c;
    } else {
      assert s[0] == a[0];
      assert s[1..] == a[1..] + [c] + b;
      UntilSplit(a[1..], c, b);
    }
  }

  /** The C string that starts at index i of a buffer. */
  function CStr(buf: string, i: nat): string
    requires i <= |buf|
  {
    Until(buf[i..], NUL)
  }

  lemma {:induction false} UntilIs(s: string, c: char, k: nat)
    requires k <= |s| && (forall i :: 0 <= i < k ==> s[i] != c) && (k < |s| ==> s[k] == c)
    ensures Until(s, c) == s[..k]
  {
    if k > 0 {
      UntilIs(s[1..], c, k - 1);
      assert s[..k] == [s[0]] + s[1..][..k - 1];
    }
  }

  /** strlen. */
  method StrLen(buf: array<char>) returns (n: nat)
    requires NUL in buf[..]
    ensures n < buf.Length && buf[n] == NUL && NUL !in buf[..n]
    ensures CStr(buf[..], 0) == buf[..n]
  {
    n := 0;
    while buf[n] != NUL
      invariant n < buf.Length && NUL in buf[n..]
      invariant forall i :: 0 <= i < n ==> buf[i] != NUL
      decreases buf.Length - n
    {
      assert buf[n..] == [buf[n]] + buf[n + 1..];
      n := n + 1;
    }
    assert buf[..][0..] == buf[..];
    UntilIs(buf[..], NUL, n);
    assert buf[..][..n] == buf[..n];
  }

  /** memcpy. */
  method CopyTo(buf: array<char>, p: nat, s: string)
    requires p + |s| <= buf.Length
    modifies buf
    ensures buf[..] == old(buf[..p]) + s + old(buf[p + |s|..])
  {
    ghost var b := buf[..];
    for i := 0 to |s|
      invariant buf[..] == b[..p] + s[..i] + b[p + i..]
    {
      buf[p + i] := s[i];
    }
  }

  // ---------------------------------------------------------------- decimal numbers

  predicate IsDigit(c: char) { '0' <= c <= '9' }

  /** printf's %u. */
  function Dec(n: nat): (s: string)
    ensures s != "" && forall i :: 0 <= i < |s| ==> IsDigit(s[i])
  {
    if n < 10 then ['0' + n as char] else Dec(n / 10) + ['0' + (n % 10) as char]
  }

  function Value(s: string): nat
    requires forall i :: 0 <= i < |s| ==> IsDigit(s[i])
  {
    if s == "" then 0
    else
      var c := s[|s| - 1];
      assert IsDigit(c);
      10 * Value(s[..|s| - 1]) + (c - '0') as nat
  }

  /** Printing loses nothing. */
  lemma {:induction false} DecValue(n: nat)
    ensures Value(Dec(n)) == n
  {
    var s := Dec(n);
    if n < 10 {
      assert s[..0] == "";
    } else {
      DecValue(n / 10);
      assert s[..|s| - 1] == Dec(n / 10);
      assert s[|s| - 1] == '0' + (n % 10) as char;
    }
  }

  function Pow10(k: nat): nat { if k == 0 then 1 else 10 * Pow10(k - 1) }

  lemma {:induction false} DecLength(n: nat, k: nat)
    requires n < Pow10(k) && k > 0
    ensures |Dec(n)| <= k
  {
    assert Pow10(k) == 10 * Pow10(k - 1);
    if n >= 10 {
      assert k > 1 by {
        assert Pow10(0) == 1;
      }
      DecLength(n / 10, k - 1);
    }
  }

  /** A 32-bit number prints in at most ten digits. */
  lemma DecLength32(n: nat)
    requires n < 0x1_0000_0000
    ensures |Dec(n)| <= 10
  {
    assert Pow10(5) == 100000;
    assert Pow10(10) == 10000000000 by {
      assert Pow10(6) == 1000000;
      assert Pow10(8) == 100000000;
    }
    DecLength(n, 10);
  }
}
