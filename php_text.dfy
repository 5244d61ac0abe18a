/**
 * The few PHP string builtins the client relies on, written out over `seq<char>`:
 * `str_replace` with an empty replacement, integer-to-string conversion,
 * `implode` and ASCII lower-casing (used for header names).
 */
module PhpText {

  /** `p` occurs in `s` at some position. */
  predicate Occurs(p: string, s: string) {
    exists i :: 0 <= i <= |s| && p <= s[i..]
  }

  /**
   * `str_replace(search, '', s)`: scans `s` left to right and deletes every
   * non-overlapping occurrence of `search`; scanning resumes after a deleted
   * occurrence, in the original text, so a deletion never exposes a new match
   * to the same pass.
   */
  function RemoveAll(search: string, s: string): (r: string)
    requires search != []
    ensures |r| <= |s|
    decreases |s|
  {
    if s == [] then []
    else if search <= s then RemoveAll(search, s[|search|..])
    else [s[0]] + RemoveAll(search, s[1..])
  }

  /** Text without an occurrence of `search` comes back unchanged. */
  lemma {:induction false} RemoveAllNoOccurrence(search: string, s: string)
    requires search != []
    requires !Occurs(search, s)
    ensures RemoveAll(search, s) == s
    decreases |s|
  {
    if s != [] {
      assert !(search <= s) by { assert s[0..] == s; }
      forall i | 0 <= i <= |s[1..]|
        ensures !(search <= s[1..][i..])
      {
        assert s[1..][i..] == s[i + 1..];
      }
      RemoveAllNoOccurrence(search, s[1..]);
    }
  }

  /** Text with an occurrence of `search` always gets strictly shorter. */
  lemma {:induction false} RemoveAllShrinks(search: string, s: string)
    requires search != []
    requires Occurs(search, s)
    ensures |RemoveAll(search, s)| < |s|
    decreases |s|
  {
    var i :| 0 <= i <= |s| && search <= s[i..];
    if search <= s {
    } else {
      assert i != 0 by { assert s[0..] == s; }
      assert s[1..][i - 1..] == s[i..];
      RemoveAllShrinks(search, s[1..]);
    }
  }

  /** Both directions: `str_replace` leaves `s` alone exactly when `search` does not occur in it. */
  lemma RemoveAllUnchangedIff(search: string, s: string)
    requires search != []
    ensures RemoveAll(search, s) == s <==> !Occurs(search, s)
  {
    if Occurs(search, s) {
      RemoveAllShrinks(search, s);
    } else {
      RemoveAllNoOccurrence(search, s);
    }
  }

  /** A leading occurrence is deleted and the rest is processed as if it were the whole text. */
  lemma RemoveAllLeading(search: string, s: string)
    requires search != []
    ensures RemoveAll(search, search + s) == RemoveAll(search, s)
  {
    assert search <= search + s;
    assert (search + s)[|search|..] == s;
  }

  /**
   * Deleting every occurrence is not idempotent: removing "a/" from "aa//"
   * leaves "a/", which a second pass removes as well.
   */
  lemma RemoveAllNotIdempotent()
    ensures RemoveAll("a/", "aa//") == "a/"
    ensures RemoveAll("a/", RemoveAll("a/", "aa//")) == ""
  {
    var s := "aa//";
    assert s[1] == 'a' && "a/"[1] == '/';
    assert !("a/" <= s);
    assert s[1..] == "a//";
    assert "a/" <= "a//";
    assert "a//"[2..] == "/";
    assert !("a/" <= "/");
    assert "/"[1..] == [];
    assert RemoveAll("a/", "/") == "/";
    assert "a/"[2..] == [];
  }

  // ---------------------------------------------------------------------------
  // Integers as decimal text (PHP's string conversion of an int)

  function DigitChar(d: nat): (c: char)
    requires d < 10
    ensures '0' <= c <= '9'
  {
    "0123456789"[d]
  }

  function DigitValue(c: char): (d: nat)
    requires '0' <= c <= '9'
    ensures d < 10
  {
    (c as int - '0' as int) as nat
  }

  predicate IsDigits(s: string) {
    forall i :: 0 <= i < |s| ==> '0' <= s[i] <= '9'
  }

  /** Decimal text of a natural number, most significant digit first, without leading zeros. */
  function NatToString(n: nat): (r: string)
    ensures r != [] && IsDigits(r)
    ensures r[0] == '0' ==> n == 0
    decreases n
  {
    if n < 10 then [DigitChar(n)] else NatToString(n / 10) + [DigitChar(n % 10)]
  }

  /** Reads a run of decimal digits back as a number. */
  function ParseDigits(s: string): nat
    requires IsDigits(s)
    decreases |s|
  {
    if s == [] then 0 else ParseDigits(s[..|s| - 1]) * 10 + DigitValue(s[|s| - 1])
  }

  lemma {:induction false} ParseNatToString(n: nat)
    ensures ParseDigits(NatToString(n)) == n
    decreases n
  {
    var r := NatToString(n);
    if n < 10 {
      assert r[..|r| - 1] == [];
    } else {
      assert r[..|r| - 1] == NatToString(n / 10);
      ParseNatToString(n / 10);
    }
  }

  /** PHP's conversion of an integer to its decimal text, with a leading '-' when negative. */
  function IntToString(i: int): (r: string)
    ensures r != []
  {
    if i < 0 then "-" + NatToString(-i) else NatToString(i)
  }

  predicate IsIntText(s: string) {
    if s != [] && s[0] == '-' then IsDigits(s[1..]) else IsDigits(s)
  }

  function ParseInt(s: string): int
    requires IsIntText(s)
  {
    if s != [] && s[0] == '-' then -(ParseDigits(s[1..]) as int) else ParseDigits(s)
  }

  /** Integer text reads back as the same integer, so messages quoting a count or a status are unambiguous. */
  lemma IntToStringRoundTrip(i: int)
    ensures IsIntText(IntToString(i)) && ParseInt(IntToString(i)) == i
  {
    var r := IntToString(i);
    if i < 0 {
      var digits := NatToString(-i);
      assert r == "-" + digits && r[1..] == digits;
      ParseNatToString(-i);
    } else {
      assert r == NatToString(i);
      assert r[0] != '-';
      ParseNatToString(i);
    }
  }

  // ---------------------------------------------------------------------------
  // implode and strtolower

  /** `implode(sep, parts)`. */
  function Join(parts: seq<string>, sep: string): string
    decreases |parts|
  {
    if parts == [] then ""
    else if |parts| == 1 then parts[0]
    else parts[0] + sep + Join(parts[1..], sep)
  }

  function LowerChar(c: char): char {
    if 'A' <= c <= 'Z' then (c as int + 32) as char else c
  }

  /** ASCII lower-casing, as used to normalise HTTP header names. */
  function Lower(s: string): (r: string)
    ensures |r| == |s| && forall i :: 0 <= i < |s| ==> r[i] == LowerChar(s[i])
  {
    seq(|s|, i requires 0 <= i < |s| => LowerChar(s[i]))
  }
}
