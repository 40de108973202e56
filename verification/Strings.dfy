/** The string operations the handlers and the database apply to protocols and subdomains. */
module Strings {
  import opened Types

  /** `char::is_whitespace`: the Unicode White_Space property. */
  predicate IsWhite(c: char) {
    var n := c as int;
    0x9 <= n <= 0xD || n == 0x20 || n == 0x85 || n == 0xA0 || n == 0x1680 || 0x2000 <= n <= 0x200A
    || n == 0x2028 || n == 0x2029 || n == 0x202F || n == 0x205F || n == 0x3000
  }

  function TrimStart(s: string): string {
    if s != "" && IsWhite(s[0]) then TrimStart(s[1..]) else s
  }

  function TrimEnd(s: string): (r: string)
    ensures r != "" ==> s != "" && r[0] == s[0]
  {
    if s != "" && IsWhite(s[|s| - 1]) then TrimEnd(s[..|s| - 1]) else s
  }

  function Trim(s: string): string { TrimEnd(TrimStart(s)) }

  predicate Trimmed(s: string) { s != "" ==> !IsWhite(s[0]) && !IsWhite(s[|s| - 1]) }

  /** What `trim` leaves has no white space at either end, and trimming it again changes nothing. */
  lemma TrimIsTrimmed(s: string)
    ensures Trimmed(Trim(s)) && Trim(Trim(s)) == Trim(s)
  {
    StartTrimmed(s);
    EndTrimmed(TrimStart(s));
  }

  lemma {:induction false} StartTrimmed(s: string)
    ensures var r := TrimStart(s); r != "" ==> !IsWhite(r[0])
  {
    if s != "" && IsWhite(s[0]) {
      StartTrimmed(s[1..]);
    }
  }

  lemma {:induction false} EndTrimmed(s: string)
    ensures var r := TrimEnd(s); r != "" ==> !IsWhite(r[|r| - 1])
  {
    if s != "" && IsWhite(s[|s| - 1]) {
      EndTrimmed(s[..|s| - 1]);
    }
  }

  /** All characters of the string are white space. */
  predicate Blank(s: string) { forall c :: c in s ==> IsWhite(c) }

  lemma {:induction false} StartCut(s: string) returns (i: nat)
    ensures i <= |s| && TrimStart(s) == s[i..] && Blank(s[..i])
  {
    if s != "" && IsWhite(s[0]) {
      var j := StartCut(s[1..]);
      i := j + 1;
      assert s[..i] == [s[0]] + s[1..][..j];
    } else {
      i := 0;
    }
  }

  lemma {:induction false} EndCut(s: string) returns (j: nat)
    ensures j <= |s| && TrimEnd(s) == s[..j] && Blank(s[j..])
  {
    if s != "" && IsWhite(s[|s| - 1]) {
      var k := |s| - 1;
      j := EndCut(s[..k]);
      assert s[j..] == s[..k][j..] + [s[k]];
    } else {
      j := |s|;
    }
  }

  /** What `trim` leaves is the input from i to j, and only white space goes. With TrimIsTrimmed this fixes it. */
  lemma TrimExact(s: string) returns (i: nat, j: nat)
    ensures i <= j <= |s| && Trim(s) == s[i..j]
    ensures Blank(s[..i]) && Blank(s[j..])
  {
    i := StartCut(s);
    var k := EndCut(s[i..]);
    j := i + k;
    assert s[i..][..k] == s[i..j] && s[i..][k..] == s[j..];
  }

  /** The length of a character in UTF-8, and of a string: what Rust's `len` returns. */
  function CharBytes(c: char): nat {
    var n := c as int;
    if n < 0x80 then 1 else if n < 0x800 then 2 else if n < 0x1_0000 then 3 else 4
  }

  function ByteLength(s: string): nat { if s == "" then 0 else CharBytes(s[0]) + ByteLength(s[1..]) }

  /** ASCII lower-casing: SQLite's LOWER. It also decides `to_lowercase() == "tcp"` exactly, because no
      other character has t, c or p as its lower case. */
  function LowerChar(c: char): char {
    if 'A' <= c <= 'Z' then (c as int - 'A' as int + 'a' as int) as char else c
  }

  function Lower(s: string): string { seq(|s|, i requires 0 <= i < |s| => LowerChar(s[i])) }

  /** An optional subdomain from a request body: trimmed, and dropped when nothing is left. */
  function Clean(sub: Option<string>): (r: Option<string>)
    ensures r.Some? ==> r.value != "" && Trimmed(r.value)
  {
    if sub.None? then None
    else TrimIsTrimmed(sub.value); if Trim(sub.value) == "" then None else Some(Trim(sub.value))
  }

  /** A subdomain is dropped exactly when it is missing or blank; otherwise the middle part of it stays. */
  lemma CleanExact(sub: Option<string>) returns (i: nat, j: nat)
    ensures Clean(sub).None? <==> sub.None? || Blank(sub.value)
    ensures Clean(sub).Some? ==>
      i < j <= |sub.value| && Clean(sub).value == sub.value[i..j] && Blank(sub.value[..i]) && Blank(sub.value[j..])
  {
    i, j := 0, 0;
    if sub.Some? {
      i, j := TrimExact(sub.value);
      TrimIsTrimmed(sub.value);
      var s := sub.value;
      if i == j {
        assert s == s[..i] + s[j..];
      } else {
        assert s[i..j][0] == s[i] && s[i] in s;
      }
    }
  }

  // ---------- the letters ----------

  const UPPER_A := "ABCDEFGHIJKLM"
  const UPPER_N := "NOPQRSTUVWXYZ"
  const LOWER_A := "abcdefghijklm"
  const LOWER_N := "nopqrstuvwxyz"

  /** Lower-casing takes each capital letter to the small letter at the same place of the alphabet, and leaves every
      other character and the length alone. */
  lemma LowerExact(s: string, i: nat)
    requires i < |s|
    ensures |Lower(s)| == |s|
    ensures forall k :: 0 <= k < 13 && s[i] == UPPER_A[k] ==> Lower(s)[i] == LOWER_A[k]
    ensures forall k :: 0 <= k < 13 && s[i] == UPPER_N[k] ==> Lower(s)[i] == LOWER_N[k]
    ensures s[i] !in UPPER_A && s[i] !in UPPER_N ==> Lower(s)[i] == s[i]
  {
    if 'A' <= s[i] <= 'M' {
      assert s[i] == UPPER_A[s[i] as int - 'A' as int];
    } else if 'N' <= s[i] <= 'Z' {
      assert s[i] == UPPER_N[s[i] as int - 'N' as int];
    }
  }

  /** Exactly the strings of these three letters, each in either case, have "tcp" as their lower case. */
  lemma LowerIsTcp(s: string)
    ensures Lower(s) == "tcp" <==> |s| == 3 && s[0] in "tT" && s[1] in "cC" && s[2] in "pP"
  {
    if |s| == 3 {
      LowerExact(s, 0);
      LowerExact(s, 1);
      LowerExact(s, 2);
    }
  }

  predicate Ascii(s: string) { forall c :: c in s ==> c as int < 0x80 }

  /** A string of ASCII characters is as long in UTF-8 as it has characters; other characters take up to four. */
  lemma {:induction false} ByteLengthBounds(s: string)
    ensures |s| <= ByteLength(s) <= 4 * |s|
    ensures ByteLength(s) == |s| <==> Ascii(s)
  {
    if s != "" {
      ByteLengthBounds(s[1..]);
      assert s[0] in s && forall c :: c in s <==> c == s[0] || c in s[1..];
    }
  }
}
