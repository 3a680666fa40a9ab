/**
 * The string operations the handlers rely on: Python's `str.upper()`
 * (restricted to ASCII letters), `str.strip()` with no argument, and the
 * substring test `needle in hay`.
 */
module Text {

  /** Upper-cases an ASCII letter and leaves every other character alone. */
  function UpperChar(c: char): char {
    if 'a' <= c <= 'z' then (c as int - 32) as char else c
  }

  /**
   * `s.upper()`, ASCII letters only: each lower-case letter becomes its
   * upper-case partner (32 code points below), every other character stays,
   * and no lower-case ASCII letter is left.
   */
  function Upper(s: string): (r: string)
    ensures |r| == |s|
    ensures forall i :: 0 <= i < |s| && 'a' <= s[i] <= 'z' ==> r[i] as int == s[i] as int - 32
    ensures forall i :: 0 <= i < |s| && !('a' <= s[i] <= 'z') ==> r[i] == s[i]
    ensures forall i :: 0 <= i < |r| ==> !('a' <= r[i] <= 'z')
  {
    seq(|s|, i requires 0 <= i < |s| => UpperChar(s[i]))
  }

  /** The characters for which Python's `str.isspace()` holds. */
  predicate IsSpace(c: char) {
    var n := c as int;
    || n == 0x20 || 0x09 <= n <= 0x0D || 0x1C <= n <= 0x1F
    || n == 0x85 || n == 0xA0 || n == 0x1680 || 0x2000 <= n <= 0x200A
    || n == 0x2028 || n == 0x2029 || n == 0x202F || n == 0x205F || n == 0x3000
  }

  /** Drops leading whitespace. */
  function TrimLeft(s: string): string {
    if s != [] && IsSpace(s[0]) then TrimLeft(s[1..]) else s
  }

  /** Drops trailing whitespace. */
  function TrimRight(s: string): string {
    if s != [] && IsSpace(s[|s| - 1]) then TrimRight(s[..|s| - 1]) else s
  }

  /** `s.strip()`: drops leading and trailing whitespace; the result neither starts nor ends with it. */
  function Strip(s: string): (r: string)
    ensures |r| <= |s|
    ensures r == [] || (!IsSpace(r[0]) && !IsSpace(r[|r| - 1]))
  {
    TrimEnds(s);
    TrimRight(TrimLeft(s))
  }

  lemma {:induction false} TrimLeftSpec(s: string) returns (i: nat)
    ensures i <= |s| && TrimLeft(s) == s[i..]
    ensures forall k :: 0 <= k < i ==> IsSpace(s[k])
    ensures i < |s| ==> !IsSpace(s[i])
  {
    if s != [] && IsSpace(s[0]) {
      var i' := TrimLeftSpec(s[1..]);
      i := i' + 1;
      assert s[1..][i'..] == s[i..];
    } else {
      i := 0;
    }
  }

  lemma {:induction false} TrimRightSpec(s: string) returns (j: nat)
    ensures j <= |s| && TrimRight(s) == s[..j]
    ensures forall k :: j <= k < |s| ==> IsSpace(s[k])
    ensures 0 < j ==> !IsSpace(s[j - 1])
  {
    if s != [] && IsSpace(s[|s| - 1]) {
      j := TrimRightSpec(s[..|s| - 1]);
      assert s[..|s| - 1][..j] == s[..j];
    } else {
      j := |s|;
    }
  }

  /** Trimming both ends never lengthens a string and leaves no whitespace at either end. */
  lemma TrimEnds(s: string)
    ensures |TrimRight(TrimLeft(s))| <= |s|
    ensures var r := TrimRight(TrimLeft(s)); r == [] || (!IsSpace(r[0]) && !IsSpace(r[|r| - 1]))
  {
    var i := TrimLeftSpec(s);
    var j := TrimRightSpec(s[i..]);
  }

  /**
   * `s.strip()` is the slice `s[i..j]` obtained by cutting off a whitespace
   * prefix and a whitespace suffix, and what remains neither begins nor ends
   * with whitespace.
   */
  lemma StripSpec(s: string) returns (i: nat, j: nat)
    ensures i <= j <= |s| && Strip(s) == s[i..j]
    ensures forall k :: 0 <= k < i ==> IsSpace(s[k])
    ensures forall k :: j <= k < |s| ==> IsSpace(s[k])
    ensures i < j ==> !IsSpace(s[i]) && !IsSpace(s[j - 1])
  {
    i := TrimLeftSpec(s);
    var j' := TrimRightSpec(s[i..]);
    j := i + j';
    assert s[i..][..j'] == s[i..j];
    forall k | j <= k < |s| ensures IsSpace(s[k]) {
      assert s[k] == s[i..][k - i];
    }
  }

  /** A string strips to nothing exactly when it is all whitespace. */
  lemma StripEmptyIff(s: string)
    ensures Strip(s) == [] <==> forall k :: 0 <= k < |s| ==> IsSpace(s[k])
  {
    var i, j := StripSpec(s);
    if i < j {
      assert !IsSpace(s[i]);
    }
  }

  /** `needle` occurs in `hay` starting at index `i`. */
  ghost predicate OccursAt(needle: string, hay: string, i: int) {
    0 <= i && i + |needle| <= |hay| && hay[i..i + |needle|] == needle
  }

  /** Python's `needle in hay` for strings: `needle` is a prefix of some suffix of `hay`. */
  predicate Contains(needle: string, hay: string)
    ensures needle == [] ==> Contains(needle, hay)
    ensures hay == [] ==> (Contains(needle, hay) <==> needle == [])
    decreases |hay|
  {
    needle <= hay || (hay != [] && Contains(needle, hay[1..]))
  }

  /** A string never occurs in a shorter one. */
  lemma {:induction false} ContainsShorter(needle: string, hay: string)
    requires Contains(needle, hay)
    ensures |needle| <= |hay|
  {
    if !(needle <= hay) {
      ContainsShorter(needle, hay[1..]);
    }
  }

  /** An occurrence of `needle` at any index makes `needle in hay` hold. */
  lemma {:induction false} OccursAtContains(needle: string, hay: string, i: int)
    requires OccursAt(needle, hay, i)
    ensures Contains(needle, hay)
    decreases i
  {
    if i == 0 {
      assert hay[..|needle|] == needle;
    } else {
      assert hay[1..][i - 1..i - 1 + |needle|] == hay[i..i + |needle|];
      OccursAtContains(needle, hay[1..], i - 1);
    }
  }

  /** When `needle in hay` holds, `needle` occurs in `hay` at index `i`. */
  lemma {:induction false} ContainsOccursAt(needle: string, hay: string) returns (i: int)
    requires Contains(needle, hay)
    ensures OccursAt(needle, hay, i)
    decreases |hay|
  {
    if needle <= hay {
      i := 0;
      assert hay[0..|needle|] == needle;
    } else {
      var i' := ContainsOccursAt(needle, hay[1..]);
      i := i' + 1;
      assert hay[1..][i'..i' + |needle|] == hay[i..i + |needle|];
    }
  }

  /** `needle in hay` holds exactly when `needle` occurs in `hay` at some index. */
  lemma ContainsIff(needle: string, hay: string)
    ensures Contains(needle, hay) <==> exists i :: OccursAt(needle, hay, i)
  {
    if Contains(needle, hay) {
      var i := ContainsOccursAt(needle, hay);
    }
    if i :| OccursAt(needle, hay, i) {
      OccursAtContains(needle, hay, i);
    }
  }
}
