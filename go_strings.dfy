/** Go strings as byte sequences, and the parts of Go's `strings` package the core uses. */
module GoStrings {

  /** A Go `byte`. */
  type byte = b: int | 0 <= b < 0x100

  /** A Go `string`: an immutable sequence of bytes, by convention UTF-8. `len(s)` is `|s|`. */
  type GoString = seq<byte>

  const Newline: byte := 10

  /** The UTF-8 encoding of one Unicode scalar value: how Go stores a rune of a literal. */
  function EncodeRune(c: char): (r: GoString)
    ensures 1 <= |r| <= 4
    ensures (c as int < 0x80) <==> |r| == 1
    ensures |r| == 1 ==> r[0] == c as int
    ensures |r| == 3 <==> 0x800 <= c as int < 0x10000
    ensures r[0] < 0x80 || 0xC0 <= r[0]
    ensures forall i :: 1 <= i < |r| ==> 0x80 <= r[i] < 0xC0
  {
    var n := c as int;
    if n < 0x80 then [n]
    else if n < 0x800 then [0xC0 + n / 0x40, 0x80 + n % 0x40]
    else if n < 0x10000 then [0xE0 + n / 0x1000, 0x80 + n / 0x40 % 0x40, 0x80 + n % 0x40]
    else [0xF0 + n / 0x40000, 0x80 + n / 0x1000 % 0x40, 0x80 + n / 0x40 % 0x40, 0x80 + n % 0x40]
  }

  /** The bytes of a Go string literal written with the characters `s`, one rune after another. */
  function Utf8(s: string): (r: GoString)
    ensures |r| >= |s|
  {
    if s == [] then [] else Utf8(s[..|s| - 1]) + EncodeRune(s[|s| - 1])
  }

  /**
   * The bytes of a Go string literal written only with ASCII characters, one byte per character
   * (`AsciiIsUtf8`); it is applied to ASCII literals only.
   */
  function Ascii(s: string): (r: GoString)
    ensures |r| == |s|
  {
    if s == [] then [] else Ascii(s[..|s| - 1]) + [s[|s| - 1] as int % 0x100]
  }

  /** For ASCII text the one-byte-per-character reading and the UTF-8 encoding agree. */
  lemma {:induction false} AsciiIsUtf8(s: string)
    requires forall i :: 0 <= i < |s| ==> s[i] as int < 0x80
    ensures Ascii(s) == Utf8(s)
  {
    if s != [] {
      AsciiIsUtf8(s[..|s| - 1]);
    }
  }

  /** `unicode.IsSpace` restricted to ASCII: tab, newline, vertical tab, form feed, carriage return, space. */
  predicate IsAsciiSpace(b: byte) {
    b == 9 || b == 10 || b == 11 || b == 12 || b == 13 || b == 32
  }

  predicate AllSpace(s: GoString) {
    forall i :: 0 <= i < |s| ==> IsAsciiSpace(s[i])
  }

  /** Drops the leading white space: the result is the longest suffix of `s` not starting with a space. */
  function TrimLeftSpace(s: GoString): (r: GoString)
    ensures |r| <= |s|
    ensures forall i :: 0 <= i < |r| ==> r[i] == s[|s| - |r| + i]
    ensures forall i :: 0 <= i < |s| - |r| ==> IsAsciiSpace(s[i])
    ensures r == [] || !IsAsciiSpace(r[0])
  {
    if s != [] && IsAsciiSpace(s[0]) then
      var r := TrimLeftSpace(s[1..]);
      assert forall i :: 0 <= i < |r| ==> r[i] == s[1..][|s| - 1 - |r| + i] == s[|s| - |r| + i];
      assert forall i :: 1 <= i < |s| - |r| ==> IsAsciiSpace(s[1..][i - 1]) && s[1..][i - 1] == s[i];
      r
    else s
  }

  /** Drops the trailing white space: the result is the longest prefix of `s` not ending in a space. */
  function TrimRightSpace(s: GoString): (r: GoString)
    ensures |r| <= |s|
    ensures forall i :: 0 <= i < |r| ==> r[i] == s[i]
    ensures forall i :: |r| <= i < |s| ==> IsAsciiSpace(s[i])
    ensures r == [] || !IsAsciiSpace(r[|r| - 1])
  {
    if s != [] && IsAsciiSpace(s[|s| - 1]) then TrimRightSpace(s[..|s| - 1]) else s
  }

  lemma TrimLeftEmpty(s: GoString)
    ensures TrimLeftSpace(s) == [] <==> AllSpace(s)
  {
    var left := TrimLeftSpace(s);
    if left != [] {
      assert s[|s| - |left|] == left[0];
    }
  }

  lemma TrimRightEmpty(s: GoString)
    ensures TrimRightSpace(s) == [] <==> AllSpace(s)
  {
    var right := TrimRightSpace(s);
    if right != [] {
      assert s[0] == right[0];
    }
  }

  /** `s` is `r` with the white space `s[..k]` before it and white space after it. */
  predicate Padded(s: GoString, r: GoString, k: int) {
    0 <= k && k + |r| <= |s| && r == s[k..k + |r|] && AllSpace(s[..k]) && AllSpace(s[k + |r|..])
  }

  /** `strings.TrimSpace`: drops leading and trailing white space. */
  function TrimSpace(s: GoString): (r: GoString)
    ensures r == [] <==> AllSpace(s)
    ensures r == [] || (!IsAsciiSpace(r[0]) && !IsAsciiSpace(r[|r| - 1]))
  {
    TrimBothEmpty(s);
    TrimBothEnds(s);
    TrimRightSpace(TrimLeftSpace(s))
  }

  /** What `strings.TrimSpace` returns is the middle of its input: only white space is dropped, on either side. */
  lemma TrimSpaceMiddle(s: GoString)
    ensures exists k :: Padded(s, TrimSpace(s), k)
  {
    PaddedTrim(s);
    assert Padded(s, TrimSpace(s), |s| - |TrimLeftSpace(s)|);
  }

  lemma PaddedTrim(s: GoString)
    ensures Padded(s, TrimRightSpace(TrimLeftSpace(s)), |s| - |TrimLeftSpace(s)|)
  {
    var left := TrimLeftSpace(s);
    TrimLeftSuffix(s);
    TrimLeftDropped(s);
    TrimRightPrefix(left);
    TrimRightDropped(left);
    PaddedOfParts(s, left, TrimRightSpace(left), |s| - |left|);
  }

  lemma TrimLeftSuffix(s: GoString)
    ensures TrimLeftSpace(s) == s[|s| - |TrimLeftSpace(s)|..]
  {
    var left := TrimLeftSpace(s);
    assert forall i :: 0 <= i < |left| ==> left[i] == s[|s| - |left|..][i];
  }

  lemma TrimLeftDropped(s: GoString)
    ensures AllSpace(s[..|s| - |TrimLeftSpace(s)|])
  {
    var k := |s| - |TrimLeftSpace(s)|;
    assert forall i :: 0 <= i < k ==> s[..k][i] == s[i];
  }

  lemma TrimRightPrefix(s: GoString)
    ensures TrimRightSpace(s) == s[..|TrimRightSpace(s)|]
  {
    var right := TrimRightSpace(s);
    assert forall i :: 0 <= i < |right| ==> right[i] == s[..|right|][i];
  }

  lemma TrimRightDropped(s: GoString)
    ensures AllSpace(s[|TrimRightSpace(s)|..])
  {
    var n := |TrimRightSpace(s)|;
    assert forall i :: 0 <= i < |s| - n ==> s[n..][i] == s[n + i];
  }

  /** A prefix `r` of the suffix `left` of `s` from `k` on, with white space around it, is padded in `s`. */
  lemma PaddedOfParts(s: GoString, left: GoString, r: GoString, k: int)
    requires 0 <= k <= |s| && left == s[k..] && |r| <= |left| && r == left[..|r|]
    requires AllSpace(s[..k]) && AllSpace(left[|r|..])
    ensures Padded(s, r, k)
  {
    assert s[k + |r|..] == left[|r|..];
  }

  lemma TrimBothEmpty(s: GoString)
    ensures TrimRightSpace(TrimLeftSpace(s)) == [] <==> AllSpace(s)
  {
    TrimLeftEmpty(s);
    TrimRightEmpty(TrimLeftSpace(s));
  }

  lemma TrimBothEnds(s: GoString)
    ensures var r := TrimRightSpace(TrimLeftSpace(s));
            r == [] || (!IsAsciiSpace(r[0]) && !IsAsciiSpace(r[|r| - 1]))
  {
    var left := TrimLeftSpace(s);
    var r := TrimRightSpace(left);
    if r != [] {
      assert r[0] == left[0];
    }
  }

  /** `unicode.ToLower` on one ASCII byte. */
  function LowerByte(b: byte): byte {
    if 'A' as int <= b <= 'Z' as int then b + 0x20 else b
  }

  predicate IsLower(s: GoString) {
    forall i :: 0 <= i < |s| ==> LowerByte(s[i]) == s[i]
  }

  /** `strings.ToLower` over ASCII: every upper-case letter is replaced by its lower-case form. */
  function ToLower(s: GoString): (r: GoString)
    ensures |r| == |s|
    ensures forall i :: 0 <= i < |s| ==> r[i] == LowerByte(s[i])
  {
    seq(|s|, i requires 0 <= i < |s| => LowerByte(s[i]))
  }

  /** `strings.HasPrefix`. */
  predicate HasPrefix(s: GoString, prefix: GoString) {
    prefix <= s
  }

  /** `strings.TrimPrefix`: removes one leading occurrence of `prefix`, if any. */
  function TrimPrefix(s: GoString, prefix: GoString): (r: GoString)
    ensures HasPrefix(s, prefix) ==> prefix + r == s
    ensures !HasPrefix(s, prefix) ==> r == s
  {
    if HasPrefix(s, prefix) then s[|prefix|..] else s
  }

  /** `sub` occurs in `s` starting at byte offset `i`. */
  predicate OccursAt(s: GoString, sub: GoString, i: int) {
    0 <= i <= |s| && sub <= s[i..]
  }

  /** `strings.Contains`. */
  function Contains(s: GoString, sub: GoString): (r: bool)
    ensures r <==> exists i :: OccursAt(s, sub, i)
    decreases |s|
  {
    if sub <= s then
      assert OccursAt(s, sub, 0);
      true
    else if s == [] then
      assert forall i :: OccursAt(s, sub, i) ==> i == 0;
      false
    else
      var r := Contains(s[1..], sub);
      assert forall i :: OccursAt(s[1..], sub, i) <==> OccursAt(s, sub, i + 1) by {
        forall i ensures OccursAt(s[1..], sub, i) <==> OccursAt(s, sub, i + 1) {
          if 0 <= i <= |s| - 1 { assert s[1..][i..] == s[i + 1..]; }
        }
      }
      assert forall i :: OccursAt(s, sub, i) ==> i == 0 || OccursAt(s[1..], sub, i - 1);
      r
  }

  /** `strings.TrimRight(s, "\n")`: drops every trailing newline byte. */
  function TrimRightNewlines(s: GoString): (r: GoString)
    ensures r <= s
    ensures forall i :: |r| <= i < |s| ==> s[i] == Newline
    ensures r == [] || r[|r| - 1] != Newline
  {
    if s != [] && s[|s| - 1] == Newline then TrimRightNewlines(s[..|s| - 1]) else s
  }

  /** Concatenation of a sequence of strings, in order. */
  function Flatten(ss: seq<GoString>): (r: GoString)
    ensures |ss| == 1 ==> r == ss[0]
  {
    if ss == [] then [] else Flatten(ss[..|ss| - 1]) + ss[|ss| - 1]
  }

  lemma {:induction false} FlattenAppend(a: seq<GoString>, b: seq<GoString>)
    ensures Flatten(a + b) == Flatten(a) + Flatten(b)
    decreases |b|
  {
    if b == [] {
      assert a + b == a;
    } else {
      assert (a + b)[..|a + b| - 1] == a + b[..|b| - 1];
      FlattenAppend(a, b[..|b| - 1]);
    }
  }

  /** `strings.TrimSpace` ignores any white space added around a string. */
  lemma TrimSpacePadding(left: GoString, s: GoString, right: GoString)
    requires AllSpace(left) && AllSpace(right)
    ensures TrimSpace(left + s + right) == TrimSpace(s)
  {
    var t := s + right;
    assert left + s + right == left + t;
    TrimLeftPadding(left, t);
    TrimLeftAppend(s, right);
    if TrimLeftSpace(s) == [] {
      assert AllSpace(t);
      assert TrimLeftSpace(t) == [];
    } else {
      TrimRightPadding(TrimLeftSpace(s), right);
    }
  }

  lemma {:induction false} TrimLeftPadding(left: GoString, s: GoString)
    requires AllSpace(left)
    ensures TrimLeftSpace(left + s) == TrimLeftSpace(s)
    decreases |left|
  {
    if left != [] {
      assert (left + s)[1..] == left[1..] + s;
      TrimLeftPadding(left[1..], s);
    } else {
      assert left + s == s;
    }
  }

  lemma {:induction false} TrimLeftAppend(s: GoString, right: GoString)
    ensures TrimLeftSpace(s) != [] ==> TrimLeftSpace(s + right) == TrimLeftSpace(s) + right
    ensures TrimLeftSpace(s) == [] ==> AllSpace(s)
    decreases |s|
  {
    if s != [] && IsAsciiSpace(s[0]) {
      assert (s + right)[1..] == s[1..] + right;
      TrimLeftAppend(s[1..], right);
    } else if s == [] {
    }
  }

  lemma {:induction false} TrimRightPadding(s: GoString, right: GoString)
    requires AllSpace(right)
    ensures TrimRightSpace(s + right) == TrimRightSpace(s)
    decreases |right|
  {
    if right != [] {
      assert (s + right)[..|s + right| - 1] == s + right[..|right| - 1];
      TrimRightPadding(s, right[..|right| - 1]);
    } else {
      assert s + right == s;
    }
  }

  lemma {:induction false} TrimRightAllSpace(s: GoString)
    requires AllSpace(s)
    ensures TrimRightSpace(s) == []
    decreases |s|
  {
    if s != [] {
      TrimRightAllSpace(s[..|s| - 1]);
    }
  }

  /** White space is not a letter, so trimming and lower-casing commute. */
  lemma TrimSpaceToLower(s: GoString)
    ensures TrimSpace(ToLower(s)) == ToLower(TrimSpace(s))
  {
    TrimLeftToLower(s);
    TrimRightToLower(TrimLeftSpace(s));
  }

  lemma {:induction false} TrimLeftToLower(s: GoString)
    ensures TrimLeftSpace(ToLower(s)) == ToLower(TrimLeftSpace(s))
    decreases |s|
  {
    if s != [] {
      var t := ToLower(s);
      assert t[1..] == ToLower(s[1..]);
      assert IsAsciiSpace(t[0]) == IsAsciiSpace(s[0]);
      if IsAsciiSpace(s[0]) {
        TrimLeftToLower(s[1..]);
      }
    }
  }

  lemma {:induction false} TrimRightToLower(s: GoString)
    ensures TrimRightSpace(ToLower(s)) == ToLower(TrimRightSpace(s))
    decreases |s|
  {
    if s != [] {
      var t := ToLower(s);
      assert t[..|s| - 1] == ToLower(s[..|s| - 1]);
      assert IsAsciiSpace(t[|s| - 1]) == IsAsciiSpace(s[|s| - 1]);
      if IsAsciiSpace(s[|s| - 1]) {
        TrimRightToLower(s[..|s| - 1]);
      }
    }
  }

  /** `s` has no upper-case ASCII letter; checked byte by byte so that literal names are decided directly. */
  predicate NoUpper(s: GoString) {
    NoUpperFrom(s, 0)
  }

  predicate NoUpperFrom(s: GoString, i: nat)
    decreases |s| - i
  {
    i >= |s| || (LowerByte(s[i]) == s[i] && NoUpperFrom(s, i + 1))
  }

  lemma {:induction false} NoUpperFromIsLower(s: GoString, i: nat)
    requires NoUpperFrom(s, i)
    ensures forall j :: i <= j < |s| ==> LowerByte(s[j]) == s[j]
    decreases |s| - i
  {
    if i < |s| {
      NoUpperFromIsLower(s, i + 1);
    }
  }

  lemma {:induction false} LowerIsNoUpperFrom(s: GoString, i: nat)
    requires forall j :: i <= j < |s| ==> LowerByte(s[j]) == s[j]
    ensures NoUpperFrom(s, i)
    decreases |s| - i
  {
    if i < |s| {
      LowerIsNoUpperFrom(s, i + 1);
    }
  }

  lemma NoUpperAppend(a: GoString, b: GoString)
    requires NoUpper(a) && NoUpper(b)
    ensures NoUpper(a + b)
  {
    NoUpperFromIsLower(a, 0);
    NoUpperFromIsLower(b, 0);
    LowerIsNoUpperFrom(a + b, 0);
  }

  /** A string without upper-case letters and without white space at either end is its own normal form. */
  lemma {:induction false} NormalFormUnchanged(s: GoString)
    requires NoUpper(s)
    requires s != [] ==> !IsAsciiSpace(s[0]) && !IsAsciiSpace(s[|s| - 1])
    ensures ToLower(TrimSpace(s)) == s
  {
    NoUpperIsLower(s);
  }

  lemma NoUpperIsLower(s: GoString)
    requires NoUpper(s)
    ensures ToLower(s) == s
  {
    NoUpperFromIsLower(s, 0);
  }

  /** Lower-casing twice is lower-casing once. */
  lemma ToLowerIdempotent(s: GoString)
    ensures ToLower(ToLower(s)) == ToLower(s)
    ensures IsLower(ToLower(s))
  {
  }
}
