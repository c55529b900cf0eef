/** Go's `html.EscapeString` and, for the entities it produces, `html.UnescapeString`. */
module Html {
  import opened GoStrings

  const Ampersand: byte := 38
  const Apostrophe: byte := 39
  const LessThan: byte := 60
  const GreaterThan: byte := 62
  const Quote: byte := 34

  const AmpEntity: GoString := [38, 97, 109, 112, 59]  // "&amp;"
  const AposEntity: GoString := [38, 35, 51, 57, 59]  // "&#39;"
  const LtEntity: GoString := [38, 108, 116, 59]  // "&lt;"
  const GtEntity: GoString := [38, 103, 116, 59]  // "&gt;"
  const QuotEntity: GoString := [38, 35, 51, 52, 59]  // "&#34;"

  /** No byte that markup could take for structure, other than `&`. */
  predicate NoMarkup(s: GoString) {
    forall i :: 0 <= i < |s| ==> s[i] != LessThan && s[i] != GreaterThan && s[i] != Quote && s[i] != Apostrophe
  }

  /** The five bytes `html.EscapeString` rewrites. */
  predicate IsSpecial(b: byte) {
    b == Ampersand || b == Apostrophe || b == LessThan || b == GreaterThan || b == Quote
  }

  /** The entity `html.EscapeString` writes for a special byte. */
  function Entity(b: byte): (r: GoString)
    requires IsSpecial(b)
    ensures 4 <= |r| <= 5 && r[0] == Ampersand && r[|r| - 1] == ';' as int
    ensures NoMarkup(r)
  {
    if b == Ampersand then AmpEntity
    else if b == Apostrophe then AposEntity
    else if b == LessThan then LtEntity
    else if b == GreaterThan then GtEntity
    else QuotEntity
  }

  function EscapeByte(b: byte): (r: GoString) {
    if IsSpecial(b) then Entity(b) else [b]
  }

  /** `html.EscapeString`: each of `& ' < > "` becomes its entity, every other byte is kept. */
  function Escape(s: GoString): (r: GoString)
    ensures |r| >= |s|
    ensures NoMarkup(r)
    ensures (forall i :: 0 <= i < |s| ==> !IsSpecial(s[i])) ==> r == s
  {
    if s == [] then []
    else
      var head, tail := EscapeByte(s[0]), Escape(s[1..]);
      assert NoMarkup(head + tail) by {
        forall i | 0 <= i < |head + tail|
          ensures (head + tail)[i] != LessThan && (head + tail)[i] != GreaterThan
          ensures (head + tail)[i] != Quote && (head + tail)[i] != Apostrophe
        {
          if i >= |head| { assert (head + tail)[i] == tail[i - |head|]; }
        }
      }
      head + tail
  }

  /**
   * `html.UnescapeString` for the five entities `Escape` writes: each of them becomes its byte, and
   * every other byte, including an `&` that starts none of them, is kept.
   */
  function Unescape(s: GoString): (r: GoString)
    ensures |r| <= |s|
    ensures s != [] ==> r != []
    decreases |s|
  {
    if s == [] then []
    else if AmpEntity <= s then [Ampersand] + Unescape(s[5..])
    else if AposEntity <= s then [Apostrophe] + Unescape(s[5..])
    else if LtEntity <= s then [LessThan] + Unescape(s[4..])
    else if GtEntity <= s then [GreaterThan] + Unescape(s[4..])
    else if QuotEntity <= s then [Quote] + Unescape(s[5..])
    else [s[0]] + Unescape(s[1..])
  }

  lemma UnescapeEntity(b: byte, rest: GoString)
    requires IsSpecial(b)
    ensures Unescape(Entity(b) + rest) == [b] + Unescape(rest)
  {
    var e := Entity(b);
    var s := e + rest;
    assert s[|e|..] == rest;
    assert e <= s;
    assert s[1] == e[1] && s[2] == e[2];
    assert AmpEntity[1] == 'a' as int && AposEntity[1] == '#' as int && AposEntity[2] == '3' as int;
    assert LtEntity[1] == 'l' as int && GtEntity[1] == 'g' as int && QuotEntity[2] == '3' as int;
    assert AposEntity[3] == '9' as int && QuotEntity[3] == '4' as int;
    if b == Quote {
      assert s[3] == e[3];
    }
  }

  lemma UnescapeHead(b: byte, rest: GoString)
    requires b != Ampersand
    ensures Unescape([b] + rest) == [b] + Unescape(rest)
  {
    assert ([b] + rest)[1..] == rest;
    assert AmpEntity[0] == Ampersand && AposEntity[0] == Ampersand && QuotEntity[0] == Ampersand;
    assert LtEntity[0] == Ampersand && GtEntity[0] == Ampersand;
  }

  /** Unescaping undoes escaping: the text a request carries is recovered exactly from its escaped form. */
  lemma {:induction false} UnescapeEscape(s: GoString)
    ensures Unescape(Escape(s)) == s
  {
    if s != [] {
      var rest := Escape(s[1..]);
      assert Escape(s) == EscapeByte(s[0]) + rest;
      calc {
        Unescape(Escape(s));
        { if IsSpecial(s[0]) { UnescapeEntity(s[0], rest); } else { UnescapeHead(s[0], rest); } }
        [s[0]] + Unescape(rest);
        { UnescapeEscape(s[1..]); }
        [s[0]] + s[1..];
      }
    }
  }

  /** A text without `&` is left alone by unescaping, so the escape/unescape cycle is stable. */
  lemma {:induction false} UnescapePlain(s: GoString)
    requires forall i :: 0 <= i < |s| ==> s[i] != Ampersand
    ensures Unescape(s) == s
  {
    if s != [] {
      UnescapePlain(s[1..]);
      UnescapeHead(s[0], s[1..]);
      assert s == [s[0]] + s[1..];
    }
  }
}
