/** What the printer, the decoder of values and the comparison of keys mean to each
    other, and where the last two read a text alike. */
module JsonAgreement {
  import opened Basics
  import opened JsonEscape

  /** Sound against the reader: a raw key that compares equal to `key` decodes
      to `key`. */
  lemma {:induction false} StrictAgreesWithUnescape(s: string, i: nat, e: nat, key: string)
    requires i <= e <= |s| && '\0' !in key
    requires StrictUnescape(s, i, e) == Some(key)
    ensures Unescape(s, i, e) == key
    decreases e - i
  {
    if i < e {
      var p := StrictPiece(s, i, e).value;
      var rest := StrictUnescape(s, p.next, e).value;
      assert forall c | c in rest :: c in key;
      StrictAgreesWithUnescape(s, p.next, e, rest);
      assert p.out[0] in key;
      assert DecodePiece(s, i, e) == p;
    }
  }

  /** Complete on printed text: the escaped form of any text compares equal to it. */
  lemma {:induction false} StrictUnescapesEscape(s: string, i: nat, t: string)
    requires At(s, i, Escape(t))
    ensures StrictUnescape(s, i, i + |Escape(t)|) == Some(t)
    decreases |t|
  {
    hide StrictPiece, EscapeChar, At;
    AtEscape(s, i, t);
    if t != "" {
      var a, e := EscapeChar(t[0]), i + |Escape(t)|;
      StrictPieceOfEscapeChar(s, i, e, t[0]);
      StrictUnescapesEscape(s, i + |a|, t[1..]);
      assert t == [t[0]] + t[1..];
    }
  }

  lemma AtEscape(s: string, i: nat, t: string)
    requires At(s, i, Escape(t))
    ensures i + |Escape(t)| <= |s|
    ensures t != "" ==> At(s, i, EscapeChar(t[0])) && At(s, i + |EscapeChar(t[0])|, Escape(t[1..]))
  {
    hide EscapeChar;
    if t != "" {
      AtSplit(s, i, EscapeChar(t[0]), Escape(t[1..]));
    }
  }

  lemma StrictPieceOfEscapeChar(s: string, i: nat, e: nat, c: char)
    requires At(s, i, EscapeChar(c)) && i + |EscapeChar(c)| <= e <= |s|
    ensures StrictPiece(s, i, e) == Some(Piece([c], i + |EscapeChar(c)|))
  {
    var a := EscapeChar(c);
    assert forall k | 0 <= k < |a| :: s[i + k] == a[k] by {
      forall k | 0 <= k < |a| ensures s[i + k] == a[k] {
        AtIndex(s, i, a, k);
      }
    }
    assert s[i + 0] == a[0];
    if |a| > 1 {
      assert s[i + 1] == a[1];
    }
    if |a| == 6 {
      assert s[i + 2] == '0' && s[i + 3] == '0' && s[i + 4] == a[4] && s[i + 5] == a[5];
      assert Hex4(s, i + 2, e) == Some(c as int);
    }
  }

  /** Reading back what the printer wrote gives the text printed, for every text
      a C string can hold. */
  lemma UnescapeInvertsEscape(s: string, i: nat, t: string)
    requires At(s, i, Escape(t)) && '\0' !in t
    ensures Unescape(s, i, i + |Escape(t)|) == t
  {
    StrictUnescapesEscape(s, i, t);
    StrictAgreesWithUnescape(s, i, i + |Escape(t)|, t);
  }

  /** On printed keys the comparison is exactly equality, so escaping is injective. */
  lemma PrintedKeysCompareAsKeys(s: string, i: nat, k: string, key: string)
    requires At(s, i, Escape(k))
    ensures StrictUnescape(s, i, i + |Escape(k)|) == Some(key) <==> k == key
  {
    StrictUnescapesEscape(s, i, k);
  }

  predicate IsUnicodeEscape(s: string, i: nat, e: nat, cp: nat) {
    i + 6 <= e <= |s| && s[i] == '\\' && s[i + 1] == 'u' && Hex4(s, i + 2, e) == Some(cp)
  }

  /** A `\u` escape decodes to the UTF-8 form of the scalar value it names; a
      lone surrogate and NUL decode to U+FFFD. */
  lemma UnicodeEscapeMeaning(s: string, i: nat, e: nat, cp: nat)
    requires IsUnicodeEscape(s, i, e, cp)
    requires !(0xD800 <= cp <= 0xDBFF && LowHalf(s, i + 6, e).Some?)
    ensures DecodePiece(s, i, e).next == i + 6
    ensures Utf8Meaning(DecodePiece(s, i, e).out)
         == Some(if IsScalarValue(cp) && cp != 0 then cp else 0xFFFD)
  {
    var v := if IsScalarValue(cp) && cp != 0 then cp else 0xFFFD;
    assert DecodePiece(s, i, e) == Piece(Utf8(v), i + 6);
    hide DecodePiece, Hex4, LowHalf;
    Utf8EncodeIsUtf8(v, Utf8(v));
  }

  /** A surrogate pair decodes to the UTF-8 form of the one scalar value whose
      UTF-16 halves it spells. */
  lemma SurrogatePairMeaning(s: string, i: nat, e: nat, high: nat, low: nat)
    requires IsUnicodeEscape(s, i, e, high) && 0xD800 <= high <= 0xDBFF
    requires LowHalf(s, i + 6, e) == Some(low)
    ensures DecodePiece(s, i, e).next == i + 12
    ensures match Utf8Meaning(DecodePiece(s, i, e).out)
            case None => false
            case Some(v) => v >= 0x10000 && high == 0xD800 + (v - 0x10000) / 0x400
                            && low == 0xDC00 + (v - 0x10000) % 0x400
  {
    var v := FromSurrogates(high, low);
    assert DecodePiece(s, i, e) == Piece(Utf8(v), i + 12);
    hide DecodePiece, Hex4, LowHalf;
    Utf8EncodeIsUtf8(v, Utf8(v));
  }

  // ---- Where keys and values agree ----

  /** A backslash and one of these are a two-character escape. */
  predicate IsShortEscape(c: char) {
    c in ['"', '\\', '/', 'b', 'f', 'n', 'r', 't']
  }

  predicate IsHex(c: char) {
    '0' <= c <= '9' || 'a' <= c <= 'f' || 'A' <= c <= 'F'
  }

  /** The four characters at `i` are hex digits, not all of them zero, and not
      those of a surrogate half. */
  predicate NamesCharacter(s: string, i: nat, e: nat)
    requires e <= |s|
  {
    && i + 4 <= e && IsHex(s[i]) && IsHex(s[i + 1]) && IsHex(s[i + 2]) && IsHex(s[i + 3])
    && !(s[i] == '0' && s[i + 1] == '0' && s[i + 2] == '0' && s[i + 3] == '0')
    && !((s[i] == 'd' || s[i] == 'D') && s[i + 1] >= '8')
  }

  /** Every backslash between `i` and `e` starts one of the eight two-character
      escapes, or `\u` with the four digits of a character. */
  predicate HasPlainEscapes(s: string, i: nat, e: nat)
    requires i <= e <= |s|
    decreases e - i
  {
    if i == e then true
    else if s[i] != '\\' then HasPlainEscapes(s, i + 1, e)
    else if i + 1 == e then false
    else if s[i + 1] == 'u' then NamesCharacter(s, i + 2, e) && HasPlainEscapes(s, i + 6, e)
    else IsShortEscape(s[i + 1]) && HasPlainEscapes(s, i + 2, e)
  }

  lemma CharacterByItsDigits(s: string, i: nat, e: nat)
    requires e <= |s|
    ensures NamesCharacter(s, i, e) <==>
              Hex4(s, i, e).Some? && IsScalarValue(Hex4(s, i, e).value) && Hex4(s, i, e).value != 0
  {
    hide HexValue, IsHex;
    if i + 4 <= e {
      HexCharacter(s[i]);
      HexCharacter(s[i + 1]);
      HexCharacter(s[i + 2]);
      HexCharacter(s[i + 3]);
      if Hex4(s, i, e).Some? {
        FourDigits(HexValue(s[i]).value, HexValue(s[i + 1]).value, HexValue(s[i + 2]).value, HexValue(s[i + 3]).value);
      }
    }
  }

  lemma HexCharacter(c: char)
    ensures IsHex(c) <==> HexValue(c).Some?
    ensures HexValue(c).Some? ==> (HexValue(c).value == 0 <==> c == '0')
    ensures HexValue(c).Some? ==> (HexValue(c).value == 13 <==> c == 'd' || c == 'D')
    ensures HexValue(c).Some? ==> (HexValue(c).value >= 8 <==> c >= '8')
  {
  }

  lemma FourDigits(a: nat, b: nat, c: nat, d: nat)
    requires a < 16 && b < 16 && c < 16 && d < 16
    ensures var v := ((a * 16 + b) * 16 + c) * 16 + d;
            && (v == 0 <==> a == 0 && b == 0 && c == 0 && d == 0)
            && (IsSurrogate(v) <==> a == 13 && b >= 8) && v <= 0x10FFFF
  {
  }

  /** Where the piece at `i` is plain, both readings are the same; where it is not,
      the comparison refuses it or reads a NUL. */
  lemma PiecesAgree(s: string, i: nat, e: nat)
    requires i < e <= |s| && '\0' !in s
    ensures var p := DecodePiece(s, i, e);
            var plain := s[i] != '\\'
                         || (i + 1 < e && if s[i + 1] == 'u' then NamesCharacter(s, i + 2, e)
                                          else IsShortEscape(s[i + 1]));
            && (plain ==> StrictPiece(s, i, e) == Some(p)
                          && p.next == if s[i] != '\\' then i + 1 else if s[i + 1] == 'u' then i + 6 else i + 2)
            && (!plain ==> StrictPiece(s, i, e) == None || '\0' in StrictPiece(s, i, e).value.out)
  {
    hide NamesCharacter, Hex4, Utf8Encode, SimpleEscape, DecodeUnicode, Utf8;
    if s[i] == '\\' && i + 1 < e {
      if s[i + 1] == 'u' {
        CharacterByItsDigits(s, i + 2, e);
        UnicodePiecesAgree(s, i + 2, e);
      } else {
        EightEscapes(s[i + 1]);
      }
    }
  }

  lemma EightEscapes(c: char)
    requires c != 'u'
    ensures SimpleEscape(c).Some? <==> IsShortEscape(c)
  {
  }

  lemma UnicodePiecesAgree(s: string, i: nat, e: nat)
    requires 2 <= i <= e <= |s|
    ensures match Hex4(s, i, e)
            case None => true
            case Some(cp) =>
              && (cp != 0 && IsScalarValue(cp) ==>
                    Utf8Encode(cp).Some? && DecodeUnicode(s, i, e) == Piece(Utf8Encode(cp).value, i + 4))
              && (cp == 0 ==> Utf8Encode(cp).Some? && '\0' in Utf8Encode(cp).value)
              && (!IsScalarValue(cp) ==> Utf8Encode(cp) == None)
  {
    hide Hex4, LowHalf;
  }

  /** The key comparison and the decoder read a text alike exactly when all its
      escapes are plain. */
  lemma {:induction false} ReadingsAgreeExactly(s: string, i: nat, e: nat)
    requires i <= e <= |s| && '\0' !in s
    ensures StrictUnescape(s, i, e) == Some(Unescape(s, i, e)) <==> HasPlainEscapes(s, i, e)
    decreases e - i
  {
    hide StrictPiece, DecodePiece, NamesCharacter;
    if i < e {
      PiecesAgree(s, i, e);
      var p := DecodePiece(s, i, e);
      if StrictPiece(s, i, e) == Some(p) {
        ReadingsAgreeExactly(s, p.next, e);
        SamePrefix(p.out, Unescape(s, p.next, e), StrictUnescape(s, p.next, e));
      }
    }
  }

  lemma SamePrefix(a: string, b: string, c: Option<string>)
    ensures c.Some? ==> (a + b == a + c.value <==> b == c.value)
  {
    if c.Some? && a + b == a + c.value {
      assert b == (a + b)[|a|..] && c.value == (a + c.value)[|a|..];
    }
  }

  /** So a raw key is found under `key` exactly when it decodes to `key` and is
      written with plain escapes. */
  lemma KeyMatchesExactly(s: string, i: nat, e: nat, key: string)
    requires i <= e <= |s| && '\0' !in s && '\0' !in key
    ensures StrictUnescape(s, i, e) == Some(key) <==> Unescape(s, i, e) == key && HasPlainEscapes(s, i, e)
  {
    ReadingsAgreeExactly(s, i, e);
    if StrictUnescape(s, i, e) == Some(key) {
      StrictAgreesWithUnescape(s, i, e, key);
    }
  }

  // Each of these texts decodes, and compares equal to no key a C string can hold.

  lemma SurrogatePairIsNoKey(key: string)
    ensures Unescape("\\ud83d\\ude00", 0, 12) == Utf8(0x1F600)
    ensures StrictUnescape("\\ud83d\\ude00", 0, 12) != Some(key)
  {
    var s := "\\ud83d\\ude00";
    assert Hex4(s, 2, 12) == Some(0xD83D);
    assert Hex4(s, 8, 12) == Some(0xDE00);
    assert DecodePiece(s, 0, 12) == Piece(Utf8(0x1F600), 12);
    assert Unescape(s, 0, 12) == Utf8(0x1F600) + Unescape(s, 12, 12);
  }

  lemma UnknownEscapeIsNoKey(key: string)
    ensures Unescape("\\q", 0, 2) == "\\q" && StrictUnescape("\\q", 0, 2) != Some(key)
  {
    assert Unescape("\\q", 0, 2) == "\\q" + Unescape("\\q", 2, 2);
  }

  lemma ShortEscapeIsNoKey(key: string)
    ensures Unescape("\\u12", 0, 4) == "\\u12" && StrictUnescape("\\u12", 0, 4) != Some(key)
  {
    var s := "\\u12";
    assert DecodePiece(s, 0, 4) == Piece("\\u", 2);
    assert Unescape(s, 4, 4) == "";
    assert Unescape(s, 3, 4) == [s[3]] + Unescape(s, 4, 4);
    assert Unescape(s, 2, 4) == [s[2]] + Unescape(s, 3, 4);
    assert Unescape(s, 0, 4) == "\\u" + Unescape(s, 2, 4);
  }

  lemma LoneSurrogateIsNoKey(key: string)
    ensures Unescape("\\ud800", 0, 6) == Utf8(REPLACEMENT) && StrictUnescape("\\ud800", 0, 6) != Some(key)
  {
    assert Hex4("\\ud800", 2, 6) == Some(0xD800);
    assert Unescape("\\ud800", 0, 6) == Utf8(REPLACEMENT) + Unescape("\\ud800", 6, 6);
  }

  lemma EscapedNulIsNoKey(key: string)
    ensures Unescape("\\u0000", 0, 6) == Utf8(REPLACEMENT)
    ensures '\0' !in key ==> StrictUnescape("\\u0000", 0, 6) != Some(key)
  {
    hide Utf8;
    assert Hex4("\\u0000", 2, 6) == Some(0);
    assert Unescape("\\u0000", 0, 6) == Utf8(REPLACEMENT) + Unescape("\\u0000", 6, 6);
    if '\0' !in key {
      KeyMatchesExactly("\\u0000", 0, 6, key);
    }
  }
}
