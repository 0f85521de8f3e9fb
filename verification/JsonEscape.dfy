/** String escapes: the printer, the decoder of values, the comparison of keys,
    and UTF-8. A C string is a `string` without its NUL, one character a byte. */
module JsonEscape {
  import opened Basics

  // ---- UTF-8 ----

  predicate IsSurrogate(cp: int) {
    0xD800 <= cp <= 0xDFFF
  }

  /** A Unicode scalar value. */
  predicate IsScalarValue(cp: int) {
    0 <= cp <= 0x10FFFF && !IsSurrogate(cp)
  }

  function Byte(n: int): (c: char)
    requires 0 <= n < 256
    ensures c as int == n
  {
    n as char
  }

  /** The UTF-8 form of a code point, or None where the encoder refuses. Shifts
      and masks are written as division and remainder. */
  function Utf8Encode(cp: nat): (r: Option<string>) {
    if cp <= 0x7F then
      Some([Byte(cp)])
    else if cp <= 0x7FF then
      Some([Byte(0xC0 + cp / 0x40), Byte(0x80 + cp % 0x40)])
    else if 0xD800 <= cp <= 0xDFFF then
      None
    else if cp <= 0xFFFF then
      Some([Byte(0xE0 + cp / 0x1000), Byte(0x80 + cp / 0x40 % 0x40), Byte(0x80 + cp % 0x40)])
    else if cp > 0x10FFFF then
      None
    else
      Some([Byte(0xF0 + cp / 0x40000), Byte(0x80 + cp / 0x1000 % 0x40),
            Byte(0x80 + cp / 0x40 % 0x40), Byte(0x80 + cp % 0x40)])
  }

  predicate IsTail(c: char) {
    0x80 <= c as int <= 0xBF
  }

  /** An independent reading of UTF-8, after the byte ranges of section 4 of
      RFC 3629: the scalar value a complete byte sequence stands for. */
  function Utf8Meaning(b: string): (r: Option<nat>) {
    if |b| == 1 && b[0] as int <= 0x7F then
      Some(b[0] as int)
    else if |b| == 2 && 0xC2 <= b[0] as int <= 0xDF && IsTail(b[1]) then
      Some((b[0] as int - 0xC0) * 0x40 + (b[1] as int - 0x80))
    else if |b| == 3 && IsTail(b[1]) && IsTail(b[2])
            && (|| (b[0] as int == 0xE0 && 0xA0 <= b[1] as int)
                || 0xE1 <= b[0] as int <= 0xEC
                || (b[0] as int == 0xED && b[1] as int <= 0x9F)
                || 0xEE <= b[0] as int <= 0xEF) then
      Some((b[0] as int - 0xE0) * 0x1000 + (b[1] as int - 0x80) * 0x40 + (b[2] as int - 0x80))
    else if |b| == 4 && IsTail(b[1]) && IsTail(b[2]) && IsTail(b[3])
            && (|| (b[0] as int == 0xF0 && 0x90 <= b[1] as int)
                || 0xF1 <= b[0] as int <= 0xF3
                || (b[0] as int == 0xF4 && b[1] as int <= 0x8F)) then
      Some((b[0] as int - 0xF0) * 0x40000 + (b[1] as int - 0x80) * 0x1000
           + (b[2] as int - 0x80) * 0x40 + (b[3] as int - 0x80))
    else None
  }

  /** A code point is its digits in base 64. */
  lemma Base64Digits(cp: nat)
    ensures cp == cp / 0x40 * 0x40 + cp % 0x40
    ensures cp / 0x40 == cp / 0x1000 * 0x40 + cp / 0x40 % 0x40
    ensures cp / 0x1000 == cp / 0x40000 * 0x40 + cp / 0x1000 % 0x40
  {
  }

  lemma Base64Unique(q: nat, r: nat)
    requires r < 0x40
    ensures (q * 0x40 + r) / 0x40 == q && (q * 0x40 + r) % 0x40 == r
  {
  }

  lemma MeaningOfEncoding(cp: nat)
    requires IsScalarValue(cp)
    ensures Utf8Encode(cp).Some? && Utf8Meaning(Utf8Encode(cp).value) == Some(cp)
  {
    Base64Digits(cp);
    var b := Utf8Encode(cp).value;
    if cp > 0xFFFF {
      var t, u, v, w := cp / 0x40000, cp / 0x1000 % 0x40, cp / 0x40 % 0x40, cp % 0x40;
      assert |b| == 4 && b[0] as int == 0xF0 + t && b[1] as int == 0x80 + u
             && b[2] as int == 0x80 + v && b[3] as int == 0x80 + w;
      assert cp == t * 0x40000 + u * 0x1000 + v * 0x40 + w;
      hide Utf8Encode;
    } else if cp > 0x7FF {
      var u, v, w := cp / 0x1000, cp / 0x40 % 0x40, cp % 0x40;
      assert |b| == 3 && b[0] as int == 0xE0 + u && b[1] as int == 0x80 + v && b[2] as int == 0x80 + w;
      assert cp == u * 0x1000 + v * 0x40 + w;
      hide Utf8Encode;
    }
  }

  lemma EncodingOfMeaning(b: string)
    requires Utf8Meaning(b).Some?
    ensures Utf8Encode(Utf8Meaning(b).value) == Some(b)
  {
    var cp := Utf8Meaning(b).value;
    if |b| == 2 {
      Base64Unique(b[0] as int - 0xC0, b[1] as int - 0x80);
    } else if |b| == 3 {
      EncodingOfThree(b[0] as int - 0xE0, b[1] as int - 0x80, b[2] as int - 0x80);
    } else if |b| == 4 {
      EncodingOfFour(b[0] as int - 0xF0, b[1] as int - 0x80, b[2] as int - 0x80, b[3] as int - 0x80);
    }
    assert b == Utf8Encode(cp).value;
  }

  lemma EncodingOfThree(u: nat, v: nat, w: nat)
    requires v < 0x40 && w < 0x40
    ensures var cp := u * 0x1000 + v * 0x40 + w;
            cp / 0x1000 == u && cp / 0x40 % 0x40 == v && cp % 0x40 == w
  {
    Base64Unique(u, v);
    Base64Unique(u * 0x40 + v, w);
    Base64Digits(u * 0x1000 + v * 0x40 + w);
  }

  lemma EncodingOfFour(t: nat, u: nat, v: nat, w: nat)
    requires u < 0x40 && v < 0x40 && w < 0x40
    ensures var cp := t * 0x40000 + u * 0x1000 + v * 0x40 + w;
            cp / 0x40000 == t && cp / 0x1000 % 0x40 == u && cp / 0x40 % 0x40 == v && cp % 0x40 == w
  {
    EncodingOfThree(t * 0x40 + u, v, w);
    Base64Unique(t, u);
    Base64Digits(t * 0x40000 + u * 0x1000 + v * 0x40 + w);
  }

  /** The encoder accepts exactly the scalar values, and what it writes is the
      one well-formed UTF-8 sequence that means that value. */
  lemma Utf8EncodeIsUtf8(cp: nat, b: string)
    ensures Utf8Encode(cp).Some? <==> IsScalarValue(cp)
    ensures Utf8Encode(cp) == Some(b) <==> Utf8Meaning(b) == Some(cp)
  {
    hide Utf8Meaning;
    if IsScalarValue(cp) {
      MeaningOfEncoding(cp);
    }
    if Utf8Meaning(b) == Some(cp) {
      EncodingOfMeaning(b);
    }
  }

  function Utf8(cp: nat): (b: string)
    requires IsScalarValue(cp)
    ensures Utf8Encode(cp) == Some(b)
    ensures 1 <= |b| <= 4 && (cp <= 0xFFFF ==> |b| <= 3)
    ensures '\0' in b <==> cp == 0
  {
    Utf8Encode(cp).value
  }

  // ---- Hexadecimal ----

  function HexDigit(n: nat): (c: char)
    requires n < 16
    ensures HexValue(c) == Some(n)
  {
    if n < 10 then ('0' as int + n) as char else ('a' as int + n - 10) as char
  }

  function HexValue(c: char): (r: Option<nat>)
    ensures r.Some? ==> r.value < 16
  {
    if '0' <= c <= '9' then Some(c as int - '0' as int)
    else if 'a' <= c <= 'f' then Some(10 + c as int - 'a' as int)
    else if 'A' <= c <= 'F' then Some(10 + c as int - 'A' as int)
    else None
  }

  /** The value of the four hex digits at `i`, if they all stand before `e`. */
  function Hex4(s: string, i: nat, e: nat): (r: Option<nat>)
    requires e <= |s|
    ensures r.Some? ==> r.value < 0x10000 && i + 4 <= e
  {
    if e < i + 4 then None
    else
      match (HexValue(s[i]), HexValue(s[i + 1]), HexValue(s[i + 2]), HexValue(s[i + 3]))
      case (Some(a), Some(b), Some(c), Some(d)) => Some(((a * 16 + b) * 16 + c) * 16 + d)
      case _ => None
  }

  /** Reads four hex digits as `json_read_hex4` does. */
  method ReadHex4(s: string, i: nat, e: nat) returns (r: Option<nat>)
    requires i <= e <= |s|
    ensures r == Hex4(s, i, e)
  {
    if e - i < 4 {
      return None;
    }
    var value := 0;
    for k := 0 to 4
      invariant k == 0 ==> value == 0
      invariant k >= 1 ==> HexValue(s[i]).Some? && (k == 1 ==> value == HexValue(s[i]).value)
      invariant k >= 2 ==> HexValue(s[i + 1]).Some?
                           && (k == 2 ==> value == HexValue(s[i]).value * 16 + HexValue(s[i + 1]).value)
      invariant k >= 3 ==> HexValue(s[i + 2]).Some?
                           && (k == 3 ==> value == (HexValue(s[i]).value * 16 + HexValue(s[i + 1]).value) * 16
                                                   + HexValue(s[i + 2]).value)
      invariant k >= 4 ==> Hex4(s, i, e) == Some(value)
    {
      match HexValue(s[i + k])
      case None => return None;
      case Some(d) => value := value * 16 + d;
    }
    return Some(value);
  }

  // ---- The printer ----

  const BACKSPACE: char := 8 as char
  const FORM_FEED: char := 12 as char

  function EscapeChar(c: char): (t: string)
    ensures 1 <= |t| <= 6
  {
    if c == '"' then "\\\""
    else if c == '\\' then "\\\\"
    else if c == BACKSPACE then "\\b"
    else if c == FORM_FEED then "\\f"
    else if c == '\n' then "\\n"
    else if c == '\r' then "\\r"
    else if c == '\t' then "\\t"
    else if c as int < 0x20 then "\\u00" + [HexDigit(c as int / 16), HexDigit(c as int % 16)]
    else [c]
  }

  function Escape(s: string): (t: string)
    ensures |s| <= |t| <= 6 * |s|
  {
    if s == "" then "" else EscapeChar(s[0]) + Escape(s[1..])
  }

  /** The JSON string for `s`, quotes included. */
  function Quoted(s: string): (t: string)
    ensures |t| <= 6 * |s| + 2
  {
    "\"" + (Escape(s) + "\"")
  }

  method WriteEscaped(s: string) returns (out: string)
    ensures out == Quoted(s)
  {
    out := "\"";
    for i := 0 to |s|
      invariant out + Escape(s[i..]) == "\"" + Escape(s)
    {
      assert s[i..][1..] == s[i + 1..];
      out := out + EscapeChar(s[i]);
    }
    assert s[|s|..] == "";
    assert out + "" == out;
    out := out + "\"";
  }

  // ---- The decoder of string values ----

  const REPLACEMENT: nat := 0xFFFD

  /** What a two-character escape other than `\u` stands for. */
  function SimpleEscape(c: char): (r: Option<char>)
    requires c != 'u'
  {
    match c
    case '"' => Some('"')
    case '\\' => Some('\\')
    case '/' => Some('/')
    case 'b' => Some(BACKSPACE)
    case 'f' => Some(FORM_FEED)
    case 'n' => Some('\n')
    case 'r' => Some('\r')
    case 't' => Some('\t')
    case _ => None
  }

  /** The low surrogate written as `\uXXXX` at `i`. */
  function LowHalf(s: string, i: nat, e: nat): (r: Option<nat>)
    requires e <= |s|
    ensures r.Some? ==> i + 6 <= e && 0xDC00 <= r.value <= 0xDFFF
  {
    if i + 1 < e && s[i] == '\\' && s[i + 1] == 'u' then
      match Hex4(s, i + 2, e)
      case Some(low) => if 0xDC00 <= low <= 0xDFFF then Some(low) else None
      case None => None
    else None
  }

  function FromSurrogates(high: nat, low: nat): (cp: nat)
    requires 0xD800 <= high <= 0xDBFF && 0xDC00 <= low <= 0xDFFF
    ensures 0x10000 <= cp <= 0x10FFFF
  {
    0x10000 + (high - 0xD800) * 0x400 + (low - 0xDC00)
  }

  /** One piece of text and the index after the input it came from. */
  datatype Piece = Piece(out: string, next: nat)

  /** The decoding of the `\u` escape whose digits start at `i`. */
  function DecodeUnicode(s: string, i: nat, e: nat): (p: Piece)
    requires 2 <= i <= e <= |s|
    ensures i <= p.next <= e && 1 <= |p.out| <= p.next - i + 2
    ensures '\0' !in p.out
  {
    match Hex4(s, i, e)
    case None => Piece("\\u", i)
    case Some(cp) =>
      if 0xD800 <= cp <= 0xDBFF then
        match LowHalf(s, i + 4, e)
        case Some(low) => Piece(Utf8(FromSurrogates(cp, low)), i + 10)
        case None => Piece(Utf8(REPLACEMENT), i + 4)
      else if 0xDC00 <= cp <= 0xDFFF || cp == 0 then Piece(Utf8(REPLACEMENT), i + 4)
      else Piece(Utf8(cp), i + 4)
  }

  /** The decoding of the character or escape at `i`. It never writes more than
      it reads, and writes a NUL only where the input holds one. */
  function DecodePiece(s: string, i: nat, e: nat): (p: Piece)
    requires i < e <= |s|
    ensures i < p.next <= e && 1 <= |p.out| <= p.next - i
    ensures '\0' !in s ==> '\0' !in p.out
  {
    if s[i] == '\\' && i + 1 < e then
      if s[i + 1] == 'u' then DecodeUnicode(s, i + 2, e)
      else
        match SimpleEscape(s[i + 1])
        case Some(c) => Piece([c], i + 2)
        case None => Piece(['\\', s[i + 1]], i + 2)
    else Piece([s[i]], i + 1)
  }

  /** Reads one character or escape, as the switch of `json_extract_value` does. */
  method ReadPiece(s: string, i: nat, e: nat) returns (p: Piece)
    requires i < e <= |s|
    ensures p == DecodePiece(s, i, e)
  {
    if s[i] != '\\' || i + 1 >= e {
      return Piece([s[i]], i + 1);
    }
    if s[i + 1] != 'u' {
      match SimpleEscape(s[i + 1])
      case Some(c) => return Piece([c], i + 2);
      case None => return Piece(['\\', s[i + 1]], i + 2);
    }
    var cp := ReadHex4(s, i + 2, e);
    if cp.None? {
      return Piece("\\u", i + 2);
    }
    var value, next := cp.value, i + 6;
    if 0xD800 <= value <= 0xDBFF {
      if next + 1 < e && s[next] == '\\' && s[next + 1] == 'u' {
        var low := ReadHex4(s, next + 2, e);
        if low.Some? && 0xDC00 <= low.value <= 0xDFFF {
          return Piece(Utf8(FromSurrogates(value, low.value)), next + 6);
        }
      }
      value := REPLACEMENT;
    } else if 0xDC00 <= value <= 0xDFFF || value == 0 {
      value := REPLACEMENT;
    }
    return Piece(Utf8(value), next);
  }

  /** The string value written between `i` and `e`. */
  function Unescape(s: string, i: nat, e: nat): (t: string)
    requires i <= e <= |s|
    ensures |t| <= e - i
    ensures '\0' !in s ==> '\0' !in t
    decreases e - i
  {
    if i == e then "" else
      var p := DecodePiece(s, i, e);
      p.out + Unescape(s, p.next, e)
  }

  // ---- The comparison of keys ----

  /** The reading of an escape that the key comparison accepts. */
  function StrictPiece(s: string, i: nat, e: nat): (r: Option<Piece>)
    requires i < e <= |s|
    ensures r.Some? ==> i < r.value.next <= e && |r.value.out| >= 1
  {
    if s[i] != '\\' then Some(Piece([s[i]], i + 1))
    else if i + 1 >= e then None
    else if s[i + 1] == 'u' then
      match Hex4(s, i + 2, e)
      case None => None
      case Some(cp) =>
        match Utf8Encode(cp)
        case None => None
        case Some(b) => Some(Piece(b, i + 6))
    else
      match SimpleEscape(s[i + 1])
      case None => None
      case Some(c) => Some(Piece([c], i + 2))
  }

  /** Reads one character or escape of a key, as `json_slice_equals` does. */
  method ReadStrictPiece(s: string, i: nat, e: nat) returns (r: Option<Piece>)
    requires i < e <= |s|
    ensures r == StrictPiece(s, i, e)
  {
    if s[i] != '\\' {
      return Some(Piece([s[i]], i + 1));
    }
    if i + 1 >= e {
      return None;
    }
    if s[i + 1] == 'u' {
      var cp := ReadHex4(s, i + 2, e);
      if cp.None? {
        return None;
      }
      var bytes := Utf8Encode(cp.value);
      return if bytes.None? then None else Some(Piece(bytes.value, i + 6));
    }
    var c := SimpleEscape(s[i + 1]);
    return if c.None? then None else Some(Piece([c.value], i + 2));
  }

  /** The key written between `i` and `e`: None when some escape is not one the
      comparison accepts. */
  function StrictUnescape(s: string, i: nat, e: nat): (r: Option<string>)
    requires i <= e <= |s|
    decreases e - i
  {
    if i == e then Some("") else
      match StrictPiece(s, i, e)
      case None => None
      case Some(p) =>
        match StrictUnescape(s, p.next, e)
        case None => None
        case Some(rest) => Some(p.out + rest)
  }

  lemma StrictStep(s: string, l: nat, e: nat, key: string)
    requires l < e <= |s|
    ensures match StrictPiece(s, l, e)
            case None => StrictUnescape(s, l, e) == None
            case Some(p) =>
              StrictUnescape(s, l, e) == Some(key) <==>
              p.out <= key && StrictUnescape(s, p.next, e) == Some(key[|p.out|..])
  {
    match StrictPiece(s, l, e)
    case None =>
    case Some(p) =>
      if p.out <= key {
        assert key == p.out + key[|p.out|..];
      }
      match StrictUnescape(s, p.next, e)
      case None =>
      case Some(rest) => assert (p.out + rest)[|p.out|..] == rest;
  }

  /** The comparison of one decoded piece with the key from `r` on. */
  method PieceMatches(out: string, key: string, r: nat) returns (ok: bool)
    requires r <= |key|
    ensures ok <==> out <= key[r..]
  {
    for k := 0 to |out|
      invariant r + k <= |key| && out[..k] == key[r..r + k]
    {
      assert out <= key[r..] ==> r + k < |key| && key[r + k] == out[k];
      if r + k >= |key| || key[r + k] != out[k] {
        return false;
      }
    }
    assert out[..|out|] == out && key[r..][..|out|] == key[r..r + |out|];
    return true;
  }

  /** Compares the raw text between `i` and `e` with `key`, as the two cursors of
      `json_slice_equals` do. */
  method SliceEquals(s: string, i: nat, e: nat, key: string) returns (equal: bool)
    requires i <= e <= |s|
    ensures equal <==> StrictUnescape(s, i, e) == Some(key)
  {
    hide StrictPiece;
    var l, r := i, 0;
    assert key[0..] == key;
    while l < e && r < |key|
      invariant i <= l <= e && 0 <= r <= |key|
      invariant StrictUnescape(s, i, e) == Some(key) <==> StrictUnescape(s, l, e) == Some(key[r..])
      decreases e - l
    {
      StrictStep(s, l, e, key[r..]);
      var piece := ReadStrictPiece(s, l, e);
      if piece.None? {
        return false;
      }
      var ok := PieceMatches(piece.value.out, key, r);
      if !ok {
        return false;
      }
      assert key[r..][|piece.value.out|..] == key[r + |piece.value.out|..];
      l, r := piece.value.next, r + |piece.value.out|;
    }
    if l < e {
      StrictStep(s, l, e, key[r..]);
    }
    return l == e && r == |key|;
  }
}
