/** The cursor loops of the JSON reader over one C string: string ends, bracket
    matching, key lookup and value extraction. */
module JsonScan {
  import opened Basics
  import opened Numbers
  import opened JsonEscape

  const DEPTH_LIMIT: nat := 100

  predicate IsOpen(c: char) {
    c == '{' || c == '['
  }

  predicate IsClose(c: char) {
    c == '}' || c == ']'
  }

  function CloseOf(open: char): char {
    if open == '{' then '}' else ']'
  }

  // ---- Strings ----

  /** The index of the quote that ends the string whose text starts at `i`, or
      the end of the document. */
  function StringEnd(s: string, i: nat): (e: nat)
    requires i <= |s|
    ensures i <= e <= |s| && (e < |s| ==> s[e] == '"')
    decreases |s| - i
  {
    if i == |s| || s[i] == '"' then i
    else if s[i] != '\\' then StringEnd(s, i + 1)
    else if i + 1 == |s| then |s|
    else StringEnd(s, i + 2)
  }

  method FindStringEnd(s: string, i: nat) returns (e: nat)
    requires i <= |s|
    ensures e == StringEnd(s, i)
  {
    e := i;
    while e < |s| && s[e] != '"'
      invariant i <= e <= |s| && StringEnd(s, i) == StringEnd(s, e)
    {
      if s[e] == '\\' {
        e := e + 1;
        if e == |s| {
          break;
        }
      }
      e := e + 1;
    }
  }

  /** A printed string ends where it was printed to end, whatever it contains. */
  lemma {:induction false} StringEndOfEscape(s: string, i: nat, t: string)
    requires At(s, i, Escape(t) + "\"")
    ensures StringEnd(s, i) == i + |Escape(t)|
    decreases |t|
  {
    var rest := Escape(t) + "\"";
    if t == "" {
      AtIndex(s, i, rest, 0);
    } else {
      var a := EscapeChar(t[0]);
      assert rest == a + (Escape(t[1..]) + "\"");
      AtSplit(s, i, a, Escape(t[1..]) + "\"");
      StringEndOfEscape(s, i + |a|, t[1..]);
      StringEndOverEscapeChar(s, i, t[0]);
      hide EscapeChar, At, StringEnd;
    }
  }

  lemma StringEndOverEscapeChar(s: string, i: nat, c: char)
    requires At(s, i, EscapeChar(c))
    ensures StringEnd(s, i) == StringEnd(s, i + |EscapeChar(c)|)
  {
    var a := EscapeChar(c);
    forall k | 0 <= k < |a| ensures s[i + k] == a[k] {
      AtIndex(s, i, a, k);
    }
    assert s[i + 0] == a[0];
    if |a| == 6 {
      assert s[i + 1] == 'u' && s[i + 2] == '0' && s[i + 3] == '0' && s[i + 4] == a[4] && s[i + 5] == a[5];
      assert StringEnd(s, i) == StringEnd(s, i + 2);
      assert StringEnd(s, i + 2) == StringEnd(s, i + 3);
      assert StringEnd(s, i + 3) == StringEnd(s, i + 4);
      assert StringEnd(s, i + 4) == StringEnd(s, i + 5);
      assert StringEnd(s, i + 5) == StringEnd(s, i + 6);
    } else if |a| == 2 {
      assert s[i + 1] == a[1];
    }
  }

  // ---- Brackets ----

  /** The index of the bracket that closes `depth` open brackets of the kind
      `open`, reading from `i`; strings are passed over whole. */
  function MatchFrom(s: string, i: nat, depth: nat, open: char, limit: nat): (r: Option<nat>)
    requires i <= |s| && depth >= 1
    ensures r.Some? ==> i <= r.value < |s| && s[r.value] == CloseOf(open)
    decreases |s| - i
  {
    if i == |s| then None
    else if s[i] == '"' then AfterString(s, StringEnd(s, i + 1), depth, open, limit)
    else if s[i] == open then
      if depth + 1 > limit then None else MatchFrom(s, i + 1, depth + 1, open, limit)
    else if s[i] == CloseOf(open) then
      if depth == 1 then Some(i) else MatchFrom(s, i + 1, depth - 1, open, limit)
    else MatchFrom(s, i + 1, depth, open, limit)
  }

  function AfterString(s: string, e: nat, depth: nat, open: char, limit: nat): (r: Option<nat>)
    requires e <= |s| && depth >= 1
    ensures r.Some? ==> e <= r.value < |s| && s[r.value] == CloseOf(open)
    decreases |s| - e
  {
    if e == |s| then None else MatchFrom(s, e + 1, depth, open, limit)
  }

  /** The bracket matching the one at `start`. */
  function MatchBracket(s: string, start: nat, open: char): (r: Option<nat>)
    requires start < |s|
    ensures r.Some? ==> start < r.value < |s| && s[r.value] == CloseOf(open)
  {
    if s[start] != open then None else MatchFrom(s, start + 1, 1, open, DEPTH_LIMIT)
  }

  /** The loop of `find_matching_bracket` reads one character at a time and remembers whether
      it is inside a string and behind a backslash. */
  method FindMatchingBracket(s: string, start: nat, open: char) returns (r: Option<nat>)
    requires start < |s| && IsOpen(open)
    ensures r == MatchBracket(s, start, open)
  {
    if s[start] != open {
      return None;
    }
    var cursor, depth, inString, escaped := start + 1, 1, false, false;
    while cursor < |s| && depth > 0
      invariant start < cursor <= |s| && depth >= 1
      invariant escaped ==> inString
      invariant !inString ==> MatchBracket(s, start, open) == MatchFrom(s, cursor, depth, open, DEPTH_LIMIT)
      invariant inString && !escaped ==>
                  MatchBracket(s, start, open) == AfterString(s, StringEnd(s, cursor), depth, open, DEPTH_LIMIT)
      invariant inString && escaped ==>
                  MatchBracket(s, start, open)
                  == AfterString(s, if cursor == |s| then |s| else StringEnd(s, cursor + 1), depth, open, DEPTH_LIMIT)
    {
      if inString {
        if escaped {
          escaped := false;
        } else if s[cursor] == '\\' {
          escaped := true;
        } else if s[cursor] == '"' {
          inString := false;
        }
      } else {
        if s[cursor] == '"' {
          inString := true;
        } else if s[cursor] == open {
          depth := depth + 1;
          if depth > DEPTH_LIMIT {
            return None;
          }
        } else if s[cursor] == CloseOf(open) {
          depth := depth - 1;
          if depth == 0 {
            return Some(cursor);
          }
        }
      }
      cursor := cursor + 1;
    }
    return None;
  }

  // ---- Keys ----

  /** The index of the value of `key`: the first string at depth 1 that is
      followed by a colon and reads as `key`. */
  function FindKeyFrom(key: string, s: string, i: nat, depth: int): (r: Option<nat>)
    requires i <= |s|
    ensures r.Some? ==> i < r.value <= |s|
    decreases |s| - i
  {
    if i == |s| then None
    else if s[i] == '"' then
      var e := StringEnd(s, i + 1);
      if e == |s| then None
      else
        var colon := SkipSpace(s, e + 1);
        if depth == 1 && colon < |s| && s[colon] == ':' && StrictUnescape(s, i + 1, e) == Some(key)
        then Some(SkipSpace(s, colon + 1))
        else FindKeyFrom(key, s, e + 1, depth)
    else if IsOpen(s[i]) then
      if depth + 1 > DEPTH_LIMIT then None else FindKeyFrom(key, s, i + 1, depth + 1)
    else if IsClose(s[i]) then FindKeyFrom(key, s, i + 1, depth - 1)
    else FindKeyFrom(key, s, i + 1, depth)
  }

  method SkipWhitespace(s: string, i: nat) returns (r: nat)
    requires i <= |s|
    ensures r == SkipSpace(s, i)
  {
    r := i;
    while r < |s| && IsSpace(s[r])
      invariant i <= r <= |s| && SkipSpace(s, i) == SkipSpace(s, r)
    {
      r := r + 1;
    }
  }

  method FindKey(key: string, s: string) returns (r: Option<nat>)
    ensures r == FindKeyFrom(key, s, 0, 0)
  {
    var cursor, depth := 0, 0;
    while cursor < |s|
      invariant 0 <= cursor <= |s|
      invariant FindKeyFrom(key, s, 0, 0) == FindKeyFrom(key, s, cursor, depth)
      decreases |s| - cursor
    {
      var c := s[cursor];
      if c == '"' {
        var e := FindStringEnd(s, cursor + 1);
        if e == |s| {
          return None;
        }
        var after := SkipWhitespace(s, e + 1);
        if depth == 1 && after < |s| && s[after] == ':' {
          var same := SliceEquals(s, cursor + 1, e, key);
          if same {
            var value := SkipWhitespace(s, after + 1);
            return Some(value);
          }
        }
        cursor := e + 1;
        continue;
      } else if IsOpen(c) {
        depth := depth + 1;
        if depth > DEPTH_LIMIT {
          return None;
        }
      } else if IsClose(c) {
        depth := depth - 1;
      }
      cursor := cursor + 1;
    }
    return None;
  }

  // ---- Values ----

  predicate EndsScalar(c: char) {
    IsSpace(c) || c == ',' || c == '}' || c == ']'
  }

  function ScalarEnd(s: string, i: nat): (e: nat)
    requires i <= |s|
    ensures i <= e <= |s| && (e < |s| ==> EndsScalar(s[e]))
    decreases |s| - i
  {
    if i == |s| || EndsScalar(s[i]) then i else ScalarEnd(s, i + 1)
  }

  /** The value that starts at `i`: a string's contents, the exact text of an
      object or array, or the text of a scalar. */
  function ExtractAt(s: string, i: nat): (r: Option<string>)
    requires i <= |s|
    ensures r.Some? && '\0' !in s ==> '\0' !in r.value
  {
    var c := SkipSpace(s, i);
    if c < |s| && s[c] == '"' then
      Some(Unescape(s, c + 1, StringEnd(s, c + 1)))
    else if c < |s| && IsOpen(s[c]) then
      match MatchBracket(s, c, s[c])
      case None => None
      case Some(e) => Some(s[c..e + 1])
    else Some(s[c..ScalarEnd(s, c)])
  }

  /** Decodes the string written between `i` and `e` into a block one longer than
      its raw text. Every write stays inside the block. */
  method DecodeString(s: string, i: nat, e: nat) returns (block: array<char>)
    requires i <= e <= |s| && '\0' !in s
    ensures fresh(block) && block.Length == e - i + 1
    ensures CString(block[..]) == Unescape(s, i, e)
  {
    hide DecodePiece, CString;
    block := new char[e - i + 1];
    var src, dst := i, 0;
    while src < e
      invariant i <= src <= e && 0 <= dst <= src - i
      invariant block[..dst] + Unescape(s, src, e) == Unescape(s, i, e)
      decreases e - src
    {
      var p := ReadPiece(s, src, e);
      ghost var done, rest := block[..dst], Unescape(s, p.next, e);
      assert done + (p.out + rest) == done + p.out + rest;
      PutAt(block, dst, p.out);
      src, dst := p.next, dst + |p.out|;
    }
    assert block[..dst] == Unescape(s, i, e);
    Terminate(block, dst);
  }

  /** Writes `out` into the block from `dst` on. */
  method PutAt(block: array<char>, dst: nat, out: string)
    requires dst + |out| <= block.Length
    modifies block
    ensures block[..dst + |out|] == old(block[..dst]) + out
  {
    for k := 0 to |out|
      invariant block[..dst + k] == old(block[..dst]) + out[..k]
    {
      block[dst + k] := out[k];
    }
  }

  method Terminate(block: array<char>, dst: nat)
    requires dst < block.Length && '\0' !in block[..dst]
    modifies block
    ensures CString(block[..]) == old(block[..dst])
  {
    block[dst] := '\0';
    assert block[..] == block[..dst] + ['\0'] + block[dst + 1..];
    CStringOfTerminated(block[..dst], block[dst + 1..]);
  }

  method ExtractValue(s: string, i: nat) returns (r: Option<string>)
    requires i <= |s| && '\0' !in s
    ensures r == ExtractAt(s, i)
  {
    var c := SkipWhitespace(s, i);
    if c < |s| && s[c] == '"' {
      var e := FindStringEnd(s, c + 1);
      var block := DecodeString(s, c + 1, e);
      return Some(CString(block[..]));
    } else if c < |s| && IsOpen(s[c]) {
      var e := FindMatchingBracket(s, c, s[c]);
      if e.None? {
        return None;
      }
      return Some(s[c..e.value + 1]);
    } else {
      var e := c;
      while e < |s| && !EndsScalar(s[e])
        invariant c <= e <= |s| && ScalarEnd(s, c) == ScalarEnd(s, e)
      {
        e := e + 1;
      }
      return Some(s[c..e]);
    }
  }

  /** The value of `key` in the document `s`. */
  function ValueOf(key: string, s: string): (r: Option<string>)
    ensures r.Some? && '\0' !in s ==> '\0' !in r.value
  {
    match FindKeyFrom(key, s, 0, 0)
    case None => None
    case Some(i) => ExtractAt(s, i)
  }

  method GetValue(key: string, s: string) returns (r: Option<string>)
    requires '\0' !in s
    ensures r == ValueOf(key, s)
  {
    var i := FindKey(key, s);
    if i.None? {
      return None;
    }
    r := ExtractValue(s, i.value);
  }

  // ---- Cut-off documents ----

  lemma {:induction false} StringEndOfPrefix(s: string, i: nat, n: nat)
    requires i <= n <= |s|
    ensures StringEnd(s[..n], i) == if StringEnd(s, i) < n then StringEnd(s, i) else n
    decreases n - i
  {
    if i < n && s[i] != '"' {
      if s[i] != '\\' {
        StringEndOfPrefix(s, i + 1, n);
      } else if i + 1 < n {
        StringEndOfPrefix(s, i + 2, n);
      }
    }
  }

  /** A bracket is matched in a prefix only if its match lies in the prefix. */
  lemma {:induction false} MatchOfPrefix(s: string, i: nat, n: nat, depth: nat, open: char, limit: nat)
    requires i <= n <= |s| && depth >= 1
    ensures MatchFrom(s[..n], i, depth, open, limit)
         == match MatchFrom(s, i, depth, open, limit)
            case Some(e) => (if e < n then Some(e) else None)
            case None => None
    decreases n - i
  {
    var t := s[..n];
    if i < n {
      assert t[i] == s[i];
      hide StringEnd;
      if s[i] == '"' {
        StringEndOfPrefix(s, i + 1, n);
        var e := StringEnd(s, i + 1);
        if e < n {
          MatchOfPrefix(s, e + 1, n, depth, open, limit);
        }
      } else if s[i] == open {
        MatchOfPrefix(s, i + 1, n, depth + 1, open, limit);
      } else if s[i] == CloseOf(open) && depth > 1 {
        MatchOfPrefix(s, i + 1, n, depth - 1, open, limit);
      } else {
        MatchOfPrefix(s, i + 1, n, depth, open, limit);
      }
    }
  }

  lemma {:induction false} SkipSpaceOfPrefix(s: string, i: nat, n: nat)
    requires i <= n <= |s|
    ensures SkipSpace(s[..n], i) == if SkipSpace(s, i) < n then SkipSpace(s, i) else n
    decreases n - i
  {
    if i < n && IsSpace(s[i]) {
      SkipSpaceOfPrefix(s, i + 1, n);
    }
  }

  lemma {:induction false} StrictOfPrefix(s: string, i: nat, e: nat, n: nat)
    requires i <= e <= n <= |s|
    ensures StrictUnescape(s[..n], i, e) == StrictUnescape(s, i, e)
    decreases e - i
  {
    if i < e {
      assert StrictPiece(s[..n], i, e) == StrictPiece(s, i, e) by {
        assert i + 6 <= e ==> Hex4(s[..n], i + 2, e) == Hex4(s, i + 2, e);
      }
      hide StrictPiece;
      if StrictPiece(s, i, e).Some? {
        StrictOfPrefix(s, StrictPiece(s, i, e).value.next, e, n);
      }
    }
  }

  lemma {:induction false} NoKeyInSpace(key: string, s: string, i: nat, depth: int)
    requires i <= |s| && forall k | i <= k < |s| :: IsSpace(s[k])
    ensures FindKeyFrom(key, s, i, depth) == None
    decreases |s| - i
  {
    if i < |s| {
      NoKeyInSpace(key, s, i + 1, depth);
    }
  }

  /** In a prefix a key is found where it is found in the whole document, or not
      found at all; a value that the cut removes is at the end of the prefix. */
  predicate FoundAsInWhole(key: string, s: string, i: nat, depth: int, n: nat)
    requires i <= n <= |s|
  {
    var r := FindKeyFrom(key, s[..n], i, depth);
    r.Some? ==> FindKeyFrom(key, s, i, depth).Some? && r.value == Min(FindKeyFrom(key, s, i, depth).value, n)
  }

  lemma KeyOfPrefixAtString(key: string, s: string, i: nat, depth: int, n: nat)
    requires i < n <= |s| && s[i] == '"'
    requires StringEnd(s, i + 1) < n ==> FoundAsInWhole(key, s, StringEnd(s, i + 1) + 1, depth, n)
    ensures FoundAsInWhole(key, s, i, depth, n)
  {
    hide StringEnd, SkipSpace, StrictUnescape;
    var t := s[..n];
    assert t[i] == s[i];
    StringEndOfPrefix(s, i + 1, n);
    var e := StringEnd(s, i + 1);
    if e < n {
      SkipSpaceOfPrefix(s, e + 1, n);
      StrictOfPrefix(s, i + 1, e, n);
      var colon := SkipSpace(s, e + 1);
      if colon < n {
        assert t[colon] == s[colon];
        SkipSpaceOfPrefix(s, colon + 1, n);
      } else {
        NoKeyInSpace(key, t, e + 1, depth);
      }
    }
  }

  lemma {:induction false} FindKeyOfPrefix(key: string, s: string, i: nat, depth: int, n: nat)
    requires i <= n <= |s|
    ensures FoundAsInWhole(key, s, i, depth, n)
    decreases n - i
  {
    if i < n {
      assert s[..n][i] == s[i];
      if s[i] == '"' {
        if StringEnd(s, i + 1) < n {
          FindKeyOfPrefix(key, s, StringEnd(s, i + 1) + 1, depth, n);
        }
        KeyOfPrefixAtString(key, s, i, depth, n);
      } else if IsOpen(s[i]) {
        FindKeyOfPrefix(key, s, i + 1, depth + 1, n);
      } else if IsClose(s[i]) {
        FindKeyOfPrefix(key, s, i + 1, depth - 1, n);
      } else {
        FindKeyOfPrefix(key, s, i + 1, depth, n);
      }
    }
  }
}
