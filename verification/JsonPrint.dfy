/** Printing an object member by member and an array item by item, the way the
    writers of the two files do, builds the printed text of the tree. */
module JsonPrint {
  import opened Basics
  import opened Numbers
  import opened JsonEscape
  import opened JsonTree

  /** A member as both files lay it out: `lead "key": value`. */
  function Field(lead: string, key: string, value: Json): Member {
    Member(lead, key, "", " ", value, "")
  }

  function Flag(b: bool): (t: string) {
    if b then "true" else "false"
  }

  lemma FlagIsScalar(b: bool)
    ensures IsScalarText(Flag(b)) && (Flag(b) == "true" <==> b) && |Flag(b)| <= 5
  {
  }

  lemma DigitsAreScalar(s: string)
    requires AllDigits(s) && s != ""
    ensures IsScalarText(s)
  {
  }

  lemma IntTextIsScalar(n: int)
    ensures IsScalarText(IntText(n))
  {
    DigitsAreScalar(Digits(Magnitude(n)));
  }

  lemma FixedTextIsScalar(x: real, k: nat)
    ensures IsScalarText(FixedText(x, k))
  {
    hide Scaled, Digits, Padded, Pow10, Quotient, Remainder;
    var a := Magnitude(Scaled(x, k));
    var whole, part := Digits(Quotient(a, Pow10(k))), Padded(Remainder(a, Pow10(k)), k);
    forall c | c in FixedText(x, k) ensures c == '-' || c == '.' || IsDigit(c) {
      assert c in whole || c in part || c == '.' || c == '-';
    }
  }

  lemma FieldIsWellFormed(lead: string, key: string, v: Json)
    requires AllSpace(lead) && '\0' !in key && WellFormed(v)
    ensures WellFormedMember(Field(lead, key, v))
  {
  }

  // ---- Text written so far ----

  predicate IsPlain(c: char) {
    c != '"' && c != '\\' && c as int >= 0x20
  }

  lemma {:induction false} EscapeOfPlain(key: string)
    requires forall k | 0 <= k < |key| :: IsPlain(key[k])
    ensures Escape(key) == key
  {
    if key != "" {
      EscapeOfPlain(key[1..]);
      assert EscapeChar(key[0]) == [key[0]];
    }
  }

  lemma FieldText(lead: string, key: string, v: Json)
    requires forall k | 0 <= k < |key| :: IsPlain(key[k])
    ensures RenderMember(Field(lead, key, v), false) == lead + "\"" + key + "\": " + Render(v)
  {
    hide Render;
    EscapeOfPlain(key);
  }

  lemma CommaAfter(m: Member)
    ensures RenderMember(m, true) == RenderMember(m, false) + ","
  {
    hide Quoted, Render;
    var f := m.gap + (Render(m.value) + (m.trail + ""));
    assert m.gap + (Render(m.value) + (m.trail + ",")) == f + ",";
    var g := m.mid + (":" + f);
    assert m.mid + (":" + (f + ",")) == g + ",";
  }

  lemma {:induction false} OneMoreMember(ms: seq<Member>, m: Member)
    ensures RenderMembers(ms + [m]) == RenderMembers(ms) + Comma(ms != []) + RenderMember(m, false)
  {
    hide RenderMember;
    if ms == [] {
      assert ms + [m] == [m];
      assert RenderMembers([m][1..]) == "";
    } else {
      var rest := ms[1..];
      assert (ms + [m])[1..] == rest + [m];
      OneMoreMember(rest, m);
      CommaAfter(ms[0]);
      if rest == [] {
        assert RenderMembers(rest) == "";
      }
    }
  }

  predicate IsPlainKey(key: string) {
    forall k | 0 <= k < |key| :: IsPlain(key[k])
  }

  /** Writes member `k` of an object: the separator, the key and the value. */
  method WriteField(sofar: string, lead: string, key: string, text: string,
                    ghost before: string, ghost ms: seq<Member>, k: nat)
    returns (out: string)
    requires k < |ms| && sofar == before + RenderMembers(ms[..k])
    requires ms[k] == Field(lead, key, ms[k].value) && IsPlainKey(key) && text == Render(ms[k].value)
    ensures out == before + RenderMembers(ms[..k + 1])
  {
    hide RenderMembers, RenderMember, Render;
    out := sofar + ((if k > 0 then "," else "") + lead + "\"" + key + "\": " + text);
    ghost var m := ms[k];
    FieldText(lead, key, m.value);
    OneMoreMember(ms[..k], m);
    ghost var c, r := Comma(k > 0), RenderMember(m, false);
    assert (if k > 0 then "," else "") + lead + "\"" + key + "\": " + text == c + r;
    assert before + (RenderMembers(ms[..k]) + c + r) == before + RenderMembers(ms[..k]) + (c + r);
    assert ms[..k] + [m] == ms[..k + 1];
  }

  lemma {:induction false} OneMoreItem(xs: seq<Item>, x: Item)
    ensures RenderItems(xs + [x]) == RenderItems(xs) + Comma(xs != []) + RenderItem(x, false)
  {
    hide RenderItem;
    if xs == [] {
      assert xs + [x] == [x];
      assert RenderItems([x][1..]) == "";
    } else {
      var rest := xs[1..];
      assert (xs + [x])[1..] == rest + [x];
      OneMoreItem(rest, x);
      CommaAfterItem(xs[0]);
      if rest == [] {
        assert RenderItems(rest) == "";
      }
    }
  }

  lemma CommaAfterItem(x: Item)
    ensures RenderItem(x, true) == RenderItem(x, false) + ","
  {
    hide Render;
    assert x.trail + "," == (x.trail + "") + ",";
  }

  /** Appending the separator, the white space and the value appends the item. */
  lemma AddItem(out: string, before: string, xs: seq<Item>, lead: string, v: Json)
    requires out == before + RenderItems(xs)
    ensures out + (Comma(xs != []) + lead) + Render(v) == before + RenderItems(xs + [Item(lead, v, "")])
  {
    hide RenderItems, Render, Comma;
    var x := Item(lead, v, "");
    OneMoreItem(xs, x);
    var c, r := Comma(xs != []), RenderItem(x, false);
    assert r == lead + Render(v) by {
      BareItem(lead, v);
    }
    assert before + (RenderItems(xs) + c + r) == before + RenderItems(xs) + (c + r);
  }

  lemma BareItem(lead: string, v: Json)
    ensures RenderItem(Item(lead, v, ""), false) == lead + Render(v)
  {
  }

  /** Closing an object, or an array, whose parts have been written. */
  lemma CloseObject(out: string, before: string, ms: seq<Member>, tail: string)
    requires out == before + "{" + RenderMembers(ms)
    ensures out + (tail + "}") == before + Render(Obj(ms, tail))
  {
    hide RenderMembers;
  }

  lemma CloseArray(out: string, before: string, xs: seq<Item>, tail: string)
    requires out == before + "[" + RenderItems(xs)
    ensures out + (tail + "]") == before + Render(Arr(xs, tail))
  {
    hide RenderItems;
  }

  lemma NoParts()
    ensures RenderMembers([]) == "" && RenderItems([]) == ""
  {
  }

  lemma RenderLeaf(v: Json)
    requires v.Str? || v.Scalar?
    ensures Render(v) == if v.Str? then Quoted(v.contents) else v.text
  {
  }

  // ---- Documents ----

  /** A tree that reads back, nested at most `h` deep. */
  ghost predicate IsDocument(v: Json, h: nat) {
    WellFormed(v) && Height(v) <= h
  }

  /** A member as the writers lay it out, with a document for its value. */
  ghost predicate IsGoodField(m: Member, h: nat) {
    m == Field(m.lead, m.key, m.value) && AllSpace(m.lead) && IsPlainKey(m.key) && IsDocument(m.value, h)
  }

  lemma LeafField(lead: string, key: string, v: Json, h: nat)
    requires AllSpace(lead) && IsPlainKey(key) && ((v.Str? && '\0' !in v.contents) || (v.Scalar? && IsScalarText(v.text)))
    ensures IsGoodField(Field(lead, key, v), h)
  {
  }

  lemma DeepField(lead: string, key: string, v: Json, g: nat, h: nat)
    requires AllSpace(lead) && IsPlainKey(key) && IsDocument(v, g) && g <= h
    ensures IsGoodField(Field(lead, key, v), h)
  {
  }

  /** An object of documents is a document. */
  lemma ObjectIsDocument(ms: seq<Member>, tail: string, h: nat)
    requires AllSpace(tail) && forall k | 0 <= k < |ms| :: IsGoodField(ms[k], h)
    ensures IsDocument(Obj(ms, tail), h + 1)
  {
    hide WellFormed, Height, WellFormedMembers, MembersHeight, AllSpace;
    forall k | 0 <= k < |ms| ensures WellFormedMember(ms[k]) && Height(ms[k].value) <= h {
      assert IsGoodField(ms[k], h);
      FieldIsWellFormed(ms[k].lead, ms[k].key, ms[k].value);
    }
    MembersFromParts(ms, h);
    ObjectOfMembers(ms, tail);
  }

  lemma ObjectOfMembers(ms: seq<Member>, tail: string)
    requires WellFormedMembers(ms) && AllSpace(tail)
    ensures WellFormed(Obj(ms, tail)) && Height(Obj(ms, tail)) == 1 + MembersHeight(ms)
  {
  }

  // ---- Length ----

  /** The length of a member and the comma that may follow it. */
  function Size(m: Member): nat {
    |m.lead| + |Quoted(m.key)| + |m.mid| + 1 + |m.gap| + |Render(m.value)| + |m.trail| + 1
  }

  lemma SizeBounds(m: Member, more: bool)
    ensures |RenderMember(m, more)| <= Size(m)
  {
    CommaLength(more);
  }

  lemma FieldSize(lead: string, key: string, v: Json)
    ensures Size(Field(lead, key, v)) <= |lead| + 6 * |key| + 5 + |Render(v)|
  {
  }

  /** The length of members of at most `each` bytes, the last one `extra` longer. */
  lemma {:induction false} MembersLength(ms: seq<Member>, each: nat, extra: nat)
    requires forall k | 0 <= k < |ms| :: Size(ms[k]) <= if k < |ms| - 1 then each else each + extra
    ensures |RenderMembers(ms)| <= |ms| * each + extra
  {
    hide RenderMember, Size;
    if |ms| > 0 {
      SizeBounds(ms[0], |ms| > 1);
      if |ms| > 1 {
        MembersLength(ms[1..], each, extra);
        TimesNext(|ms| - 1, each);
      } else {
        assert RenderMembers(ms[1..]) == "";
      }
    }
  }
}
