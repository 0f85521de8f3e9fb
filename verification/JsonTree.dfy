/** JSON trees with their layout, their printed text, and what the reader of
    JsonScan finds in that text. */
module JsonTree {
  import opened Basics
  import opened Numbers
  import opened JsonEscape
  import opened JsonAgreement
  import opened JsonScan

  datatype Json =
    | Str(contents: string)
    | Scalar(text: string)
    | Obj(members: seq<Member>, tail: string)
    | Arr(items: seq<Item>, tail: string)

  /** `lead "key" mid : gap value trail`, where all but the key and the value are
      white space. */
  datatype Member = Member(lead: string, key: string, mid: string, gap: string, value: Json, trail: string)

  datatype Item = Item(lead: string, value: Json, trail: string)

  // ---- Printed text ----

  function Render(v: Json): (t: string) {
    match v
    case Str(t) => Quoted(t)
    case Scalar(t) => t
    case Obj(ms, tail) => "{" + (RenderMembers(ms) + (tail + "}"))
    case Arr(xs, tail) => "[" + (RenderItems(xs) + (tail + "]"))
  }

  function Comma(more: bool): string {
    if more then "," else ""
  }

  function RenderMember(m: Member, more: bool): (t: string) {
    m.lead + (Quoted(m.key) + (m.mid + (":" + (m.gap + (Render(m.value) + (m.trail + Comma(more)))))))
  }

  function RenderMembers(ms: seq<Member>): (t: string) {
    if ms == [] then "" else RenderMember(ms[0], |ms| > 1) + RenderMembers(ms[1..])
  }

  function RenderItem(x: Item, more: bool): (t: string) {
    x.lead + (Render(x.value) + (x.trail + Comma(more)))
  }

  function RenderItems(xs: seq<Item>): (t: string) {
    if xs == [] then "" else RenderItem(xs[0], |xs| > 1) + RenderItems(xs[1..])
  }

  /** Nesting of brackets. */
  function Height(v: Json): nat {
    match v
    case Str(_) => 0
    case Scalar(_) => 0
    case Obj(ms, _) => 1 + MembersHeight(ms)
    case Arr(xs, _) => 1 + ItemsHeight(xs)
  }

  function MembersHeight(ms: seq<Member>): nat {
    if ms == [] then 0 else Max(Height(ms[0].value), MembersHeight(ms[1..]))
  }

  function ItemsHeight(xs: seq<Item>): nat {
    if xs == [] then 0 else Max(Height(xs[0].value), ItemsHeight(xs[1..]))
  }

  predicate IsNeutral(c: char) {
    c != '"' && !IsOpen(c) && !IsClose(c)
  }

  predicate AllNeutral(t: string) {
    forall k | 0 <= k < |t| :: IsNeutral(t[k])
  }

  /** The text of a number, `true`, `false` or `null`: any word without quotes,
      brackets, commas or white space. */
  predicate IsScalarText(t: string) {
    t != "" && forall k | 0 <= k < |t| :: IsNeutral(t[k]) && !EndsScalar(t[k]) && t[k] != '\0'
  }

  predicate WellFormed(v: Json) {
    match v
    case Str(t) => '\0' !in t
    case Scalar(t) => IsScalarText(t)
    case Obj(ms, tail) => WellFormedMembers(ms) && AllSpace(tail)
    case Arr(xs, tail) => WellFormedItems(xs) && AllSpace(tail)
  }

  predicate WellFormedMembers(ms: seq<Member>) {
    ms == [] || (WellFormedMember(ms[0]) && WellFormedMembers(ms[1..]))
  }

  predicate WellFormedMember(m: Member) {
    && AllSpace(m.lead) && AllSpace(m.mid) && AllSpace(m.gap) && AllSpace(m.trail)
    && '\0' !in m.key && WellFormed(m.value)
  }

  predicate WellFormedItems(xs: seq<Item>) {
    xs == [] || (AllSpace(xs[0].lead) && AllSpace(xs[0].trail) && WellFormed(xs[0].value) && WellFormedItems(xs[1..]))
  }

  // ---- Where the parts of a member stand ----

  function KeyAt(i: nat, m: Member): nat {
    i + |m.lead|
  }

  function ColonAt(i: nat, m: Member): nat {
    i + |m.lead| + |Quoted(m.key)| + |m.mid|
  }

  function ValueAt(i: nat, m: Member): nat {
    ColonAt(i, m) + 1 + |m.gap|
  }

  lemma AtMember(s: string, i: nat, m: Member, more: bool)
    requires At(s, i, RenderMember(m, more))
    ensures At(s, i, m.lead)
    ensures At(s, KeyAt(i, m), Quoted(m.key))
    ensures At(s, KeyAt(i, m) + |Quoted(m.key)|, m.mid)
    ensures At(s, ColonAt(i, m), ":") && s[ColonAt(i, m)] == ':'
    ensures At(s, ColonAt(i, m) + 1, m.gap)
    ensures At(s, ValueAt(i, m), Render(m.value))
    ensures At(s, ValueAt(i, m) + |Render(m.value)|, m.trail)
    ensures At(s, ValueAt(i, m) + |Render(m.value)| + |m.trail|, Comma(more))
    ensures KeyAt(i, m) == i + |m.lead|
    ensures ColonAt(i, m) == KeyAt(i, m) + |Quoted(m.key)| + |m.mid|
    ensures ValueAt(i, m) == ColonAt(i, m) + 1 + |m.gap|
    ensures i + |RenderMember(m, more)| == ValueAt(i, m) + |Render(m.value)| + |m.trail| + |Comma(more)| <= |s|
  {
    hide At;
    var f := m.trail + Comma(more);
    var e := Render(m.value) + f;
    var d := m.gap + e;
    var c := ":" + d;
    var b := m.mid + c;
    AtSplit(s, i, m.lead, Quoted(m.key) + b);
    AtSplit(s, KeyAt(i, m), Quoted(m.key), b);
    AtSplit(s, KeyAt(i, m) + |Quoted(m.key)|, m.mid, c);
    AtSplit(s, ColonAt(i, m), ":", d);
    AtSplit(s, ColonAt(i, m) + 1, m.gap, e);
    AtSplit(s, ValueAt(i, m), Render(m.value), f);
    AtSplit(s, ValueAt(i, m) + |Render(m.value)|, m.trail, Comma(more));
    AtIndex(s, ColonAt(i, m), ":", 0);
    AtBound(s, i, RenderMember(m, more));
  }

  lemma AtBound(s: string, i: nat, t: string)
    requires At(s, i, t)
    ensures i + |t| <= |s|
  {
  }

  lemma AtItem(s: string, i: nat, x: Item, more: bool)
    requires At(s, i, RenderItem(x, more))
    ensures At(s, i, x.lead)
    ensures At(s, i + |x.lead|, Render(x.value))
    ensures At(s, i + |x.lead| + |Render(x.value)|, x.trail)
    ensures At(s, i + |x.lead| + |Render(x.value)| + |x.trail|, Comma(more))
    ensures i + |RenderItem(x, more)| == i + |x.lead| + |Render(x.value)| + |x.trail| + |Comma(more)|
  {
    hide At;
    var b := x.trail + Comma(more);
    AtSplit(s, i, x.lead, Render(x.value) + b);
    AtSplit(s, i + |x.lead|, Render(x.value), b);
    AtSplit(s, i + |x.lead| + |Render(x.value)|, x.trail, Comma(more));
  }

  /** A container is its bracket, its parts, white space and its closing bracket. */
  lemma AtContainer(s: string, i: nat, open: string, inner: string, tail: string, close: string)
    requires |open| == 1 && |close| == 1
    requires At(s, i, open + (inner + (tail + close)))
    ensures s[i] == open[0] && At(s, i + 1, inner) && At(s, i + 1 + |inner|, tail)
    ensures i + 1 + |inner| + |tail| < |s| && s[i + 1 + |inner| + |tail|] == close[0]
  {
    AtSplit(s, i, open, inner + (tail + close));
    AtSplit(s, i + 1, inner, tail + close);
    AtSplit(s, i + 1 + |inner|, tail, close);
    AtIndex(s, i, open, 0);
    AtIndex(s, i + 1 + |inner| + |tail|, close, 0);
  }

  lemma SpaceIsNeutral(t: string)
    requires AllSpace(t)
    ensures AllNeutral(t)
  {
  }

  lemma MemberParts(m: Member, more: bool)
    requires WellFormedMember(m)
    ensures AllSpace(m.lead) && AllSpace(m.mid) && AllSpace(m.gap) && AllSpace(m.trail)
    ensures AllNeutral(m.lead) && AllNeutral(m.mid) && AllNeutral(m.gap) && AllNeutral(m.trail)
    ensures AllNeutral(":") && AllNeutral(Comma(more))
    ensures WellFormed(m.value)
  {
  }

  lemma ItemParts(xs: seq<Item>, more: bool)
    requires xs != [] && WellFormedItems(xs)
    ensures AllSpace(xs[0].trail) && AllNeutral(xs[0].lead) && AllNeutral(xs[0].trail) && AllNeutral(Comma(more))
    ensures WellFormed(xs[0].value) && WellFormedItems(xs[1..])
    ensures Height(xs[0].value) <= ItemsHeight(xs) && ItemsHeight(xs[1..]) <= ItemsHeight(xs)
  {
  }

  lemma AtItems(s: string, i: nat, xs: seq<Item>)
    requires xs != [] && At(s, i, RenderItems(xs))
    ensures At(s, i, RenderItem(xs[0], |xs| > 1))
    ensures At(s, i + |RenderItem(xs[0], |xs| > 1)|, RenderItems(xs[1..]))
    ensures |RenderItems(xs)| == |RenderItem(xs[0], |xs| > 1)| + |RenderItems(xs[1..])|
  {
    hide RenderItem, At;
    AtSplit(s, i, RenderItem(xs[0], |xs| > 1), RenderItems(xs[1..]));
  }

  // ---- Bracket matching over a tree ----

  lemma {:induction false} MatchOverNeutral(s: string, i: nat, depth: nat, open: char, limit: nat, t: string)
    requires At(s, i, t) && AllNeutral(t) && depth >= 1 && IsOpen(open)
    ensures MatchFrom(s, i, depth, open, limit) == MatchFrom(s, i + |t|, depth, open, limit)
    decreases |t|
  {
    if t != "" {
      AtHead(s, i, t);
      assert forall k | 0 <= k < |t[1..]| :: t[1..][k] == t[k + 1];
      MatchOverNeutral(s, i + 1, depth, open, limit, t[1..]);
    }
  }

  lemma AtQuoted(s: string, i: nat, t: string)
    requires At(s, i, Quoted(t))
    ensures s[i] == '"' && At(s, i + 1, Escape(t)) && i + |Quoted(t)| <= |s|
    ensures StringEnd(s, i + 1) == i + |Quoted(t)| - 1
  {
    AtSplit(s, i, "\"", Escape(t) + "\"");
    AtSplit(s, i + 1, Escape(t), "\"");
    AtIndex(s, i, "\"", 0);
    StringEndOfEscape(s, i + 1, t);
  }

  lemma MatchOverString(s: string, i: nat, depth: nat, open: char, limit: nat, t: string)
    requires At(s, i, Quoted(t)) && depth >= 1 && IsOpen(open)
    ensures MatchFrom(s, i, depth, open, limit) == MatchFrom(s, i + |Quoted(t)|, depth, open, limit)
  {
    AtQuoted(s, i, t);
  }

  /** One container, given that matching passes over what is inside it. */
  lemma MatchOverContainer(s: string, i: nat, depth: nat, open: char, limit: nat, kind: char, inner: string, tail: string)
    requires IsOpen(kind) && IsOpen(open) && depth >= 1 && depth + 1 <= limit && AllSpace(tail)
    requires At(s, i, [kind] + (inner + (tail + [CloseOf(kind)])))
    requires i + 1 + |inner| <= |s|
    requires var d := if open == kind then depth + 1 else depth;
             MatchFrom(s, i + 1, d, open, limit) == MatchFrom(s, i + 1 + |inner|, d, open, limit)
    ensures i + 2 + |inner| + |tail| <= |s|
    ensures MatchFrom(s, i, depth, open, limit) == MatchFrom(s, i + 2 + |inner| + |tail|, depth, open, limit)
  {
    var d := if open == kind then depth + 1 else depth;
    AtContainer(s, i, [kind], inner, tail, [CloseOf(kind)]);
    SpaceIsNeutral(tail);
    MatchOverNeutral(s, i + 1 + |inner|, d, open, limit, tail);
  }

  /** Matching passes over every printed value whole: brackets inside strings and
      inside nested values never count. */
  lemma {:induction false} MatchOverValue(s: string, i: nat, depth: nat, open: char, limit: nat, v: Json)
    requires At(s, i, Render(v)) && WellFormed(v) && depth >= 1 && IsOpen(open)
    requires depth + Height(v) <= limit
    ensures MatchFrom(s, i, depth, open, limit) == MatchFrom(s, i + |Render(v)|, depth, open, limit)
    decreases v, 0
  {
    hide MatchFrom, At, AllSpace, AllNeutral, Quoted;
    match v
    case Str(t) => MatchOverString(s, i, depth, open, limit, t);
    case Scalar(t) =>
      ScalarIsNeutral(t);
      MatchOverNeutral(s, i, depth, open, limit, t);
    case Obj(ms, tail) =>
      AtContainer(s, i, "{", RenderMembers(ms), tail, "}");
      MatchOverMembers(s, i + 1, if open == '{' then depth + 1 else depth, open, limit, ms);
      MatchOverContainer(s, i, depth, open, limit, '{', RenderMembers(ms), tail);
    case Arr(xs, tail) =>
      AtContainer(s, i, "[", RenderItems(xs), tail, "]");
      MatchOverItems(s, i + 1, if open == '[' then depth + 1 else depth, open, limit, xs);
      MatchOverContainer(s, i, depth, open, limit, '[', RenderItems(xs), tail);
  }

  lemma ScalarIsNeutral(t: string)
    requires IsScalarText(t)
    ensures AllNeutral(t)
  {
  }

  lemma {:induction false} MatchOverMembers(s: string, i: nat, depth: nat, open: char, limit: nat, ms: seq<Member>)
    requires At(s, i, RenderMembers(ms)) && WellFormedMembers(ms) && depth >= 1 && IsOpen(open)
    requires depth + MembersHeight(ms) <= limit
    ensures MatchFrom(s, i, depth, open, limit) == MatchFrom(s, i + |RenderMembers(ms)|, depth, open, limit)
    decreases ms, 0
  {
    hide At, MatchFrom, RenderMember, WellFormedMember, Render;
    if ms != [] {
      var m, more := ms[0], |ms| > 1;
      AtSplit(s, i, RenderMember(m, more), RenderMembers(ms[1..]));
      MatchOverMember(s, i, depth, open, limit, m, more);
      MatchOverMembers(s, i + |RenderMember(m, more)|, depth, open, limit, ms[1..]);
    }
  }

  lemma {:induction false} MatchOverMember(s: string, i: nat, depth: nat, open: char, limit: nat, m: Member, more: bool)
    requires At(s, i, RenderMember(m, more)) && WellFormedMember(m) && depth >= 1 && IsOpen(open)
    requires depth + Height(m.value) <= limit
    ensures MatchFrom(s, i, depth, open, limit) == MatchFrom(s, i + |RenderMember(m, more)|, depth, open, limit)
    decreases m, 0
  {
    hide *;
    AtMember(s, i, m, more);
    MemberParts(m, more);
    var k, c, v := KeyAt(i, m), ColonAt(i, m), ValueAt(i, m);
    MatchOverNeutral(s, i, depth, open, limit, m.lead);
    MatchOverString(s, k, depth, open, limit, m.key);
    MatchOverNeutral(s, k + |Quoted(m.key)|, depth, open, limit, m.mid);
    MatchOverNeutral(s, c, depth, open, limit, ":");
    MatchOverNeutral(s, c + 1, depth, open, limit, m.gap);
    MatchOverValue(s, v, depth, open, limit, m.value);
    MatchOverNeutral(s, v + |Render(m.value)|, depth, open, limit, m.trail);
    MatchOverNeutral(s, v + |Render(m.value)| + |m.trail|, depth, open, limit, Comma(more));
  }

  lemma {:induction false} MatchOverItems(s: string, i: nat, depth: nat, open: char, limit: nat, xs: seq<Item>)
    requires At(s, i, RenderItems(xs)) && WellFormedItems(xs) && depth >= 1 && IsOpen(open)
    requires depth + ItemsHeight(xs) <= limit
    ensures MatchFrom(s, i, depth, open, limit) == MatchFrom(s, i + |RenderItems(xs)|, depth, open, limit)
    decreases xs, 0
  {
    hide At, MatchFrom, AllSpace, AllNeutral, RenderItem, WellFormedItems, ItemsHeight, Render;
    if xs != [] {
      var x, more := xs[0], |xs| > 1;
      AtItems(s, i, xs);
      AtItem(s, i, x, more);
      ItemParts(xs, more);
      var e := i + |x.lead| + |Render(x.value)|;
      MatchOverNeutral(s, i, depth, open, limit, x.lead);
      MatchOverValue(s, i + |x.lead|, depth, open, limit, x.value);
      MatchOverNeutral(s, e, depth, open, limit, x.trail);
      MatchOverNeutral(s, e + |x.trail|, depth, open, limit, Comma(more));
      MatchOverItems(s, i + |RenderItem(x, more)|, depth, open, limit, xs[1..]);
    }
  }

  lemma MatchClosing(s: string, i: nat, limit: nat, kind: char, inner: string, tail: string)
    requires IsOpen(kind) && AllSpace(tail)
    requires At(s, i, [kind] + (inner + (tail + [CloseOf(kind)])))
    requires i + 1 + |inner| <= |s|
    requires MatchFrom(s, i + 1, 1, kind, limit) == MatchFrom(s, i + 1 + |inner|, 1, kind, limit)
    ensures i < |s| && s[i] == kind && MatchFrom(s, i + 1, 1, kind, limit) == Some(i + 1 + |inner| + |tail|)
  {
    AtContainer(s, i, [kind], inner, tail, [CloseOf(kind)]);
    SpaceIsNeutral(tail);
    MatchOverNeutral(s, i + 1 + |inner|, 1, kind, limit, tail);
  }

  /** The bracket that opens a printed object or array is matched with the one
      that closes it. */
  lemma MatchOfContainer(s: string, i: nat, v: Json, limit: nat)
    requires At(s, i, Render(v)) && WellFormed(v) && (v.Obj? || v.Arr?) && Height(v) <= limit
    ensures i < |s| && s[i] == if v.Obj? then '{' else '['
    ensures MatchFrom(s, i + 1, 1, s[i], limit) == Some(i + |Render(v)| - 1)
  {
    hide MatchFrom, At, AllSpace;
    match v
    case Obj(ms, tail) =>
      AtContainer(s, i, "{", RenderMembers(ms), tail, "}");
      MatchOverMembers(s, i + 1, 1, '{', limit, ms);
      MatchClosing(s, i, limit, '{', RenderMembers(ms), tail);
    case Arr(xs, tail) =>
      AtContainer(s, i, "[", RenderItems(xs), tail, "]");
      MatchOverItems(s, i + 1, 1, '[', limit, xs);
      MatchClosing(s, i, limit, '[', RenderItems(xs), tail);
  }

  // ---- Key lookup over a tree ----

  lemma {:induction false} FindOverNeutral(key: string, s: string, i: nat, depth: int, t: string)
    requires At(s, i, t) && AllNeutral(t)
    ensures FindKeyFrom(key, s, i, depth) == FindKeyFrom(key, s, i + |t|, depth)
    decreases |t|
  {
    if t != "" {
      AtHead(s, i, t);
      assert forall k | 0 <= k < |t[1..]| :: t[1..][k] == t[k + 1];
      FindOverNeutral(key, s, i + 1, depth, t[1..]);
    }
  }

  /** White space and then a comma, a closing bracket or the end of the text:
      what follows a value. */
  predicate Closes(s: string, i: nat) {
    i <= |s| && var a := SkipSpace(s, i); a == |s| || s[a] == ',' || IsClose(s[a])
  }

  lemma ClosesBefore(s: string, i: nat, ws: string)
    requires At(s, i, ws) && AllSpace(ws) && Closes(s, i + |ws|)
    ensures Closes(s, i)
  {
    SkipSpaceOver(s, i, ws);
  }

  /** A string that is a value is never taken for a key. */
  lemma FindOverString(key: string, s: string, i: nat, depth: int, t: string)
    requires At(s, i, Quoted(t)) && Closes(s, i + |Quoted(t)|)
    ensures FindKeyFrom(key, s, i, depth) == FindKeyFrom(key, s, i + |Quoted(t)|, depth)
  {
    AtQuoted(s, i, t);
  }

  /** Below the top level no string is taken for the key. */
  lemma FindOverDeepString(key: string, s: string, i: nat, depth: int, t: string)
    requires At(s, i, Quoted(t)) && depth >= 2
    ensures FindKeyFrom(key, s, i, depth) == FindKeyFrom(key, s, i + |Quoted(t)|, depth)
  {
    AtQuoted(s, i, t);
  }

  /** What follows the value of a member: its own trailing space, then a comma or
      whatever follows the members. */
  lemma ClosesAfterValue(s: string, i: nat, trail: string, more: bool)
    requires At(s, i, trail) && AllSpace(trail) && At(s, i + |trail|, Comma(more))
    requires more || Closes(s, i + |trail|)
    ensures Closes(s, i)
  {
    if more {
      AtIndex(s, i + |trail|, ",", 0);
    }
    ClosesBefore(s, i, trail);
  }

  lemma FindStep(key: string, s: string, i: nat, depth: nat)
    requires i < |s|
    ensures IsOpen(s[i]) && depth < DEPTH_LIMIT ==> FindKeyFrom(key, s, i, depth) == FindKeyFrom(key, s, i + 1, depth + 1)
    ensures IsClose(s[i]) ==> FindKeyFrom(key, s, i, depth) == FindKeyFrom(key, s, i + 1, depth - 1)
    ensures IsClose(s[i]) ==> Closes(s, i)
  {
  }

  /** White space and a closing bracket follow the inside of a container. */
  lemma ClosesInside(s: string, i: nat, kind: char, inner: string, tail: string)
    requires IsOpen(kind) && AllSpace(tail)
    requires At(s, i, [kind] + (inner + (tail + [CloseOf(kind)])))
    ensures At(s, i + 1, inner) && Closes(s, i + 1 + |inner|)
  {
    AtContainer(s, i, [kind], inner, tail, [CloseOf(kind)]);
    ClosesBefore(s, i + 1 + |inner|, tail);
  }

  /** One container, given that lookup passes over what is inside it. */
  lemma FindOverContainer(key: string, s: string, i: nat, depth: nat, kind: char, inner: string, tail: string)
    requires IsOpen(kind) && depth + 1 <= DEPTH_LIMIT && AllSpace(tail)
    requires At(s, i, [kind] + (inner + (tail + [CloseOf(kind)])))
    requires i + 1 + |inner| <= |s|
    requires FindKeyFrom(key, s, i + 1, depth + 1) == FindKeyFrom(key, s, i + 1 + |inner|, depth + 1)
    ensures i + 2 + |inner| + |tail| <= |s|
    ensures FindKeyFrom(key, s, i, depth) == FindKeyFrom(key, s, i + 2 + |inner| + |tail|, depth)
  {
    AtContainer(s, i, [kind], inner, tail, [CloseOf(kind)]);
    SpaceIsNeutral(tail);
    FindStep(key, s, i, depth);
    FindOverNeutral(key, s, i + 1 + |inner|, depth + 1, tail);
    FindStep(key, s, i + 1 + |inner| + |tail|, depth + 1);
  }

  /** Lookup passes over every printed value whole, from any depth. */
  lemma {:induction false} FindOverValue(key: string, s: string, i: nat, depth: nat, v: Json)
    requires At(s, i, Render(v)) && WellFormed(v) && depth >= 1 && Closes(s, i + |Render(v)|)
    requires depth + Height(v) <= DEPTH_LIMIT
    ensures FindKeyFrom(key, s, i, depth) == FindKeyFrom(key, s, i + |Render(v)|, depth)
    decreases v, 0
  {
    hide FindKeyFrom, At, AllSpace, AllNeutral, Quoted, Closes;
    match v
    case Str(t) => FindOverString(key, s, i, depth, t);
    case Scalar(t) =>
      ScalarIsNeutral(t);
      FindOverNeutral(key, s, i, depth, t);
    case Obj(ms, tail) =>
      AtContainer(s, i, "{", RenderMembers(ms), tail, "}");
      ClosesInside(s, i, '{', RenderMembers(ms), tail);
      FindOverMembers(key, s, i + 1, depth + 1, ms);
      FindOverContainer(key, s, i, depth, '{', RenderMembers(ms), tail);
    case Arr(xs, tail) =>
      AtContainer(s, i, "[", RenderItems(xs), tail, "]");
      ClosesInside(s, i, '[', RenderItems(xs), tail);
      FindOverItems(key, s, i + 1, depth + 1, xs);
      FindOverContainer(key, s, i, depth, '[', RenderItems(xs), tail);
  }

  lemma {:induction false} FindOverMembers(key: string, s: string, i: nat, depth: nat, ms: seq<Member>)
    requires At(s, i, RenderMembers(ms)) && WellFormedMembers(ms) && depth >= 2
    requires Closes(s, i + |RenderMembers(ms)|) && depth + MembersHeight(ms) <= DEPTH_LIMIT
    ensures FindKeyFrom(key, s, i, depth) == FindKeyFrom(key, s, i + |RenderMembers(ms)|, depth)
    decreases ms, 0
  {
    hide At, FindKeyFrom, Closes, RenderMember, WellFormedMember, Render;
    if ms != [] {
      var m, more := ms[0], |ms| > 1;
      AtSplit(s, i, RenderMember(m, more), RenderMembers(ms[1..]));
      FindOverMember(key, s, i, depth, m, more);
      FindOverMembers(key, s, i + |RenderMember(m, more)|, depth, ms[1..]);
    }
  }

  lemma {:induction false} FindOverMember(key: string, s: string, i: nat, depth: nat, m: Member, more: bool)
    requires At(s, i, RenderMember(m, more)) && WellFormedMember(m) && depth >= 2
    requires more || Closes(s, i + |RenderMember(m, more)|)
    requires depth + Height(m.value) <= DEPTH_LIMIT
    ensures FindKeyFrom(key, s, i, depth) == FindKeyFrom(key, s, i + |RenderMember(m, more)|, depth)
    decreases m, 1
  {
    hide *;
    AtMember(s, i, m, more);
    MemberParts(m, more);
    FindOverNeutral(key, s, i, depth, m.lead);
    FindOverDeepString(key, s, KeyAt(i, m), depth, m.key);
    FindOverNeutral(key, s, KeyAt(i, m) + |Quoted(m.key)|, depth, m.mid);
    FindOverNeutral(key, s, ColonAt(i, m), depth, ":");
    FindOverNeutral(key, s, ColonAt(i, m) + 1, depth, m.gap);
    FindOverRest(key, s, i, depth, m, more);
  }

  /** From the value of a member to the end of the member. */
  lemma {:induction false} FindOverRest(key: string, s: string, i: nat, depth: nat, m: Member, more: bool)
    requires At(s, i, RenderMember(m, more)) && WellFormedMember(m) && depth >= 1
    requires more || Closes(s, i + |RenderMember(m, more)|)
    requires depth + Height(m.value) <= DEPTH_LIMIT
    ensures At(s, ValueAt(i, m), Render(m.value)) && Closes(s, ValueAt(i, m) + |Render(m.value)|)
    ensures FindKeyFrom(key, s, ValueAt(i, m), depth) == FindKeyFrom(key, s, i + |RenderMember(m, more)|, depth)
    decreases m, 0
  {
    hide *;
    AtMember(s, i, m, more);
    MemberParts(m, more);
    var e := ValueAt(i, m) + |Render(m.value)|;
    assert !more ==> |Comma(more)| == 0 by {
      CommaLength(more);
    }
    ClosesAfterValue(s, e, m.trail, more);
    FindOverValue(key, s, ValueAt(i, m), depth, m.value);
    FindOverNeutral(key, s, e, depth, m.trail);
    FindOverNeutral(key, s, e + |m.trail|, depth, Comma(more));
  }

  lemma CommaLength(more: bool)
    ensures |Comma(more)| == if more then 1 else 0
  {
  }

  lemma {:induction false} FindOverItems(key: string, s: string, i: nat, depth: nat, xs: seq<Item>)
    requires At(s, i, RenderItems(xs)) && WellFormedItems(xs) && depth >= 1
    requires Closes(s, i + |RenderItems(xs)|) && depth + ItemsHeight(xs) <= DEPTH_LIMIT
    ensures FindKeyFrom(key, s, i, depth) == FindKeyFrom(key, s, i + |RenderItems(xs)|, depth)
    decreases xs, 0
  {
    hide At, FindKeyFrom, Closes, AllSpace, AllNeutral, RenderItem, WellFormedItems, ItemsHeight, Render, Comma;
    if xs != [] {
      var x, more := xs[0], |xs| > 1;
      AtItems(s, i, xs);
      AtItem(s, i, x, more);
      ItemParts(xs, more);
      CommaLength(more);
      var e := i + |x.lead| + |Render(x.value)|;
      ClosesAfterValue(s, e, x.trail, more);
      FindOverNeutral(key, s, i, depth, x.lead);
      FindOverValue(key, s, i + |x.lead|, depth, x.value);
      FindOverNeutral(key, s, e, depth, x.trail);
      FindOverNeutral(key, s, e + |x.trail|, depth, Comma(more));
      FindOverItems(key, s, i + |RenderItem(x, more)|, depth, xs[1..]);
    }
  }

  /** The value of the first member named `key`. */
  function FirstValue(ms: seq<Member>, key: string): (r: Option<Json>) {
    if ms == [] then None
    else if ms[0].key == key then Some(ms[0].value)
    else FirstValue(ms[1..], key)
  }

  predicate StartsSolid(t: string) {
    t != "" && !IsSpace(t[0])
  }

  lemma RenderStartsSolid(v: Json)
    requires WellFormed(v)
    ensures StartsSolid(Render(v))
  {
  }

  /** Looking a key up among printed members stops at the value of the first
      member of that name, and otherwise reaches the end of the members. */
  lemma {:induction false} FindAmongMembers(key: string, s: string, i: nat, ms: seq<Member>)
    requires At(s, i, RenderMembers(ms)) && WellFormedMembers(ms)
    requires Closes(s, i + |RenderMembers(ms)|) && 1 + MembersHeight(ms) <= DEPTH_LIMIT
    ensures FirstValue(ms, key) == None ==>
              FindKeyFrom(key, s, i, 1) == FindKeyFrom(key, s, i + |RenderMembers(ms)|, 1)
    ensures FirstValue(ms, key).Some? ==>
              FindKeyFrom(key, s, i, 1).Some?
              && StandsAt(s, FindKeyFrom(key, s, i, 1).value, FirstValue(ms, key).value)
    decreases ms
  {
    hide At, FindKeyFrom, Closes, RenderMember, WellFormed, Render, StandsAt;
    if ms != [] {
      var m, more := ms[0], |ms| > 1;
      AtSplit(s, i, RenderMember(m, more), RenderMembers(ms[1..]));
      FindAtMember(key, s, i, m, more);
      if m.key != key {
        FindOverRest(key, s, i, 1, m, more);
        FindAmongMembers(key, s, i + |RenderMember(m, more)|, ms[1..]);
      }
    }
  }

  /** A printed value stands at `i`, ready to be extracted. */
  predicate StandsAt(s: string, i: nat, v: Json) {
    At(s, i, Render(v)) && WellFormed(v) && Height(v) <= DEPTH_LIMIT && Closes(s, i + |Render(v)|)
  }

  lemma FindAtMember(key: string, s: string, i: nat, m: Member, more: bool)
    requires At(s, i, RenderMember(m, more)) && WellFormedMember(m)
    requires more || Closes(s, i + |RenderMember(m, more)|)
    requires 1 + Height(m.value) <= DEPTH_LIMIT
    ensures StandsAt(s, ValueAt(i, m), m.value)
    ensures m.key == key ==> FindKeyFrom(key, s, i, 1) == Some(ValueAt(i, m))
    ensures m.key != key ==> FindKeyFrom(key, s, i, 1) == FindKeyFrom(key, s, ValueAt(i, m), 1)
  {
    hide At, FindKeyFrom, Closes, AllSpace, AllNeutral, Quoted, Render, RenderMember, SkipSpace, WellFormedMember;
    AtMember(s, i, m, more);
    MemberParts(m, more);
    FindOverRest(key, s, i, 1, m, more);
    AfterKey(s, i, m, more);
    var k, c := KeyAt(i, m), ColonAt(i, m);
    FindAtKey(key, s, k, c, m.key);
    FindOverNeutral(key, s, i, 1, m.lead);
    FindOverNeutral(key, s, k + |Quoted(m.key)|, 1, m.mid);
    FindOverNeutral(key, s, c, 1, ":");
    FindOverNeutral(key, s, c + 1, 1, m.gap);
  }

  lemma AfterKey(s: string, i: nat, m: Member, more: bool)
    requires At(s, i, RenderMember(m, more)) && WellFormedMember(m)
    ensures ColonAt(i, m) < |s| && s[ColonAt(i, m)] == ':' && ValueAt(i, m) <= |s|
    ensures SkipSpace(s, KeyAt(i, m) + |Quoted(m.key)|) == ColonAt(i, m)
    ensures SkipSpace(s, ColonAt(i, m) + 1) == ValueAt(i, m)
  {
    AtMember(s, i, m, more);
    SkipSpaceOver(s, KeyAt(i, m) + |Quoted(m.key)|, m.mid);
    SkipSpaceOver(s, ColonAt(i, m) + 1, m.gap);
    RenderStartsSolid(m.value);
    AtIndex(s, ValueAt(i, m), Render(m.value), 0);
  }

  /** At the quote of a printed key, followed by its colon at `c`. */
  lemma FindAtKey(key: string, s: string, k: nat, c: nat, name: string)
    requires At(s, k, Quoted(name)) && SkipSpace(s, k + |Quoted(name)|) == c && c < |s| && s[c] == ':'
    ensures FindKeyFrom(key, s, k, 1)
         == if name == key then Some(SkipSpace(s, c + 1)) else FindKeyFrom(key, s, k + |Quoted(name)|, 1)
  {
    hide At, StringEnd, StrictUnescape, SkipSpace, Escape;
    AtQuoted(s, k, name);
    PrintedKeysCompareAsKeys(s, k + 1, name, key);
  }

  /** What the reader hands back for a value: the contents of a string, the text
      of anything else. */
  function Reading(v: Json): (t: string) {
    if v.Str? then v.contents else Render(v)
  }

  lemma ExtractPrinted(s: string, i: nat, v: Json)
    requires StandsAt(s, i, v)
    ensures ExtractAt(s, i) == Some(Reading(v))
  {
    match v
    case Str(t) => ExtractString(s, i, t);
    case Scalar(t) => ExtractScalar(s, i, t);
    case _ => ExtractContainer(s, i, v);
  }

  lemma ExtractString(s: string, i: nat, t: string)
    requires At(s, i, Quoted(t)) && '\0' !in t
    ensures ExtractAt(s, i) == Some(t)
  {
    hide At, StringEnd, Unescape, MatchBracket, ScalarEnd;
    AtQuoted(s, i, t);
    UnescapeInvertsEscape(s, i + 1, t);
  }

  lemma ExtractScalar(s: string, i: nat, t: string)
    requires At(s, i, t) && IsScalarText(t) && Closes(s, i + |t|)
    ensures ExtractAt(s, i) == Some(t)
  {
    hide StringEnd, Unescape, MatchBracket;
    AtIndex(s, i, t, 0);
    ScalarEndIs(s, i, t);
  }

  lemma ExtractContainer(s: string, i: nat, v: Json)
    requires At(s, i, Render(v)) && WellFormed(v) && (v.Obj? || v.Arr?) && Height(v) <= DEPTH_LIMIT
    ensures ExtractAt(s, i) == Some(Render(v))
  {
    hide StringEnd, Unescape, Render, WellFormed, MatchFrom;
    MatchOfContainer(s, i, v, DEPTH_LIMIT);
  }

  lemma {:induction false} ScalarEndIs(s: string, i: nat, t: string)
    requires At(s, i, t) && Closes(s, i + |t|)
    requires forall k | 0 <= k < |t| :: !EndsScalar(t[k])
    ensures ScalarEnd(s, i) == i + |t|
    decreases |t|
  {
    if t != "" {
      AtHead(s, i, t);
      assert forall k | 0 <= k < |t[1..]| :: t[1..][k] == t[k + 1];
      ScalarEndIs(s, i + 1, t[1..]);
    }
  }

  /** Looking up a key in a printed object, cut anywhere after its last member,
      reads the first member of that name. */
  lemma ValueAmongMembers(key: string, s: string, ms: seq<Member>)
    requires |s| >= 1 && s[0] == '{' && At(s, 1, RenderMembers(ms)) && WellFormedMembers(ms)
    requires Closes(s, 1 + |RenderMembers(ms)|) && 1 + MembersHeight(ms) <= DEPTH_LIMIT
    requires FirstValue(ms, key).Some?
    ensures ValueOf(key, s) == Some(Reading(FirstValue(ms, key).value))
  {
    hide At, FindKeyFrom, Closes, StandsAt, ExtractAt, Render, RenderMembers, MembersHeight, WellFormedMembers;
    FindStep(key, s, 0, 0);
    FindAmongMembers(key, s, 1, ms);
    ExtractPrinted(s, FindKeyFrom(key, s, 1, 1).value, FirstValue(ms, key).value);
  }

  lemma NothingAfterMembers(key: string, s: string, inner: string, tail: string, rest: string)
    requires AllSpace(tail) && AllSpace(rest) && At(s, 0, "{" + (inner + (tail + "}")))
    requires At(s, 2 + |inner| + |tail|, rest) && |s| == 2 + |inner| + |tail| + |rest|
    ensures FindKeyFrom(key, s, 1 + |inner|, 1) == None
  {
    AtContainer(s, 0, "{", inner, tail, "}");
    SpaceIsNeutral(tail);
    SpaceIsNeutral(rest);
    FindOverNeutral(key, s, 1 + |inner|, 1, tail);
    FindStep(key, s, 1 + |inner| + |tail|, 1);
    FindOverNeutral(key, s, 2 + |inner| + |tail|, 0, rest);
  }

  lemma AtFront(a: string, b: string)
    ensures At(a + b, 0, a) && At(a + b, |a|, b)
  {
    AtSplit(a + b, 0, a, b);
  }

  /** Lookup in the text of an object is lookup in the object. */
  lemma LookupIsFirstMember(key: string, v: Json, rest: string)
    requires v.Obj? && WellFormed(v) && Height(v) <= DEPTH_LIMIT && AllSpace(rest)
    ensures ValueOf(key, Render(v) + rest)
         == match FirstValue(v.members, key)
            case None => None
            case Some(w) => Some(Reading(w))
  {
    hide At, Closes, AllSpace, FindKeyFrom, ExtractAt, RenderMembers, MembersHeight, WellFormedMembers, FirstValue;
    var s, inner := Render(v) + rest, RenderMembers(v.members);
    AtFront(Render(v), rest);
    AtContainer(s, 0, "{", inner, v.tail, "}");
    ClosesInside(s, 0, '{', inner, v.tail);
    FindStep(key, s, 0, 0);
    if FirstValue(v.members, key).Some? {
      ValueAmongMembers(key, s, v.members);
    } else {
      FindAmongMembers(key, s, 1, v.members);
      NothingAfterMembers(key, s, inner, v.tail, rest);
    }
  }

  /** Looking up the key of member `k`, no earlier one having the same key. */
  lemma MemberReads(v: Json, k: nat, rest: string)
    requires v.Obj? && WellFormed(v) && Height(v) <= DEPTH_LIMIT && AllSpace(rest)
    requires k < |v.members| && forall j | 0 <= j < k :: v.members[j].key != v.members[k].key
    ensures ValueOf(v.members[k].key, Render(v) + rest) == Some(Reading(v.members[k].value))
  {
    hide ValueOf, WellFormed, Height, FirstValue, Render;
    LookupIsFirstMember(v.members[k].key, v, rest);
    FirstValueAt(v.members, k);
  }

  lemma {:induction false} NoneNamed(ms: seq<Member>, key: string)
    requires forall k | 0 <= k < |ms| :: ms[k].key != key
    ensures FirstValue(ms, key) == None
  {
    if ms != [] {
      NoneNamed(ms[1..], key);
    }
  }

  lemma MissingReads(v: Json, key: string, rest: string)
    requires v.Obj? && WellFormed(v) && Height(v) <= DEPTH_LIMIT && AllSpace(rest)
    requires forall k | 0 <= k < |v.members| :: v.members[k].key != key
    ensures ValueOf(key, Render(v) + rest) == None
  {
    hide ValueOf, WellFormed, Height, FirstValue, Render;
    LookupIsFirstMember(key, v, rest);
    NoneNamed(v.members, key);
  }

  lemma PrintedField(v: Json, key: string)
    requires v.Obj? && WellFormed(v) && Height(v) <= DEPTH_LIMIT
    ensures ValueOf(key, Render(v))
         == match FirstValue(v.members, key)
            case None => None
            case Some(Str(s)) => Some(s)
            case Some(Scalar(s)) => Some(s)
            case Some(w) => Some(Render(w))
  {
    hide ValueOf, WellFormed, Height, FirstValue;
    assert Render(v) + "" == Render(v);
    LookupIsFirstMember(key, v, "");
  }

  // ---- Paths ----

  lemma {:induction false} FirstValueIsWellFormed(ms: seq<Member>, key: string)
    requires WellFormedMembers(ms) && FirstValue(ms, key).Some?
    ensures WellFormed(FirstValue(ms, key).value) && Height(FirstValue(ms, key).value) <= MembersHeight(ms)
  {
    if ms[0].key != key {
      FirstValueIsWellFormed(ms[1..], key);
    }
  }

  /** The value reached by following `path` from object to object. */
  function Navigate(v: Json, path: seq<string>): (r: Option<Json>)
    decreases |path|
  {
    if path == [] then Some(v)
    else if !v.Obj? then None
    else
      match FirstValue(v.members, path[0])
      case None => None
      case Some(w) => Navigate(w, path[1..])
  }

  /** Lookups applied one to the result of another, starting from a text. */
  function ReadPath(s: string, path: seq<string>): (r: Option<string>)
    decreases |path|
  {
    if path == [] then Some(s)
    else
      match ValueOf(path[0], s)
      case None => None
      case Some(t) => ReadPath(t, path[1..])
  }

  /** The path leads through objects to one that lacks the next key. */
  predicate IsMissing(v: Json, path: seq<string>)
    decreases |path|
  {
    path != [] && v.Obj?
    && (FirstValue(v.members, path[0]).None? || IsMissing(FirstValue(v.members, path[0]).value, path[1..]))
  }

  /** Lookups compose: following a path through texts reaches the value the path
      names in the tree, and a member missing on the way is reported missing. */
  lemma {:induction false} LookupsCompose(v: Json, path: seq<string>)
    requires WellFormed(v) && Height(v) <= DEPTH_LIMIT
    ensures match Navigate(v, path)
            case Some(w) => ReadPath(Reading(v), path) == Some(Reading(w))
            case None => IsMissing(v, path) ==> ReadPath(Reading(v), path) == None
    decreases |path|
  {
    if path != [] && v.Obj? {
      LookupIsFirstMember(path[0], v, "");
      assert Render(v) + "" == Render(v);
      if FirstValue(v.members, path[0]).Some? {
        FirstValueIsWellFormed(v.members, path[0]);
        LookupsCompose(FirstValue(v.members, path[0]).value, path[1..]);
      }
    }
  }

  // ---- A printed document holds no NUL ----

  lemma {:induction false} EscapeHasNoNul(t: string)
    ensures '\0' !in Escape(t)
  {
    if t != "" {
      EscapeHasNoNul(t[1..]);
    }
  }

  lemma QuotedHasNoNul(t: string)
    ensures '\0' !in Quoted(t)
  {
    EscapeHasNoNul(t);
  }

  lemma {:induction false} RenderHasNoNul(v: Json)
    requires WellFormed(v)
    ensures '\0' !in Render(v)
    decreases v, 0
  {
    match v
    case Str(t) => QuotedHasNoNul(t);
    case Scalar(t) =>
    case Obj(ms, tail) => MembersHaveNoNul(ms);
    case Arr(xs, tail) => ItemsHaveNoNul(xs);
  }

  lemma {:induction false} MembersHaveNoNul(ms: seq<Member>)
    requires WellFormedMembers(ms)
    ensures '\0' !in RenderMembers(ms)
    decreases ms, 0
  {
    hide WellFormed, Render, RenderMember, AllSpace;
    if ms != [] {
      MemberParts(ms[0], |ms| > 1);
      RenderHasNoNul(ms[0].value);
      MemberHasNoNul(ms[0], |ms| > 1);
      MembersHaveNoNul(ms[1..]);
    }
  }

  lemma MemberHasNoNul(m: Member, more: bool)
    requires AllSpace(m.lead) && AllSpace(m.mid) && AllSpace(m.gap) && AllSpace(m.trail)
    requires '\0' !in Render(m.value)
    ensures '\0' !in RenderMember(m, more)
  {
    hide Render, Quoted;
    QuotedHasNoNul(m.key);
  }

  lemma {:induction false} ItemsHaveNoNul(xs: seq<Item>)
    requires WellFormedItems(xs)
    ensures '\0' !in RenderItems(xs)
    decreases xs, 0
  {
    if xs != [] {
      RenderHasNoNul(xs[0].value);
      ItemsHaveNoNul(xs[1..]);
      assert '\0' !in RenderItem(xs[0], |xs| > 1);
    }
  }

  // ---- Members by position ----

  lemma {:induction false} FirstValueAt(ms: seq<Member>, k: nat)
    requires k < |ms| && forall j | 0 <= j < k :: ms[j].key != ms[k].key
    ensures FirstValue(ms, ms[k].key) == Some(ms[k].value)
  {
    if k > 0 {
      FirstValueAt(ms[1..], k - 1);
    }
  }

  lemma {:induction false} MembersFromParts(ms: seq<Member>, h: nat)
    requires forall k | 0 <= k < |ms| :: WellFormedMember(ms[k]) && Height(ms[k].value) <= h
    ensures WellFormedMembers(ms) && MembersHeight(ms) <= h
  {
    if ms != [] {
      MembersFromParts(ms[1..], h);
    }
  }

  /** The value of a member that nothing follows ends where the members end. */
  lemma {:induction false} FindLastMember(key: string, s: string, i: nat, ms: seq<Member>)
    requires At(s, i, RenderMembers(ms)) && WellFormedMembers(ms) && ms != []
    requires Closes(s, i + |RenderMembers(ms)|) && 1 + MembersHeight(ms) <= DEPTH_LIMIT
    requires ms[|ms| - 1].key == key && FirstValue(ms[..|ms| - 1], key) == None
    ensures var last := ms[|ms| - 1];
            FindKeyFrom(key, s, i, 1) == Some(i + |RenderMembers(ms)| - |last.trail| - |Render(last.value)|)
    decreases ms
  {
    hide At, FindKeyFrom, Closes, RenderMember, WellFormed, Render, StandsAt;
    var m, more := ms[0], |ms| > 1;
    AtSplit(s, i, RenderMember(m, more), RenderMembers(ms[1..]));
    FindAtMember(key, s, i, m, more);
    if more {
      assert ms[..|ms| - 1][0] == m && ms[..|ms| - 1][1..] == ms[1..][..|ms| - 2];
      FindOverRest(key, s, i, 1, m, more);
      FindLastMember(key, s, i + |RenderMember(m, more)|, ms[1..]);
    } else {
      AtMember(s, i, m, more);
      CommaLength(more);
      assert RenderMembers(ms[1..]) == "";
    }
  }
}
