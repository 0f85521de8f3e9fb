/** The gpsd client: lines out of a byte stream that arrives in pieces, and the fix
    they report. */
module Gpsd {
  import opened Basics
  import opened Numbers
  import opened JsonScan
  import opened JsonTree

  // The line buffer, its terminator included.
  const LINE_MAX: nat := 8192
  const MAX_LINES: nat := 256

  datatype Scan = Scan(sawDevice: bool, haveFix: bool, lat: real, lng: real)

  const NOTHING_SEEN := Scan(false, false, 0.0, 0.0)

  // ---- One line ----

  /** `atoi`: the low 32 bits of `strtol`, as a signed number. */
  function AToI(s: string): (n: int)
    ensures -0x8000_0000 <= n < 0x8000_0000
  {
    (StrToL(s) + 0x8000_0000) % 0x1_0000_0000 - 0x8000_0000
  }

  /** The fix a position report gives, if it gives one. */
  function FixOf(mode: Option<string>, lat: Option<string>, lon: Option<string>): (r: Option<(real, real)>)
    ensures r.Some? ==> -90.0 <= r.value.0 <= 90.0 && -180.0 <= r.value.1 <= 180.0
  {
    if mode == None || lat == None || lon == None || AToI(mode.value) < 2 then None
    else if !HasNumber(lat.value) || !HasNumber(lon.value) then None
    else
      var x, y := StrToD(lat.value), StrToD(lon.value);
      if -90.0 <= x <= 90.0 && -180.0 <= y <= 180.0 then Some((x, y)) else None
  }

  /** What the text of a line adds to the scan. */
  function ScanText(scan: Scan, s: string): (r: Scan) {
    match ValueOf("class", s)
    case None => scan
    case Some(cls) =>
      var seen := scan.(sawDevice := scan.sawDevice || cls in {"TPV", "SKY", "DEVICE"});
      if cls != "TPV" then seen
      else
        match FixOf(ValueOf("mode", s), ValueOf("lat", s), ValueOf("lon", s))
        case None => seen
        case Some(fix) => seen.(haveFix := true, lat := fix.0, lng := fix.1)
  }

  /** `gpsd_scan_line`: a line is a C string, and an empty one says nothing. */
  function ScanLine(scan: Scan, line: string): (r: Scan) {
    var s := CString(line);
    if s == "" || |s| >= LINE_MAX then scan else ScanText(scan, s)
  }

  method ReadLine(scan: Scan, line: string) returns (r: Scan)
    ensures r == ScanLine(scan, line)
  {
    hide FixOf, ValueOf, CString;
    var s := CString(line);
    if s == "" || |s| >= LINE_MAX {
      return scan;
    }
    var cls := GetValue("class", s);
    if cls == None {
      return scan;
    }
    r := scan;
    if cls.value == "TPV" || cls.value == "SKY" || cls.value == "DEVICE" {
      r := r.(sawDevice := true);
    }
    if cls.value == "TPV" {
      var mode := GetValue("mode", s);
      var lat := GetValue("lat", s);
      var lon := GetValue("lon", s);
      var fix := FixOf(mode, lat, lon);
      if fix.Some? {
        r := r.(lat := fix.value.0, lng := fix.value.1, haveFix := true);
      }
    }
  }

  /** A fix lies on the globe, and comes with a device. */
  predicate IsSane(scan: Scan) {
    scan.haveFix ==> scan.sawDevice && -90.0 <= scan.lat <= 90.0 && -180.0 <= scan.lng <= 180.0
  }

  // ---- A printed report ----

  /** A printed object that fits the line buffer, with what may follow it on its
      line. */
  predicate IsReport(v: Json, rest: string) {
    v.Obj? && WellFormed(v) && Height(v) <= DEPTH_LIMIT && AllSpace(rest) && |Render(v) + rest| < LINE_MAX
  }

  /** What the first member of that name reads as. */
  function Named(v: Json, key: string): Option<string>
    requires v.Obj?
  {
    match FirstValue(v.members, key)
    case None => None
    case Some(w) => Some(Reading(w))
  }

  lemma ReportIsText(v: Json, rest: string)
    requires IsReport(v, rest)
    ensures CString(Render(v) + rest) == Render(v) + rest != ""
  {
    hide WellFormed, Height;
    RenderHasNoNul(v);
    CStringOf(Render(v) + rest);
  }

  /** A report is heard by the first members of its names, wherever they stand and
      whatever else it holds: any report of a class that has a device shows one,
      and a position report gives its fix when it has one. */
  lemma ReportIsHeard(scan: Scan, v: Json, rest: string)
    requires IsReport(v, rest)
    ensures var r := ScanLine(scan, Render(v) + rest);
            var cls := Named(v, "class");
            var fix := FixOf(Named(v, "mode"), Named(v, "lat"), Named(v, "lon"));
            && (r.sawDevice <==> scan.sawDevice || cls in {Some("TPV"), Some("SKY"), Some("DEVICE")})
            && (cls == Some("TPV") && fix.Some? ==> r.haveFix && (r.lat, r.lng) == fix.value)
            && (!(cls == Some("TPV") && fix.Some?) ==> r == scan.(sawDevice := r.sawDevice))
  {
    hide ValueOf, WellFormed, Height, Render, AllSpace, CString, FixOf, FirstValue, Reading;
    ReportIsText(v, rest);
    LookupIsFirstMember("class", v, rest);
    LookupIsFirstMember("mode", v, rest);
    LookupIsFirstMember("lat", v, rest);
    LookupIsFirstMember("lon", v, rest);
  }

  lemma PrintedModeReads(m: int)
    requires -0x8000_0000 <= m < 0x8000_0000
    ensures AToI(IntText(m)) == m
  {
    StrToLOfIntText(m);
  }

  lemma PrintedDecimalIsNumber(x: real, k: nat)
    ensures HasNumber(FixedText(x, k))
  {
    hide UnsignedFixed, Scaled;
    var u := UnsignedFixed(Magnitude(Scaled(x, k)), k);
    var s := FixedText(x, k);
    if x < 0.0 {
      assert s == "-" + u && s[0] == '-' && s[1] == u[0];
    } else {
      assert s == u && s[0] != '-' && s[0] != '+';
    }
    SkipSpaceIs(s, 0, 0);
  }

  /** A position report with a printed mode and printed coordinates: it gives the
      fix exactly when the mode is at least 2 and both coordinates, as rounded in
      print, lie on the globe. */
  lemma PositionReport(scan: Scan, v: Json, rest: string, mode: int, x: real, j: nat, y: real, k: nat)
    requires IsReport(v, rest) && -0x8000_0000 <= mode < 0x8000_0000
    requires FirstValue(v.members, "class") == Some(Str("TPV"))
    requires FirstValue(v.members, "mode") == Some(Scalar(IntText(mode)))
    requires FirstValue(v.members, "lat") == Some(Scalar(FixedText(x, j)))
    requires FirstValue(v.members, "lon") == Some(Scalar(FixedText(y, k)))
    ensures var r := ScanLine(scan, Render(v) + rest);
            var lat, lon := Rounded(x, j), Rounded(y, k);
            r == if mode >= 2 && -90.0 <= lat <= 90.0 && -180.0 <= lon <= 180.0 then Scan(true, true, lat, lon)
                 else scan.(sawDevice := true)
  {
    hide IsReport, ScanLine, AToI, IntText, FixedText, StrToD, HasNumber, Rounded, FirstValue;
    ReportIsHeard(scan, v, rest);
    PrintedModeReads(mode);
    PrintedDecimalIsNumber(x, j);
    PrintedDecimalIsNumber(y, k);
    StrToDOfFixedText(x, j);
    StrToDOfFixedText(y, k);
    ScalarReads(IntText(mode));
    ScalarReads(FixedText(x, j));
    ScalarReads(FixedText(y, k));
  }

  lemma ScalarReads(t: string)
    ensures Reading(Scalar(t)) == t
  {
  }

  // ---- What a stream says ----

  function LineEnd(s: string): (e: nat)
    ensures e <= |s| && '\n' !in s[..e] && (e < |s| ==> s[e] == '\n')
  {
    if s == "" || s[0] == '\n' then 0
    else
      var e := 1 + LineEnd(s[1..]);
      assert s[..e] == [s[0]] + s[1..][..e - 1];
      e
  }

  /** The finished lines of a stream. */
  function Lines(s: string): (r: seq<string>)
    decreases |s|
  {
    var e := LineEnd(s);
    if e == |s| then [] else [s[..e]] + Lines(s[e + 1..])
  }

  /** Without the lines that do not fit the buffer. */
  function Fitting(lines: seq<string>): (r: seq<string>) {
    if lines == [] then []
    else if |lines[0]| < LINE_MAX then [lines[0]] + Fitting(lines[1..])
    else Fitting(lines[1..])
  }

  /** Scans line after line, up to the first fix and no further than `budget`. */
  function ScanAll(scan: Scan, lines: seq<string>, budget: nat): (r: Scan)
    decreases budget
  {
    if scan.haveFix || lines == [] || budget == 0 then scan
    else ScanAll(ScanLine(scan, lines[0]), lines[1..], budget - 1)
  }

  lemma {:induction false} ScanAllIsSane(scan: Scan, lines: seq<string>, budget: nat)
    requires IsSane(scan)
    ensures IsSane(ScanAll(scan, lines, budget))
    decreases budget
  {
    hide ScanLine;
    if !(scan.haveFix || lines == [] || budget == 0) {
      ScanLineIsSane(scan, lines[0]);
      ScanAllIsSane(ScanLine(scan, lines[0]), lines[1..], budget - 1);
    }
  }

  lemma ScanLineIsSane(scan: Scan, line: string)
    requires IsSane(scan)
    ensures IsSane(ScanLine(scan, line))
  {
    hide FixOf, ValueOf, CString;
  }

  /** What a whole stream says. */
  function Heard(stream: string): Scan {
    ScanAll(NOTHING_SEEN, Fitting(Lines(stream)), MAX_LINES)
  }

  // ---- The receiver ----

  datatype State = State(line: string, overflow: bool, linesSeen: nat, scan: Scan)

  const START := State("", false, 0, NOTHING_SEEN)

  predicate HasStopped(st: State) {
    st.scan.haveFix || st.linesSeen >= MAX_LINES
  }

  /** One received byte. */
  function Step(st: State, c: char): State {
    if HasStopped(st) then st
    else if c == '\n' then
      State("", false, if st.overflow then st.linesSeen else st.linesSeen + 1,
            if st.overflow then st.scan else ScanLine(st.scan, st.line))
    else if st.overflow then st
    else if |st.line| < LINE_MAX - 1 then st.(line := st.line + [c])
    else st.(overflow := true)
  }

  function Steps(st: State, s: string): State
    decreases |s|
  {
    if s == "" then st else Steps(Step(st, s[0]), s[1..])
  }

  lemma {:induction false} StepsConcat(st: State, a: string, b: string)
    ensures Steps(st, a + b) == Steps(Steps(st, a), b)
    decreases |a|
  {
    if a == "" {
      assert a + b == b;
    } else {
      assert (a + b)[1..] == a[1..] + b;
      StepsConcat(Step(st, a[0]), a[1..], b);
    }
  }

  lemma {:induction false} StepsWhenStopped(st: State, s: string)
    requires HasStopped(st)
    ensures Steps(st, s) == st
    decreases |s|
  {
    if s != "" {
      StepsWhenStopped(st, s[1..]);
    }
  }

  /** `p` is the unfinished line the receiver is in the middle of. */
  predicate IsInside(st: State, p: string) {
    '\n' !in p && if st.overflow then |p| >= LINE_MAX else p == st.line && |p| < LINE_MAX
  }

  lemma NoLineIn(p: string)
    requires '\n' !in p
    ensures Lines(p) == []
  {
    assert forall k | 0 <= k < |p| :: p[k] in p;
  }

  lemma FirstLine(p: string, rest: string)
    requires '\n' !in p
    ensures Lines(p + ['\n'] + rest) == [p] + Lines(rest)
  {
    var s := p + ['\n'] + rest;
    var e := LineEnd(s);
    assert forall k | 0 <= k < |p| :: s[k] == p[k] && p[k] in p;
    assert forall k | 0 <= k < e :: s[k] in s[..e];
    assert s[|p|] == '\n';
    assert e == |p|;
    assert s[..|p|] == p && s[|p| + 1..] == rest;
  }

  /** The receiver in the middle of a line, on the rest of the stream: it hears
      what that line and the rest say. */
  lemma {:induction false} StepsHear(st: State, p: string, s: string)
    requires IsInside(st, p) && st.linesSeen <= MAX_LINES
    ensures Steps(st, s).scan == ScanAll(st.scan, Fitting(Lines(p + s)), MAX_LINES - st.linesSeen)
    decreases |s|
  {
    hide Lines, ScanLine, Fitting;
    if HasStopped(st) {
      StepsWhenStopped(st, s);
    } else if s == "" {
      assert p + s == p;
      NoLineIn(p);
      NoneFits();
    } else if s[0] == '\n' {
      assert p + s == p + ['\n'] + s[1..];
      assert "" + s[1..] == s[1..];
      FirstLine(p, s[1..]);
      FittingStep(p, Lines(s[1..]));
      StepsHear(Step(st, s[0]), "", s[1..]);
    } else {
      assert p + s == p + [s[0]] + s[1..];
      StepsHear(Step(st, s[0]), p + [s[0]], s[1..]);
    }
  }

  lemma NoneFits()
    ensures Fitting([]) == []
  {
  }

  lemma FittingStep(p: string, rest: seq<string>)
    ensures Fitting([p] + rest) == if |p| < LINE_MAX then [p] + Fitting(rest) else Fitting(rest)
  {
    assert ([p] + rest)[1..] == rest;
  }

  function Joined(chunks: seq<string>): string {
    if chunks == [] then "" else chunks[0] + Joined(chunks[1..])
  }

  lemma {:induction false} JoinedLast(chunks: seq<string>, n: nat)
    requires n < |chunks|
    ensures Joined(chunks[..n + 1]) == Joined(chunks[..n]) + chunks[n]
  {
    if n == 0 {
      assert chunks[..1][1..] == [];
    } else {
      assert chunks[..n + 1][1..] == chunks[1..][..n] && chunks[..n][1..] == chunks[1..][..n - 1];
      JoinedLast(chunks[1..], n - 1);
    }
  }

  lemma {:induction false} JoinedConcat(a: seq<string>, b: seq<string>)
    ensures Joined(a + b) == Joined(a) + Joined(b)
  {
    if a == [] {
      assert a + b == b;
    } else {
      assert (a + b)[1..] == a[1..] + b;
      JoinedConcat(a[1..], b);
    }
  }

  class Receiver {
    const line: array<char>
    var lineLen: nat
    var lineOverflow: bool
    var linesSeen: nat
    var scan: Scan

    ghost predicate Valid()
      reads this
    {
      line.Length == LINE_MAX && lineLen < LINE_MAX && linesSeen <= MAX_LINES
    }

    ghost function Current(): State
      reads this, line
      requires Valid()
    {
      State(line[..lineLen], lineOverflow, linesSeen, scan)
    }

    constructor ()
      ensures Valid() && Current() == START && fresh(line)
    {
      line := new char[LINE_MAX];
      lineLen, lineOverflow, linesSeen, scan := 0, false, 0, NOTHING_SEEN;
    }

    /** A received byte. The index into the line buffer stays inside it. */
    method Put(c: char)
      requires Valid() && !HasStopped(Current())
      modifies this, line
      ensures Valid() && Current() == Step(old(Current()), c)
    {
      hide ScanLine;
      if c == '\n' {
        if !lineOverflow {
          line[lineLen] := '\0';
          scan := ReadLine(scan, line[..lineLen]);
          linesSeen := linesSeen + 1;
        }
        lineLen := 0;
        lineOverflow := false;
      } else if !lineOverflow {
        if lineLen < LINE_MAX - 1 {
          line[lineLen] := c;
          lineLen := lineLen + 1;
        } else {
          lineOverflow := true;
        }
      }
    }

    /** A received chunk, up to where the receiver stops. */
    method Feed(chunk: string)
      requires Valid()
      modifies this, line
      ensures Valid() && Current() == Steps(old(Current()), chunk)
    {
      hide Step;
      var i := 0;
      assert chunk[..0] == "";
      ghost var start := Current();
      while i < |chunk| && !scan.haveFix && linesSeen < MAX_LINES
        invariant 0 <= i <= |chunk| && Valid() && Current() == Steps(start, chunk[..i])
      {
        StepsConcat(start, chunk[..i], [chunk[i]]);
        assert chunk[..i] + [chunk[i]] == chunk[..i + 1];
        OneStep(Current(), chunk[i]);
        Put(chunk[i]);
        i := i + 1;
      }
      StepsConcat(start, chunk[..i], chunk[i..]);
      assert chunk[..i] + chunk[i..] == chunk;
      if i < |chunk| {
        StepsWhenStopped(Current(), chunk[i..]);
      }
    }

    /** The receive loop over the chunks that arrive before the stream ends. */
    method Receive(chunks: seq<string>)
      requires Valid() && Current() == START
      modifies this, line
      ensures Valid() && scan == Heard(Joined(chunks))
    {
      hide Step, Steps, Heard, Joined, HasStopped;
      var n := 0;
      NothingJoined(chunks);
      while n < |chunks| && !scan.haveFix && linesSeen < MAX_LINES
        invariant 0 <= n <= |chunks| && Valid() && Current() == Steps(START, Joined(chunks[..n]))
      {
        JoinedLast(chunks, n);
        StepsConcat(START, Joined(chunks[..n]), chunks[n]);
        Feed(chunks[n]);
        n := n + 1;
      }
      JoinedConcat(chunks[..n], chunks[n..]);
      assert chunks[..n] + chunks[n..] == chunks;
      StepsConcat(START, Joined(chunks[..n]), Joined(chunks[n..]));
      if n < |chunks| {
        NowStopped(Current());
        StepsWhenStopped(Current(), Joined(chunks[n..]));
      } else {
        NothingJoined(chunks[n..]);
        NoSteps(Current());
      }
      StartHears(Joined(chunks));
    }
  }

  lemma OneStep(st: State, c: char)
    ensures Steps(st, [c]) == Step(st, c)
  {
    assert [c][1..] == "";
  }

  lemma NoSteps(st: State)
    ensures Steps(st, "") == st
  {
  }

  lemma NowStopped(st: State)
    requires st.scan.haveFix || st.linesSeen >= MAX_LINES
    ensures HasStopped(st)
  {
  }

  lemma NothingJoined(chunks: seq<string>)
    ensures Steps(START, Joined(chunks[..0])) == START
    ensures chunks == [] ==> Joined(chunks) == ""
  {
  }

  /** The receiver hears what the stream says: the lines that fit, the first 256 of
      them, up to the first fix. */
  lemma StartHears(stream: string)
    ensures Steps(START, stream).scan == Heard(stream)
  {
    hide Step;
    assert "" + stream == stream;
    StepsHear(START, "", stream);
  }

  /** A first line that gives a fix ends the hearing: nothing after it counts. */
  lemma FirstFixWins(line: string, more: string)
    requires '\n' !in line && |line| < LINE_MAX && ScanLine(NOTHING_SEEN, line).haveFix
    ensures Heard(line + ['\n'] + more) == ScanLine(NOTHING_SEEN, line)
  {
    hide ScanLine, Lines;
    FirstLine(line, more);
    FittingStep(line, Lines(more));
  }

  datatype Status = GpsOk(lat: real, lng: real) | NoDevice | NoFix

  /** `platform_get_location`, once connected: what it answers depends on the bytes
      of the stream and not on how they were cut into chunks. */
  method GetLocation(chunks: seq<string>) returns (r: Status)
    ensures var heard := Heard(Joined(chunks));
            r == if heard.haveFix then GpsOk(heard.lat, heard.lng) else if !heard.sawDevice then NoDevice else NoFix
    ensures r.GpsOk? ==> -90.0 <= r.lat <= 90.0 && -180.0 <= r.lng <= 180.0
  {
    hide ScanLine, Lines, Fitting;
    var receiver := new Receiver();
    receiver.Receive(chunks);
    var scan := receiver.scan;
    ScanAllIsSane(NOTHING_SEEN, Fitting(Lines(Joined(chunks))), MAX_LINES);
    if scan.haveFix {
      return GpsOk(scan.lat, scan.lng);
    }
    if !scan.sawDevice {
      return NoDevice;
    }
    return NoFix;
  }
}
