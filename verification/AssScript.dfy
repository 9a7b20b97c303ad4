// The subtitle script reader and printer, for the dialogue events and the Pandora stamps.
module AssScript {
  import opened Wrappers
  import opened Text
  import opened Sorting

  const U8: nat := 256
  const U16: nat := 65536

  // ---- Times --------------------------------------------------------------------------------

  datatype Time = Time(hours: nat, minutes: nat, seconds: nat, centiseconds: nat)

  predicate GoodTime(t: Time)
  {
    t.hours < U8 && t.minutes < U8 && t.seconds < U8 && t.centiseconds < U8
  }

  function Total(t: Time): nat
  {
    t.hours * 360000 + t.minutes * 6000 + t.seconds * 100 + t.centiseconds
  }

  // As on a clock.
  predicate ClockTime(t: Time)
  {
    t.minutes < 60 && t.seconds < 60 && t.centiseconds < 100
  }

  // Hours decide, then minutes, then seconds, then centiseconds.
  predicate ClockBefore(a: Time, b: Time)
  {
    || a.hours < b.hours || (a.hours == b.hours && a.minutes < b.minutes)
    || (a.hours == b.hours && a.minutes == b.minutes && a.seconds < b.seconds)
    || (a.hours == b.hours && a.minutes == b.minutes && a.seconds == b.seconds && a.centiseconds < b.centiseconds)
  }

  // Clock times compare by their four fields; the other times a file may hold carry over.
  lemma ClockOrder(a: Time, b: Time)
    requires ClockTime(a) && ClockTime(b)
    ensures Total(a) < Total(b) <==> ClockBefore(a, b)
    ensures Total(a) == Total(b) <==> a == b
  {
  }

  lemma TimesCarry(t: Time)
    ensures Total(t.(minutes := t.minutes + 60)) == Total(t.(hours := t.hours + 1))
    ensures Total(t.(seconds := t.seconds + 60)) == Total(t.(minutes := t.minutes + 1))
    ensures Total(t.(centiseconds := t.centiseconds + 100)) == Total(t.(seconds := t.seconds + 1))
  {
  }

  function TimeText(t: Time): string
  {
    Join([Decimal(t.hours), TwoDigits(t.minutes)], ':', Join([TwoDigits(t.seconds)], '.', TwoDigits(t.centiseconds)))
  }

  function ParseTime(s: string): Option<Time>
  {
    var parts := SplitN(s, 3, ':');
    if |parts| != 3 then None
    else
      var ends := SplitN(parts[2], 2, '.');
      if |ends| != 2 then None
      else
        var h, m := ParseUnsigned(parts[0], U8), ParseUnsigned(parts[1], U8);
        var sec, cs := ParseUnsigned(ends[0], U8), ParseUnsigned(ends[1], U8);
        if h.None? || m.None? || sec.None? || cs.None? then None
        else Some(Time(h.value, m.value, sec.value, cs.value))
  }

  lemma DigitsNotSign(s: string, bound: nat)
    requires s != "" && AllDigits(s) && Value(s) < bound
    ensures ParseUnsigned(s, bound) == Some(Value(s))
    ensures ':' !in s && '.' !in s && ',' !in s && '\n' !in s
    ensures forall i :: 0 <= i < |s| ==> !IsSpace(s[i])
  {
    DigitsParse(s, bound);
  }

  lemma TimeRoundTrip(t: Time)
    requires GoodTime(t)
    ensures ParseTime(TimeText(t)) == Some(t)
  {
    var h, m, sec, cs := Decimal(t.hours), TwoDigits(t.minutes), TwoDigits(t.seconds), TwoDigits(t.centiseconds);
    DigitsNotSign(h, U8);
    DigitsNotSign(m, U8);
    DigitsNotSign(sec, U8);
    DigitsNotSign(cs, U8);
    var tail := Join([sec], '.', cs);
    SplitNOfJoin([h, m], ':', tail);
    SplitNOfJoin([sec], '.', cs);
    assert [h, m] + [tail] == [h, m, tail] && [sec] + [cs] == [sec, cs];
  }

  // A printed time has no comma, break or blank in it.
  predicate Solid(s: string)
  {
    s != "" && ',' !in s && '\n' !in s && forall i :: 0 <= i < |s| ==> !IsSpace(s[i])
  }

  lemma SolidJoin(a: string, sep: char, b: string)
    requires Solid(a) && Solid(b) && sep != ',' && sep != '\n' && !IsSpace(sep)
    ensures Solid(a + [sep] + b)
  {
  }

  lemma NumberSolid(s: string, bound: nat)
    requires s != "" && AllDigits(s) && Value(s) < bound
    ensures Solid(s)
  {
    DigitsNotSign(s, bound);
  }

  lemma PartsSolid(h: string, m: string, sec: string, cs: string)
    requires Solid(h) && Solid(m) && Solid(sec) && Solid(cs)
    ensures Solid(Join([h, m], ':', Join([sec], '.', cs)))
  {
    var tail := sec + ['.'] + cs;
    SolidJoin(sec, '.', cs);
    assert Join([sec], '.', cs) == tail;
    SolidJoin(m, ':', tail);
    var more := m + [':'] + tail;
    assert Join([m], ':', tail) == more;
    SolidJoin(h, ':', more);
    assert [h, m][1..] == [m];
  }

  lemma SolidTrims(s: string)
    requires Solid(s)
    ensures Trim(s) == s
  {
    TrimResult(s);
  }

  lemma TimeTextSolid(t: Time)
    requires GoodTime(t)
    ensures Solid(TimeText(t)) && Trim(TimeText(t)) == TimeText(t)
  {
    NumberSolid(Decimal(t.hours), U8);
    NumberSolid(TwoDigits(t.minutes), U8);
    NumberSolid(TwoDigits(t.seconds), U8);
    NumberSolid(TwoDigits(t.centiseconds), U8);
    PartsSolid(Decimal(t.hours), TwoDigits(t.minutes), TwoDigits(t.seconds), TwoDigits(t.centiseconds));
    SolidTrims(TimeText(t));
  }

  lemma ParsedTimeGood(s: string)
    ensures ParseTime(s).Some? ==> GoodTime(ParseTime(s).value)
  {
  }

  // ---- Events -------------------------------------------------------------------------------

  datatype Event = Event(
    layer: nat, start: Time, end: Time, style: string, name: string,
    marginL: nat, marginR: nat, marginV: nat, effect: string, text: string)

  // As read from a file: numbers in range, no field but the text has a comma, nothing breaks
  // the line, and the text does not end in white space.
  predicate Field(s: string)
  {
    ',' !in s && '\n' !in s
  }

  predicate GoodEvent(e: Event)
  {
    && e.layer < U16 && e.marginL < U16 && e.marginR < U16 && e.marginV < U16
    && GoodTime(e.start) && GoodTime(e.end)
    && Field(e.style) && Field(e.name) && Field(e.effect)
    && '\n' !in e.text && EndsFirm(e.text)
  }

  function FieldsOf(e: Event): seq<string>
  {
    [Decimal(e.layer), TimeText(e.start), TimeText(e.end), e.style, e.name,
     Decimal(e.marginL), Decimal(e.marginR), Decimal(e.marginV), e.effect]
  }

  // Event::stringify, without the line's end.
  function EventLine(e: Event): string
  {
    "Dialogue:" + " " + Join(FieldsOf(e), ',', e.text)
  }

  function ParseEvent(data: string): Option<Event>
  {
    var f := SplitN(Trim(data), 10, ',');
    if |f| < 10 then None
    else
      Some(Event(
        ParseUnsigned(f[0], U16).GetOr(0),
        ParseTime(f[1]).GetOr(Time(0, 0, 0, 0)),
        ParseTime(f[2]).GetOr(Time(0, 0, 0, 0)),
        f[3], f[4],
        ParseUnsigned(f[5], U16).GetOr(0),
        ParseUnsigned(f[6], U16).GetOr(0),
        ParseUnsigned(f[7], U16).GetOr(0),
        f[8], f[9]))
  }

  lemma JoinStep(field: string, rest: seq<string>, sep: char, text: string)
    ensures Join([field] + rest, sep, text) == field + [sep] + Join(rest, sep, text)
  {
    assert ([field] + rest)[1..] == rest;
  }

  lemma JoinThree(a: string, b: string, c: string, text: string)
    ensures Join([a, b, c], ',', text) == a + "," + (b + "," + (c + "," + text))
  {
    JoinStep(a, [b, c], ',', text);
    JoinStep(b, [c], ',', text);
    JoinStep(c, [], ',', text);
    assert [a] + [b, c] == [a, b, c] && [b] + [c] == [b, c] && [c] + [] == [c];
  }

  lemma {:induction false} JoinParts(a: seq<string>, b: seq<string>, sep: char, text: string)
    ensures Join(a + b, sep, text) == Join(a, sep, Join(b, sep, text))
  {
    if a == [] {
      assert a + b == b;
    } else {
      JoinParts(a[1..], b, sep, text);
      assert (a + b)[1..] == a[1..] + b;
    }
  }

  lemma JoinNine(a: string, b: string, c: string, d: string, e: string, f: string, g: string, h: string, i: string,
                 text: string)
    ensures Join([a, b, c, d, e, f, g, h, i], ',', text)
            == a + "," + (b + "," + (c + "," + (d + "," + (e + ","
               + (f + "," + (g + "," + (h + "," + (i + "," + text))))))))
  {
    var first, second, third := [a, b, c], [d, e, f], [g, h, i];
    assert [a, b, c, d, e, f, g, h, i] == first + (second + third);
    JoinParts(first, second + third, ',', text);
    JoinParts(second, third, ',', text);
    JoinThree(g, h, i, text);
    JoinThree(d, e, f, Join(third, ',', text));
    JoinThree(a, b, c, Join(second, ',', Join(third, ',', text)));
  }

  // The line of an event: layer, start, end, style, name, three margins, effect and text.
  lemma EventLineIs(e: Event)
    ensures EventLine(e) == "Dialogue:" + " "
            + (Decimal(e.layer) + "," + (TimeText(e.start) + "," + (TimeText(e.end) + ","
            + (e.style + "," + (e.name + "," + (Decimal(e.marginL) + ","
            + (Decimal(e.marginR) + "," + (Decimal(e.marginV) + "," + (e.effect + "," + e.text)))))))))
  {
    JoinNine(Decimal(e.layer), TimeText(e.start), TimeText(e.end), e.style, e.name, Decimal(e.marginL),
             Decimal(e.marginR), Decimal(e.marginV), e.effect, e.text);
  }

  // A time is printed as hours, two digits of minutes and seconds, and two of centiseconds.
  lemma TimeTextIs(t: Time)
    ensures TimeText(t) == Decimal(t.hours) + ":" + (TwoDigits(t.minutes) + ":"
            + (TwoDigits(t.seconds) + "." + TwoDigits(t.centiseconds)))
  {
    var tail := Join([TwoDigits(t.seconds)], '.', TwoDigits(t.centiseconds));
    JoinStep(TwoDigits(t.seconds), [], '.', TwoDigits(t.centiseconds));
    JoinStep(Decimal(t.hours), [TwoDigits(t.minutes)], ':', tail);
    JoinStep(TwoDigits(t.minutes), [], ':', tail);
    assert [TwoDigits(t.seconds)] + [] == [TwoDigits(t.seconds)];
    assert [TwoDigits(t.minutes)] + [] == [TwoDigits(t.minutes)];
    assert [Decimal(t.hours)] + [TwoDigits(t.minutes)] == [Decimal(t.hours), TwoDigits(t.minutes)];
  }

  lemma {:induction false} JoinEnds(fields: seq<string>, sep: char, rest: string)
    ensures rest != "" ==>
                Join(fields, sep, rest) != ""
                && Join(fields, sep, rest)[|Join(fields, sep, rest)| - 1] == rest[|rest| - 1]
    ensures rest == "" && fields != [] ==>
                Join(fields, sep, rest) != "" && Join(fields, sep, rest)[|Join(fields, sep, rest)| - 1] == sep
  {
    if fields != [] { JoinEnds(fields[1..], sep, rest); }
  }

  ghost predicate AllFields(fields: seq<string>)
  {
    forall i :: 0 <= i < |fields| ==> Field(fields[i])
  }

  lemma NumbersAreFields(e: Event)
    requires GoodEvent(e)
    ensures Field(Decimal(e.layer)) && Field(Decimal(e.marginL)) && Field(Decimal(e.marginR))
            && Field(Decimal(e.marginV))
    ensures Field(TimeText(e.start)) && Field(TimeText(e.end))
  {
    NumberSolid(Decimal(e.layer), U16);
    NumberSolid(Decimal(e.marginL), U16);
    NumberSolid(Decimal(e.marginR), U16);
    NumberSolid(Decimal(e.marginV), U16);
    TimeTextSolid(e.start);
    TimeTextSolid(e.end);
  }

  lemma FieldsAreFields(e: Event)
    requires GoodEvent(e)
    ensures AllFields(FieldsOf(e))
  {
    NumbersAreFields(e);
    NineFields(Decimal(e.layer), TimeText(e.start), TimeText(e.end), e.style, e.name,
               Decimal(e.marginL), Decimal(e.marginR), Decimal(e.marginV), e.effect);
  }

  lemma NineFields(a: string, b: string, c: string, d: string, e: string, f: string, g: string, h: string, i: string)
    requires Field(a) && Field(b) && Field(c) && Field(d) && Field(e) && Field(f) && Field(g) && Field(h) && Field(i)
    ensures AllFields([a, b, c, d, e, f, g, h, i])
  {
  }

  lemma FieldsSplit(fields: seq<string>, text: string)
    requires AllFields(fields)
    ensures SplitN(Join(fields, ',', text), |fields| + 1, ',') == fields + [text]
  {
    SplitNOfJoin(fields, ',', text);
  }

  // Fields as one line: nothing to trim, no break.
  lemma LineTrimmed(fields: seq<string>, text: string)
    requires AllFields(fields) && fields != [] && '\n' !in text && EndsFirm(text)
    requires fields[0] != "" && !IsSpace(fields[0][0])
    ensures var body := Join(fields, ',', text); body != "" && Trimmed(body) && '\n' !in body
  {
    JoinEnds(fields, ',', text);
    JoinWithin(fields, ',', text);
    var body := Join(fields, ',', text);
    assert body[0] == fields[0][0];
  }

  lemma BodyTrimmed(e: Event)
    requires GoodEvent(e)
    ensures var body := Join(FieldsOf(e), ',', e.text); body != "" && Trimmed(body) && '\n' !in body
  {
    FieldsAreFields(e);
    NumberSolid(Decimal(e.layer), U16);
    LineTrimmed(FieldsOf(e), e.text);
  }

  // A printed event, its prefix taken off, parses to itself.
  lemma EventRoundTrip(e: Event)
    requires GoodEvent(e)
    ensures ParseEvent(" " + Join(FieldsOf(e), ',', e.text)) == Some(e)
  {
    var body := Join(FieldsOf(e), ',', e.text);
    BodyTrimmed(e);
    TrimBlank(body);
    FieldsAreFields(e);
    FieldsSplit(FieldsOf(e), e.text);
    DigitsNotSign(Decimal(e.layer), U16);
    DigitsNotSign(Decimal(e.marginL), U16);
    DigitsNotSign(Decimal(e.marginR), U16);
    DigitsNotSign(Decimal(e.marginV), U16);
    TimeRoundTrip(e.start);
    TimeRoundTrip(e.end);
  }

  lemma ParsedFields(data: string, f: seq<string>)
    requires '\n' !in data && f == SplitN(Trim(data), 10, ',') && |f| == 10
    ensures forall i :: 0 <= i < 9 ==> Field(f[i])
    ensures '\n' !in f[9] && EndsFirm(f[9])
  {
    TrimResult(data);
    SplitNResult(Trim(data), 10, ',');
    JoinWithin(f[..9], ',', f[9]);
    JoinEnds(f[..9], ',', f[9]);
    forall i | 0 <= i < 9 ensures Field(f[i]) {
      assert f[..9][i] == f[i];
    }
  }

  lemma ParsedEventGood(data: string)
    requires '\n' !in data
    ensures ParseEvent(data).Some? ==> GoodEvent(ParseEvent(data).value)
  {
    var f := SplitN(Trim(data), 10, ',');
    SplitNResult(Trim(data), 10, ',');
    if |f| == 10 {
      ParsedFields(data, f);
      ParsedTimeGood(f[1]);
      ParsedTimeGood(f[2]);
    }
  }

  // ---- Stamps -------------------------------------------------------------------------------

  datatype Stamp = Stamp(start: Time, end: Time, note: string)

  predicate GoodStamp(s: Stamp)
  {
    GoodTime(s.start) && GoodTime(s.end) && '\n' !in s.note && EndsFirm(s.note)
  }

  function Range(s: Stamp): (nat, nat)
  {
    (Total(s.start), Total(s.end))
  }

  function StampLine(s: Stamp): string
  {
    "Stamp:" + " " + Join([TimeText(s.start), TimeText(s.end)], ',', s.note)
  }

  function ParseStamp(data: string): Option<Stamp>
  {
    var f := SplitN(if " " <= data then data[1..] else data, 3, ',');
    if |f| < 3 then None
    else
      var start, end := ParseTime(Trim(f[0])), ParseTime(Trim(f[1]));
      if start.None? || end.None? then None else Some(Stamp(start.value, end.value, f[2]))
  }

  // Two texts and a note, joined and read back.
  lemma PiecesRead(start: string, end: string, note: string)
    requires Solid(start) && Solid(end)
    ensures SplitN(Join([start, end], ',', note), 3, ',') == [start, end, note]
  {
    SplitNOfJoin([start, end], ',', note);
  }

  lemma StampRoundTrip(s: Stamp)
    requires GoodStamp(s)
    ensures ParseStamp(" " + Join([TimeText(s.start), TimeText(s.end)], ',', s.note)) == Some(s)
  {
    var body := Join([TimeText(s.start), TimeText(s.end)], ',', s.note);
    assert (" " + body)[1..] == body;
    TimeTextSolid(s.start);
    TimeTextSolid(s.end);
    PiecesRead(TimeText(s.start), TimeText(s.end), s.note);
    TimeRoundTrip(s.start);
    TimeRoundTrip(s.end);
  }

  lemma PiecesFirm(body: string, f: seq<string>)
    requires '\n' !in body && EndsFirm(body) && f == SplitN(body, 3, ',') && |f| == 3
    ensures '\n' !in f[2] && EndsFirm(f[2])
  {
    SplitNResult(body, 3, ',');
    JoinWithin(f[..2], ',', f[2]);
    JoinEnds(f[..2], ',', f[2]);
  }

  lemma ParsedStampGood(data: string)
    requires '\n' !in data && EndsFirm(data)
    ensures ParseStamp(data).Some? ==> GoodStamp(ParseStamp(data).value)
  {
    var body := if " " <= data then data[1..] else data;
    var f := SplitN(body, 3, ',');
    SplitNResult(body, 3, ',');
    if |f| == 3 {
      PiecesFirm(body, f);
      ParsedTimeGood(Trim(f[0]));
      ParsedTimeGood(Trim(f[1]));
    }
  }

  // ---- Reading the lines --------------------------------------------------------------------

  datatype Reading = Reading(section: string, events: seq<Event>, comments: seq<Event>, stamps: seq<Stamp>)

  predicate Opens(line: string)
  {
    line != "" && line[0] == '['
  }

  function ReadEvent(r: Reading, line: string): Reading
  {
    if "Dialogue:" <= line then
      var e := ParseEvent(line[9..]);
      if e.Some? then r.(events := r.events + [e.value]) else r
    else if "Comment:" <= line then
      var e := ParseEvent(line[8..]);
      if e.Some? then r.(comments := r.comments + [e.value]) else r
    else r
  }

  function ReadStamp(r: Reading, line: string): Reading
  {
    if "Stamp:" <= line then
      var s := ParseStamp(line[6..]);
      if s.Some? then r.(stamps := r.stamps + [s.value]) else r
    else r
  }

  // One line of the file; the sections with the script info and the styles do not matter here.
  function ReadLine(r: Reading, raw: string): Reading
  {
    var line := Trim(raw);
    if Opens(line) then r.(section := line)
    else if line == "" || line[0] == ';' then r
    else if r.section == "[Events]" then ReadEvent(r, line)
    else if r.section == "[Pandora Meta]" then ReadStamp(r, line)
    else r
  }

  function Fold(read: (Reading, string) -> Reading, r: Reading, lines: seq<string>): Reading
  {
    if lines == [] then r else read(Fold(read, r, lines[..|lines| - 1]), lines[|lines| - 1])
  }

  function ReadLines(r: Reading, lines: seq<string>): Reading
  {
    Fold(ReadLine, r, lines)
  }

  lemma {:induction false} FoldAppend(read: (Reading, string) -> Reading, r: Reading, a: seq<string>, b: seq<string>)
    ensures Fold(read, r, a + b) == Fold(read, Fold(read, r, a), b)
  {
    if b == [] {
      assert a + b == a;
    } else {
      var n := |b| - 1;
      FoldAppend(read, r, a, b[..n]);
      assert (a + b)[..|a + b| - 1] == a + b[..n] && (a + b)[|a + b| - 1] == b[n];
      assert Fold(read, r, a + b) == read(Fold(read, r, a + b[..n]), b[n]);
    }
  }

  lemma ReadLinesAppend(r: Reading, a: seq<string>, b: seq<string>)
    ensures ReadLines(r, a + b) == ReadLines(ReadLines(r, a), b)
  {
    FoldAppend(ReadLine, r, a, b);
  }

  lemma FoldNext(read: (Reading, string) -> Reading, r: Reading, lines: seq<string>, k: nat)
    requires k < |lines|
    ensures Fold(read, r, lines[..k + 1]) == read(Fold(read, r, lines[..k]), lines[k])
  {
    assert lines[..k + 1][..k] == lines[..k];
  }

  function WithEvents(r: Reading, events: seq<Event>, k: nat): Reading
    requires k <= |events|
  {
    r.(events := r.events + events[..k])
  }

  function WithStamps(r: Reading, stamps: seq<Stamp>, k: nat): Reading
    requires k <= |stamps|
  {
    r.(stamps := r.stamps + stamps[..k])
  }

  // Lines that lead from state to state lead to the last one.
  lemma {:induction false} FoldReaches(read: (Reading, string) -> Reading, lines: seq<string>, states: seq<Reading>,
                                       k: nat)
    requires |states| == |lines| + 1 && k <= |lines|
    requires forall i :: 0 <= i < |lines| ==> read(states[i], lines[i]) == states[i + 1]
    ensures Fold(read, states[0], lines[..k]) == states[k]
  {
    if k > 0 {
      FoldReaches(read, lines, states, k - 1);
      FoldNext(read, states[0], lines, k - 1);
    }
  }

  lemma NextEvent(read: (Reading, string) -> Reading, line: string, r: Reading, events: seq<Event>, i: nat)
    requires i < |events|
    requires var x := WithEvents(r, events, i); read(x, line) == x.(events := x.events + [events[i]])
    ensures read(WithEvents(r, events, i), line) == WithEvents(r, events, i + 1)
  {
    assert r.events + events[..i + 1] == r.events + events[..i] + [events[i]];
  }

  lemma NextStamp(read: (Reading, string) -> Reading, line: string, r: Reading, stamps: seq<Stamp>, i: nat)
    requires i < |stamps|
    requires var x := WithStamps(r, stamps, i); read(x, line) == x.(stamps := x.stamps + [stamps[i]])
    ensures read(WithStamps(r, stamps, i), line) == WithStamps(r, stamps, i + 1)
  {
    assert r.stamps + stamps[..i + 1] == r.stamps + stamps[..i] + [stamps[i]];
  }

  // Lines that each add one event, or one stamp, add them all.
  lemma FoldEvents(read: (Reading, string) -> Reading, r: Reading, lines: seq<string>, events: seq<Event>)
    requires |lines| == |events|
    requires forall i: nat :: i < |events| ==> read(WithEvents(r, events, i), lines[i]) == WithEvents(r, events, i + 1)
    ensures Fold(read, r, lines) == r.(events := r.events + events)
  {
    var states := seq(|events| + 1, i requires 0 <= i <= |events| => WithEvents(r, events, i));
    FoldReaches(read, lines, states, |lines|);
    assert lines[..|lines|] == lines && events[..|events|] == events;
    assert r.events + [] == r.events && states[0] == r;
  }

  lemma FoldStamps(read: (Reading, string) -> Reading, r: Reading, lines: seq<string>, stamps: seq<Stamp>)
    requires |lines| == |stamps|
    requires forall i: nat :: i < |stamps| ==> read(WithStamps(r, stamps, i), lines[i]) == WithStamps(r, stamps, i + 1)
    ensures Fold(read, r, lines) == r.(stamps := r.stamps + stamps)
  {
    var states := seq(|stamps| + 1, i requires 0 <= i <= |stamps| => WithStamps(r, stamps, i));
    FoldReaches(read, lines, states, |lines|);
    assert lines[..|lines|] == lines && stamps[..|stamps|] == stamps;
    assert r.stamps + [] == r.stamps && states[0] == r;
  }

  // ---- The stamps of a script ---------------------------------------------------------------

  function Lower(c: char): char
  {
    if 'A' <= c <= 'Z' then (c as int - 'A' as int + 'a' as int) as char else c
  }

  predicate SaysStamp(s: string)
  {
    var t := Trim(s);
    |t| == 5 && Lower(t[0]) == 's' && Lower(t[1]) == 't' && Lower(t[2]) == 'a' && Lower(t[3]) == 'm'
    && Lower(t[4]) == 'p'
  }

  predicate IsStamp(e: Event)
  {
    SaysStamp(e.name) || SaysStamp(e.effect)
  }

  function CommentStamps(comments: seq<Event>): seq<Stamp>
  {
    if comments == [] then []
    else
      var n := |comments| - 1;
      CommentStamps(comments[..n])
      + if IsStamp(comments[n]) then [Stamp(comments[n].start, comments[n].end, comments[n].text)] else []
  }

  // The word, in any mixture of cases.
  ghost predicate IsWord(s: string, lower: string, upper: string)
  {
    |s| == |lower| == |upper| && forall i :: 0 <= i < |s| ==> s[i] == lower[i] || s[i] == upper[i]
  }

  lemma SaysStampExactly(s: string)
    ensures SaysStamp(s) <==> IsWord(Trim(s), "stamp", "STAMP")
  {
    var t := Trim(s);
    if |t| == 5 {
      LowerIs(t[0], 's', 'S');
      LowerIs(t[1], 't', 'T');
      LowerIs(t[2], 'a', 'A');
      LowerIs(t[3], 'm', 'M');
      LowerIs(t[4], 'p', 'P');
    }
  }

  lemma LowerIs(c: char, lower: char, upper: char)
    requires 'a' <= lower <= 'z' && upper as int + 32 == lower as int
    ensures Lower(c) == lower <==> c == lower || c == upper
  {
  }

  // A comment that calls itself a stamp, by its name or its effect.
  ghost predicate Calls(e: Event, s: Stamp)
  {
    && (IsWord(Trim(e.name), "stamp", "STAMP") || IsWord(Trim(e.effect), "stamp", "STAMP"))
    && s == Stamp(e.start, e.end, e.text)
  }

  // Exactly the comments that call themselves stamps become stamps, with their times and text.
  lemma {:induction false} CommentStampsExactly(comments: seq<Event>, s: Stamp)
    ensures s in CommentStamps(comments) <==> exists e :: e in comments && Calls(e, s)
  {
    if comments != [] {
      var n := |comments| - 1;
      CommentStampsExactly(comments[..n], s);
      SaysStampExactly(comments[n].name);
      SaysStampExactly(comments[n].effect);
      assert s in CommentStamps(comments) <==> s in CommentStamps(comments[..n]) || Calls(comments[n], s);
      assert forall e :: e in comments <==> e in comments[..n] || e == comments[n];
    }
  }

  // The first stamp of every range.
  function FirstOfRange(stamps: seq<Stamp>): seq<Stamp>
  {
    if stamps == [] then []
    else
      var n := |stamps| - 1;
      FirstOfRange(stamps[..n]) + if Range(stamps[n]) in Ranges(stamps[..n]) then [] else [stamps[n]]
  }

  function Ranges(stamps: seq<Stamp>): set<(nat, nat)>
  {
    set s | s in stamps :: Range(s)
  }

  function Earlier(a: Stamp, b: Stamp): bool
  {
    Total(a.start) <= Total(b.start)
  }

  function FinalStamps(meta: seq<Stamp>, comments: seq<Event>): seq<Stamp>
  {
    StableSort(FirstOfRange(meta + CommentStamps(comments)), Earlier)
  }

  ghost predicate DistinctRanges(stamps: seq<Stamp>)
  {
    forall i, j :: 0 <= i < j < |stamps| ==> Range(stamps[i]) != Range(stamps[j])
  }

  lemma RangesAppend(a: seq<Stamp>, b: seq<Stamp>)
    ensures Ranges(a + b) == Ranges(a) + Ranges(b)
  {
    assert forall s :: s in a + b <==> s in a || s in b;
  }

  lemma {:induction false} FirstOfRangeCovers(stamps: seq<Stamp>)
    ensures Ranges(FirstOfRange(stamps)) == Ranges(stamps)
    ensures forall s :: s in FirstOfRange(stamps) ==> s in stamps
  {
    if stamps != [] {
      var n := |stamps| - 1;
      FirstOfRangeCovers(stamps[..n]);
      assert stamps == stamps[..n] + [stamps[n]];
      RangesAppend(stamps[..n], [stamps[n]]);
      RangesAppend(FirstOfRange(stamps[..n]), [stamps[n]]);
      assert Ranges([stamps[n]]) == {Range(stamps[n])};
    }
  }

  lemma DistinctAppend(kept: seq<Stamp>, s: Stamp)
    requires DistinctRanges(kept) && Range(s) !in Ranges(kept)
    ensures DistinctRanges(kept + [s])
  {
    forall i | 0 <= i < |kept| ensures Range(kept[i]) != Range(s) {
      assert kept[i] in kept;
    }
  }

  lemma {:induction false} FirstOfRangeDistinct(stamps: seq<Stamp>)
    ensures DistinctRanges(FirstOfRange(stamps))
  {
    if stamps != [] {
      var n := |stamps| - 1;
      FirstOfRangeDistinct(stamps[..n]);
      FirstOfRangeCovers(stamps[..n]);
      if Range(stamps[n]) !in Ranges(stamps[..n]) { DistinctAppend(FirstOfRange(stamps[..n]), stamps[n]); }
    }
  }

  lemma LastIsNew(stamps: seq<Stamp>, n: nat)
    requires DistinctRanges(stamps) && n + 1 == |stamps|
    ensures Range(stamps[n]) !in Ranges(stamps[..n])
  {
    forall s | s in stamps[..n] ensures Range(s) != Range(stamps[n]) {
      var i :| 0 <= i < n && stamps[..n][i] == s;
      assert stamps[i] == s;
    }
  }

  lemma {:induction false} FirstOfDistinct(stamps: seq<Stamp>)
    requires DistinctRanges(stamps)
    ensures FirstOfRange(stamps) == stamps
  {
    if stamps != [] {
      var n := |stamps| - 1;
      FirstOfDistinct(stamps[..n]);
      LastIsNew(stamps, n);
      assert stamps == stamps[..n] + [stamps[n]];
    }
  }

  // Earlier stamps win: what comes first with a range is what is kept of it.
  lemma {:induction false} FirstWins(first: seq<Stamp>, second: seq<Stamp>, s: Stamp)
    requires s in FirstOfRange(first + second) && Range(s) in Ranges(first)
    ensures s in FirstOfRange(first)
  {
    if second == [] {
      assert first + second == first;
    } else {
      var n := |second| - 1;
      assert (first + second)[..|first + second| - 1] == first + second[..n];
      assert forall t :: t in first ==> t in first + second[..n];
      FirstWins(first, second[..n], s);
    }
  }

  lemma EarlierOrder()
    ensures TotalPreorder(Earlier)
  {
  }

  lemma DistinctSorted(kept: seq<Stamp>, stamps: seq<Stamp>)
    requires multiset(stamps) == multiset(kept) && DistinctRanges(kept)
    ensures DistinctRanges(stamps)
  {
    PermutedDistinct(kept, stamps);
    SameElements(kept, stamps);
    forall i, j | 0 <= i < j < |stamps| ensures Range(stamps[i]) != Range(stamps[j]) {
      assert stamps[i] in stamps && stamps[j] in stamps;
      var a :| 0 <= a < |kept| && kept[a] == stamps[i];
      var b :| 0 <= b < |kept| && kept[b] == stamps[j];
      assert stamps[i] != stamps[j];
    }
  }

  // Sorting the kept stamps changes neither which they are nor their ranges.
  lemma SortedKeeps(kept: seq<Stamp>)
    requires DistinctRanges(kept)
    ensures var stamps := StableSort(kept, Earlier);
            && Sorted(stamps, Earlier) && DistinctRanges(stamps) && Ranges(stamps) == Ranges(kept)
            && forall s :: s in stamps <==> s in kept
  {
    EarlierOrder();
    StableSortCorrect(kept, Earlier);
    SameElements(kept, StableSort(kept, Earlier));
    DistinctSorted(kept, StableSort(kept, Earlier));
  }

  // Whatever the file holds, its stamps are sorted by start and distinct by range, and cover
  // exactly the ranges found.
  lemma FinalStampsCorrect(meta: seq<Stamp>, comments: seq<Event>)
    ensures var stamps := FinalStamps(meta, comments);
            && Sorted(stamps, Earlier) && DistinctRanges(stamps)
            && Ranges(stamps) == Ranges(meta) + Ranges(CommentStamps(comments))
            && forall s :: s in stamps ==> s in meta || s in CommentStamps(comments)
  {
    var found := meta + CommentStamps(comments);
    FirstOfRangeDistinct(found);
    FirstOfRangeCovers(found);
    SortedKeeps(FirstOfRange(found));
    RangesAppend(meta, CommentStamps(comments));
  }

  // A Meta stamp wins over a comment of the same range, and the first Meta stamp over later ones.
  lemma MetaWins(meta: seq<Stamp>, comments: seq<Event>, s: Stamp)
    requires s in FinalStamps(meta, comments) && Range(s) in Ranges(meta)
    ensures s in meta && s in FirstOfRange(meta)
  {
    var found := meta + CommentStamps(comments);
    FirstOfRangeDistinct(found);
    SortedKeeps(FirstOfRange(found));
    FirstWins(meta, CommentStamps(comments), s);
    FirstOfRangeCovers(meta);
  }

  // ---- Loading ------------------------------------------------------------------------------

  datatype Script = Script(events: seq<Event>, comments: seq<Event>, stamps: seq<Stamp>)

  function WithoutMark(s: string): string
  {
    if s != "" && s[0] == '\U{FEFF}' then WithoutMark(s[1..]) else s
  }

  function Start(): Reading
  {
    Reading("", [], [], [])
  }

  function Finish(r: Reading): Script
  {
    Script(r.events, r.comments, FinalStamps(r.stamps, r.comments))
  }

  // SubstationAlpha::load without tag parsing, of the file's text
  function Load(text: string): Script
  {
    Finish(ReadLines(Start(), Lines(WithoutMark(text))))
  }

  ghost predicate GoodReading(r: Reading)
  {
    && (forall i :: 0 <= i < |r.events| ==> GoodEvent(r.events[i]))
    && (forall i :: 0 <= i < |r.comments| ==> GoodEvent(r.comments[i]))
    && (forall i :: 0 <= i < |r.stamps| ==> GoodStamp(r.stamps[i]))
  }

  lemma ReadEventGood(r: Reading, line: string)
    requires GoodReading(r) && '\n' !in line
    ensures GoodReading(ReadEvent(r, line))
  {
    if "Dialogue:" <= line {
      ParsedEventGood(line[9..]);
    } else if "Comment:" <= line {
      ParsedEventGood(line[8..]);
    }
  }

  lemma ReadStampGood(r: Reading, line: string)
    requires GoodReading(r) && '\n' !in line && EndsFirm(line)
    ensures GoodReading(ReadStamp(r, line))
  {
    if "Stamp:" <= line { ParsedStampGood(line[6..]); }
  }

  // A line changes the section, adds an event or a stamp, or changes nothing.
  lemma ReadLineCases(r: Reading, raw: string, good: Reading -> bool)
    requires good(r) && good(r.(section := Trim(raw))) && good(ReadEvent(r, Trim(raw))) && good(ReadStamp(r, Trim(raw)))
    ensures good(ReadLine(r, raw))
  {
  }

  lemma ReadLineGood(r: Reading, raw: string)
    requires GoodReading(r) && '\n' !in raw
    ensures GoodReading(ReadLine(r, raw))
  {
    var good := (x: Reading) => GoodReading(x);
    TrimResult(raw);
    ReadEventGood(r, Trim(raw));
    ReadStampGood(r, Trim(raw));
    assert good(r.(section := Trim(raw)));
    ReadLineCases(r, raw, good);
    assert good(ReadLine(r, raw));
  }

  lemma {:induction false} ReadLinesGood(lines: seq<string>)
    requires forall i :: 0 <= i < |lines| ==> '\n' !in lines[i]
    ensures GoodReading(ReadLines(Start(), lines))
  {
    if lines != [] {
      ReadLinesGood(lines[..|lines| - 1]);
      ReadLineGood(ReadLines(Start(), lines[..|lines| - 1]), lines[|lines| - 1]);
    }
  }

  lemma {:induction false} CommentStampsGood(comments: seq<Event>)
    requires forall i :: 0 <= i < |comments| ==> GoodEvent(comments[i])
    ensures forall s :: s in CommentStamps(comments) ==> GoodStamp(s)
  {
    if comments != [] { CommentStampsGood(comments[..|comments| - 1]); }
  }

  // A script fit for printing.
  ghost predicate Printable(events: seq<Event>, stamps: seq<Stamp>)
  {
    && (forall i :: 0 <= i < |events| ==> GoodEvent(events[i]))
    && (forall s :: s in stamps ==> GoodStamp(s))
    && DistinctRanges(stamps) && Sorted(stamps, Earlier)
  }

  // What any text loads to can be printed.
  lemma LoadedIsPrintable(text: string)
    ensures Printable(Load(text).events, Load(text).stamps)
  {
    var lines := Lines(WithoutMark(text));
    var r := ReadLines(Start(), lines);
    LinesLackBreaks(WithoutMark(text));
    ReadLinesGood(lines);
    CommentStampsGood(r.comments);
    FinalStampsCorrect(r.stamps, r.comments);
  }

  // ---- Printing -----------------------------------------------------------------------------

  // The printed script info, the styles with their Format line, and the Format line of the
  // events; the reader skips them all.
  datatype Head = Head(info: seq<string>, styles: seq<string>, eventFormat: string)

  predicate Skipped(line: string)
  {
    IsLine(line) && !Opens(Trim(line)) && !("Dialogue:" <= Trim(line)) && !("Comment:" <= Trim(line))
  }

  ghost predicate GoodHead(head: Head)
  {
    && (forall i :: 0 <= i < |head.info| ==> Skipped(head.info[i]))
    && (forall i :: 0 <= i < |head.styles| ==> Skipped(head.styles[i]))
    && Skipped(head.eventFormat)
  }

  // A line of the printed head: a key such as Title, Style or Format, and what it is set to.
  ghost predicate Keyed(line: string)
  {
    exists key, value :: HeadKey(key) && PlainValue(value) && line == key + ": " + value
  }

  // No key of the script info or the styles starts like a section, a dialogue or a comment.
  predicate HeadKey(key: string)
  {
    key != "" && !IsSpace(key[0]) && key[0] != '[' && key[0] != 'D' && key[0] != 'C' && '\n' !in key
  }

  predicate PlainValue(value: string)
  {
    '\n' !in value && EndsFirm(value)
  }

  // The value read from a line of the script info: what follows the colon, trimmed.
  lemma ParsedValuePlain(line: string, at: nat)
    requires '\n' !in line && at < |line|
    ensures PlainValue(Trim(line[at + 1..]))
  {
    TrimResult(line[at + 1..]);
  }

  lemma KeyedIsLine(key: string, value: string)
    requires '\n' !in key && PlainValue(value)
    ensures IsLine(key + ": " + value)
  {
    var line := key + ": " + value;
    assert line[|line| - 1] == if value == "" then ' ' else value[|value| - 1];
  }

  lemma KeyedSkipped(line: string)
    requires Keyed(line)
    ensures Skipped(line)
  {
    var key, value :| HeadKey(key) && PlainValue(value) && line == key + ": " + value;
    assert line[0] == key[0];
    KeyedIsLine(key, value);
    KeepsFirst(line);
    StartsOtherwise(Trim(line), "Dialogue:");
    StartsOtherwise(Trim(line), "Comment:");
  }

  lemma StartsOtherwise(line: string, prefix: string)
    requires line != "" && prefix != "" && line[0] != prefix[0]
    ensures !(prefix <= line)
  {
  }

  // Trimming keeps a first character that is no blank.
  lemma KeepsFirst(line: string)
    requires line != "" && !IsSpace(line[0])
    ensures Trim(line) != "" && Trim(line)[0] == line[0]
  {
    TrimEndKeepsFirst(line);
  }

  lemma {:induction false} TrimEndKeepsFirst(line: string)
    requires line != "" && !IsSpace(line[0])
    ensures TrimEnd(line) != "" && TrimEnd(line)[0] == line[0]
  {
    if IsSpace(line[|line| - 1]) { TrimEndKeepsFirst(line[..|line| - 1]); }
  }

  // A head printed from script info and styles is skipped by the reader.
  lemma PrintedHeadGood(head: Head)
    requires forall i :: 0 <= i < |head.info| ==> Keyed(head.info[i])
    requires forall i :: 0 <= i < |head.styles| ==> Keyed(head.styles[i])
    requires Keyed(head.eventFormat)
    ensures GoodHead(head)
  {
    forall i | 0 <= i < |head.info| ensures Skipped(head.info[i]) { KeyedSkipped(head.info[i]); }
    forall i | 0 <= i < |head.styles| ensures Skipped(head.styles[i]) { KeyedSkipped(head.styles[i]); }
    KeyedSkipped(head.eventFormat);
  }

  function EventLines(events: seq<Event>): seq<string>
  {
    seq(|events|, i requires 0 <= i < |events| => EventLine(events[i]))
  }

  function StampLines(stamps: seq<Stamp>): seq<string>
  {
    seq(|stamps|, i requires 0 <= i < |stamps| => StampLine(stamps[i]))
  }

  function HeadLines(head: Head): seq<string>
  {
    ["[Script Info]"] + head.info + ["", "[V4+ Styles]"] + head.styles
  }

  function BodyLines(head: Head, events: seq<Event>): seq<string>
  {
    ["", "[Events]", head.eventFormat] + EventLines(events)
  }

  function TailLines(stamps: seq<Stamp>): seq<string>
  {
    if stamps == [] then [] else ["", "[Pandora Meta]"] + StampLines(stamps)
  }

  // SubstationAlpha::stringify
  function Stringify(head: Head, events: seq<Event>, stamps: seq<Stamp>): string
  {
    Unlines(HeadLines(head) + BodyLines(head, events) + TailLines(stamps))
  }

  // ---- The round trip -----------------------------------------------------------------------

  // A prefix, a blank and a trimmed body make a line with nothing to trim.
  lemma PrefixedLine(prefix: string, body: string)
    requires prefix != "" && !IsSpace(prefix[0]) && '\n' !in prefix
    requires body != "" && Trimmed(body) && '\n' !in body
    ensures var line := prefix + " " + body;
            && line != "" && line[0] == prefix[0] && prefix <= line && line[|prefix|..] == " " + body
            && Trim(line) == line && IsLine(line)
  {
    var line := prefix + " " + body;
    assert line[|line| - 1] == body[|body| - 1];
    TrimResult(line);
  }

  // What a line with an event does in the section of the events.
  lemma EventRead(r: Reading, line: string, data: string, e: Event)
    requires r.section == "[Events]" && Trim(line) == line && line != "" && line[0] == 'D'
    requires "Dialogue:" <= line && line[9..] == data && ParseEvent(data) == Some(e)
    ensures ReadLine(r, line) == r.(events := r.events + [e])
  {
  }

  lemma EventLineReads(r: Reading, e: Event)
    requires GoodEvent(e) && r.section == "[Events]"
    ensures ReadLine(r, EventLine(e)) == r.(events := r.events + [e])
    ensures IsLine(EventLine(e))
  {
    var body := Join(FieldsOf(e), ',', e.text);
    BodyTrimmed(e);
    PrefixedLine("Dialogue:", body);
    EventRoundTrip(e);
    EventRead(r, EventLine(e), " " + body, e);
  }

  // The line of a comment.
  function CommentLine(e: Event): string
  {
    "Comment:" + " " + Join(FieldsOf(e), ',', e.text)
  }

  lemma CommentRead(r: Reading, line: string, data: string, e: Event)
    requires r.section == "[Events]" && Trim(line) == line && line != "" && line[0] == 'C'
    requires "Comment:" <= line && line[8..] == data && ParseEvent(data) == Some(e)
    ensures ReadLine(r, line) == r.(comments := r.comments + [e])
  {
    StartsOtherwise(line, "Dialogue:");
  }

  // Among the events, a commented event is read as that comment.
  lemma CommentLineReads(r: Reading, e: Event)
    requires GoodEvent(e) && r.section == "[Events]"
    ensures ReadLine(r, CommentLine(e)) == r.(comments := r.comments + [e])
  {
    var body := Join(FieldsOf(e), ',', e.text);
    BodyTrimmed(e);
    PrefixedLine("Comment:", body);
    EventRoundTrip(e);
    CommentRead(r, CommentLine(e), " " + body, e);
  }

  lemma StampBody(s: Stamp)
    requires GoodStamp(s)
    ensures var body := Join([TimeText(s.start), TimeText(s.end)], ',', s.note);
                body != "" && Trimmed(body) && '\n' !in body
  {
    TimeTextSolid(s.start);
    TimeTextSolid(s.end);
    LineTrimmed([TimeText(s.start), TimeText(s.end)], s.note);
  }

  lemma StampRead(r: Reading, line: string, data: string, s: Stamp)
    requires r.section == "[Pandora Meta]" && Trim(line) == line && line != "" && line[0] == 'S'
    requires "Stamp:" <= line && line[6..] == data && ParseStamp(data) == Some(s)
    ensures ReadLine(r, line) == r.(stamps := r.stamps + [s])
  {
  }

  lemma StampLineReads(r: Reading, s: Stamp)
    requires GoodStamp(s) && r.section == "[Pandora Meta]"
    ensures ReadLine(r, StampLine(s)) == r.(stamps := r.stamps + [s])
    ensures IsLine(StampLine(s))
  {
    var body := Join([TimeText(s.start), TimeText(s.end)], ',', s.note);
    StampBody(s);
    PrefixedLine("Stamp:", body);
    StampRoundTrip(s);
    StampRead(r, StampLine(s), " " + body, s);
  }

  lemma EventStep(r: Reading, events: seq<Event>, i: nat)
    requires r.section == "[Events]" && i < |events| && GoodEvent(events[i])
    ensures ReadLine(WithEvents(r, events, i), EventLine(events[i])) == WithEvents(r, events, i + 1)
  {
    EventLineReads(WithEvents(r, events, i), events[i]);
    NextEvent(ReadLine, EventLine(events[i]), r, events, i);
  }

  lemma EventsRead(r: Reading, events: seq<Event>)
    requires r.section == "[Events]" && forall i :: 0 <= i < |events| ==> GoodEvent(events[i])
    ensures ReadLines(r, EventLines(events)) == r.(events := r.events + events)
  {
    forall i: nat | i < |events|
      ensures ReadLine(WithEvents(r, events, i), EventLines(events)[i]) == WithEvents(r, events, i + 1)
    {
      EventStep(r, events, i);
    }
    FoldEvents(ReadLine, r, EventLines(events), events);
  }

  lemma StampStep(r: Reading, stamps: seq<Stamp>, i: nat)
    requires r.section == "[Pandora Meta]" && i < |stamps| && GoodStamp(stamps[i])
    ensures ReadLine(WithStamps(r, stamps, i), StampLine(stamps[i])) == WithStamps(r, stamps, i + 1)
  {
    StampLineReads(WithStamps(r, stamps, i), stamps[i]);
    NextStamp(ReadLine, StampLine(stamps[i]), r, stamps, i);
  }

  lemma StampsRead(r: Reading, stamps: seq<Stamp>)
    requires r.section == "[Pandora Meta]" && forall i :: 0 <= i < |stamps| ==> GoodStamp(stamps[i])
    ensures ReadLines(r, StampLines(stamps)) == r.(stamps := r.stamps + stamps)
  {
    forall i: nat | i < |stamps|
      ensures ReadLine(WithStamps(r, stamps, i), StampLines(stamps)[i]) == WithStamps(r, stamps, i + 1)
    {
      StampStep(r, stamps, i);
    }
    FoldStamps(ReadLine, r, StampLines(stamps), stamps);
  }

  // Lines without events or stamps in a section that has none.
  lemma {:induction false} SkippedRead(r: Reading, lines: seq<string>)
    requires r.section != "[Pandora Meta]" && forall i :: 0 <= i < |lines| ==> Skipped(lines[i])
    ensures ReadLines(r, lines) == r
  {
    if lines != [] { SkippedRead(r, lines[..|lines| - 1]); }
  }

  lemma SectionRead(r: Reading, name: string)
    requires Opens(name) && Trimmed(name)
    ensures ReadLines(r, ["", name]) == r.(section := name)
  {
    TrimResult(name);
    TrimResult("");
    assert ["", name][..1] == [""] && [""][..0] == [];
    assert ReadLines(r, []) == r && ReadLines(r, [""]) == r;
  }

  lemma HeadRead(head: Head)
    requires GoodHead(head)
    ensures ReadLines(Start(), HeadLines(head)) == Start().(section := "[V4+ Styles]")
  {
    var info, styles := "[Script Info]", "[V4+ Styles]";
    TrimResult(info);
    assert [info][..0] == [];
    assert ReadLines(Start(), [info]) == ReadLine(ReadLines(Start(), []), info) == Start().(section := info);
    ReadLinesAppend(Start(), [info], head.info);
    SkippedRead(Start().(section := info), head.info);
    ReadLinesAppend(Start(), [info] + head.info, ["", styles]);
    SectionRead(Start().(section := info), styles);
    ReadLinesAppend(Start(), [info] + head.info + ["", styles], head.styles);
    SkippedRead(Start().(section := styles), head.styles);
  }

  lemma BodyRead(r: Reading, head: Head, events: seq<Event>)
    requires GoodHead(head) && forall i :: 0 <= i < |events| ==> GoodEvent(events[i])
    ensures ReadLines(r, BodyLines(head, events)) == r.(section := "[Events]", events := r.events + events)
  {
    var within := r.(section := "[Events]");
    SectionRead(r, "[Events]");
    assert ["", "[Events]", head.eventFormat] == ["", "[Events]"] + [head.eventFormat];
    ReadLinesAppend(r, ["", "[Events]"], [head.eventFormat]);
    SkippedRead(within, [head.eventFormat]);
    ReadLinesAppend(r, ["", "[Events]", head.eventFormat], EventLines(events));
    EventsRead(within, events);
  }

  lemma TailRead(r: Reading, stamps: seq<Stamp>)
    requires r.stamps == [] && forall s :: s in stamps ==> GoodStamp(s)
    ensures ReadLines(r, TailLines(stamps)).events == r.events && ReadLines(r, TailLines(stamps)).comments == r.comments
    ensures ReadLines(r, TailLines(stamps)).stamps == stamps
  {
    if stamps != [] {
      SectionRead(r, "[Pandora Meta]");
      ReadLinesAppend(r, ["", "[Pandora Meta]"], StampLines(stamps));
      StampsRead(r.(section := "[Pandora Meta]"), stamps);
    }
  }

  ghost predicate AllLines(lines: seq<string>)
  {
    forall i :: 0 <= i < |lines| ==> IsLine(lines[i])
  }

  lemma EventLinesAreLines(events: seq<Event>)
    requires forall i :: 0 <= i < |events| ==> GoodEvent(events[i])
    ensures AllLines(EventLines(events))
  {
    forall i | 0 <= i < |events| ensures IsLine(EventLines(events)[i]) {
      EventLineReads(Start().(section := "[Events]"), events[i]);
    }
  }

  lemma StampLinesAreLines(stamps: seq<Stamp>)
    requires forall s :: s in stamps ==> GoodStamp(s)
    ensures AllLines(StampLines(stamps))
  {
    forall i | 0 <= i < |stamps| ensures IsLine(StampLines(stamps)[i]) {
      StampLineReads(Start().(section := "[Pandora Meta]"), stamps[i]);
    }
  }

  lemma PrintedLines(head: Head, events: seq<Event>, stamps: seq<Stamp>)
    requires GoodHead(head) && Printable(events, stamps)
    ensures AllLines(HeadLines(head)) && AllLines(BodyLines(head, events)) && AllLines(TailLines(stamps))
  {
    HeadPrinted(head);
    BodyPrinted(head, events);
    TailPrinted(stamps);
  }

  lemma LinesJoined(a: seq<string>, b: seq<string>)
    requires AllLines(a) && AllLines(b)
    ensures AllLines(a + b)
  {
  }

  lemma HeadPrinted(head: Head)
    requires GoodHead(head)
    ensures AllLines(HeadLines(head))
  {
    var info, styles := ["[Script Info]"], ["", "[V4+ Styles]"];
    LinesJoined(info, head.info);
    LinesJoined(info + head.info, styles);
    LinesJoined(info + head.info + styles, head.styles);
  }

  lemma BodyPrinted(head: Head, events: seq<Event>)
    requires GoodHead(head) && forall i :: 0 <= i < |events| ==> GoodEvent(events[i])
    ensures AllLines(BodyLines(head, events))
  {
    EventLinesAreLines(events);
    LinesJoined(["", "[Events]", head.eventFormat], EventLines(events));
  }

  lemma TailPrinted(stamps: seq<Stamp>)
    requires forall s :: s in stamps ==> GoodStamp(s)
    ensures AllLines(TailLines(stamps))
  {
    StampLinesAreLines(stamps);
    LinesJoined(["", "[Pandora Meta]"], StampLines(stamps));
  }

  lemma WholeRead(head: Head, events: seq<Event>, stamps: seq<Stamp>)
    requires GoodHead(head) && Printable(events, stamps)
    ensures var r := ReadLines(Start(), HeadLines(head) + BodyLines(head, events) + TailLines(stamps));
            r.events == events && r.comments == [] && r.stamps == stamps
  {
    var r := Start().(section := "[V4+ Styles]");
    HeadRead(head);
    ReadLinesAppend(Start(), HeadLines(head), BodyLines(head, events));
    BodyRead(r, head, events);
    ReadLinesAppend(Start(), HeadLines(head) + BodyLines(head, events), TailLines(stamps));
    TailRead(r.(section := "[Events]", events := r.events + events), stamps);
  }

  lemma PrintedBack(head: Head, events: seq<Event>, stamps: seq<Stamp>)
    requires GoodHead(head) && Printable(events, stamps)
    ensures var text := Stringify(head, events, stamps);
            Lines(WithoutMark(text)) == HeadLines(head) + BodyLines(head, events) + TailLines(stamps)
  {
    var lines := HeadLines(head) + BodyLines(head, events) + TailLines(stamps);
    PrintedLines(head, events, stamps);
    LinesOfUnlines(lines);
    assert Stringify(head, events, stamps)[0] == lines[0][0] == '[';
  }

  // Printing and loading again gives the same dialogue events and the same stamps.
  lemma PrintThenLoad(head: Head, events: seq<Event>, stamps: seq<Stamp>)
    requires GoodHead(head) && Printable(events, stamps)
    ensures Load(Stringify(head, events, stamps)) == Script(events, [], stamps)
  {
    PrintedBack(head, events, stamps);
    WholeRead(head, events, stamps);
    StampsStay(stamps);
  }

  lemma StampsStay(stamps: seq<Stamp>)
    requires DistinctRanges(stamps) && Sorted(stamps, Earlier)
    ensures FinalStamps(stamps, []) == stamps
  {
    assert stamps + CommentStamps([]) == stamps;
    FirstOfDistinct(stamps);
    EarlierOrder();
    StableSortCorrect(stamps, Earlier);
  }

  // So for every text: load it, print what was loaded, and load that.
  lemma LoadPrintLoad(text: string, head: Head)
    requires GoodHead(head)
    ensures var first := Load(text);
            Load(Stringify(head, first.events, first.stamps)) == Script(first.events, [], first.stamps)
  {
    LoadedIsPrintable(text);
    PrintThenLoad(head, Load(text).events, Load(text).stamps);
  }

  // ---- The loops ----------------------------------------------------------------------------

  // One line, with what it changes in place.
  method TakeLine(raw: string, section: string, events: seq<Event>, comments: seq<Event>, stamps: seq<Stamp>)
    returns (section': string, events': seq<Event>, comments': seq<Event>, stamps': seq<Stamp>)
    ensures Reading(section', events', comments', stamps') == ReadLine(Reading(section, events, comments, stamps), raw)
  {
    section', events', comments', stamps' := section, events, comments, stamps;
    var line := Trim(raw);
    if Opens(line) {
      section' := line;
      return;
    }
    if line == "" || line[0] == ';' { return; }
    if section == "[Events]" {
      if "Dialogue:" <= line {
        var e := ParseEvent(line[9..]);
        if e.Some? { events' := events + [e.value]; }
      } else if "Comment:" <= line {
        var e := ParseEvent(line[8..]);
        if e.Some? { comments' := comments + [e.value]; }
      }
    } else if section == "[Pandora Meta]" && "Stamp:" <= line {
      var s := ParseStamp(line[6..]);
      if s.Some? { stamps' := stamps + [s.value]; }
    }
  }

  method CollectStamps(meta: seq<Stamp>, comments: seq<Event>) returns (found: seq<Stamp>)
    ensures found == meta + CommentStamps(comments)
  {
    found := meta;
    var k := 0;
    while k < |comments|
      invariant k <= |comments| && found == meta + CommentStamps(comments[..k])
    {
      assert comments[..k + 1][..k] == comments[..k];
      if IsStamp(comments[k]) {
        found := found + [Stamp(comments[k].start, comments[k].end, comments[k].text)];
      }
      k := k + 1;
    }
    assert comments[..k] == comments;
  }

  lemma OneMoreStamp(found: seq<Stamp>, k: nat)
    requires k < |found|
    ensures Ranges(found[..k + 1]) == Ranges(found[..k]) + {Range(found[k])}
    ensures FirstOfRange(found[..k + 1])
            == FirstOfRange(found[..k]) + if Range(found[k]) in Ranges(found[..k]) then [] else [found[k]]
  {
    assert found[..k + 1][..k] == found[..k];
    assert found[..k + 1] == found[..k] + [found[k]];
    RangesAppend(found[..k], [found[k]]);
    assert Ranges([found[k]]) == {Range(found[k])};
  }

  method RetainFirst(found: seq<Stamp>) returns (kept: seq<Stamp>)
    ensures kept == FirstOfRange(found)
  {
    kept := [];
    var seen: set<(nat, nat)> := {};
    var k := 0;
    while k < |found|
      invariant k <= |found| && kept == FirstOfRange(found[..k]) && seen == Ranges(found[..k])
    {
      OneMoreStamp(found, k);
      if Range(found[k]) !in seen {
        kept := kept + [found[k]];
      }
      seen := seen + {Range(found[k])};
      k := k + 1;
    }
    assert found[..k] == found;
  }

  method LoadScript(text: string) returns (script: Script)
    ensures script == Load(text)
  {
    var lines := Lines(WithoutMark(text));
    var section: string, events: seq<Event>, comments: seq<Event>, stamps: seq<Stamp> := "", [], [], [];
    var k := 0;
    while k < |lines|
      invariant k <= |lines|
      invariant Reading(section, events, comments, stamps) == ReadLines(Start(), lines[..k])
    {
      FoldNext(ReadLine, Start(), lines, k);
      section, events, comments, stamps := TakeLine(lines[k], section, events, comments, stamps);
      k := k + 1;
    }
    assert lines[..k] == lines;
    var found := CollectStamps(stamps, comments);
    var kept := RetainFirst(found);
    script := Script(events, comments, StableSort(kept, Earlier));
  }

  method PushLines(before: string, lines: seq<string>) returns (out: string)
    ensures out == before + Unlines(lines)
  {
    out := before;
    var k := 0;
    assert lines[..0] == [];
    while k < |lines|
      invariant k <= |lines| && out == before + Unlines(lines[..k])
    {
      UnlinesNext(lines, k);
      out := out + (lines[k] + "\n");
      k := k + 1;
    }
    assert lines[..k] == lines;
  }

  lemma UnlinesNext(lines: seq<string>, k: nat)
    requires k < |lines|
    ensures Unlines(lines[..k + 1]) == Unlines(lines[..k]) + (lines[k] + "\n")
  {
    assert lines[..k + 1] == lines[..k] + [lines[k]];
    UnlinesAppend(lines[..k], [lines[k]]);
    assert [lines[k]][1..] == [];
    assert Unlines([lines[k]]) == lines[k] + "\n" + Unlines([]);
  }

  method PrintScript(head: Head, events: seq<Event>, stamps: seq<Stamp>) returns (out: string)
    ensures out == Stringify(head, events, stamps)
  {
    out := PushLines("", HeadLines(head));
    out := PushLines(out, BodyLines(head, events));
    if stamps != [] {
      out := PushLines(out, TailLines(stamps));
    }
    JoinedParts(HeadLines(head), BodyLines(head, events), TailLines(stamps));
  }

  lemma JoinedParts(a: seq<string>, b: seq<string>, c: seq<string>)
    ensures Unlines(a + b + c) == "" + Unlines(a) + Unlines(b) + Unlines(c)
  {
    UnlinesAppend(a + b, c);
    UnlinesAppend(a, b);
  }
}
