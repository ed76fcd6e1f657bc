/** Which lines of a description decide which part of the result. */
module SdpLocality {
  import opened Text
  import opened Sdp

  /** Lines a media section keeps to itself. */
  predicate OwnLine(line: string) {
    IsField(line) && IsMediaField(line[0])
  }

  predicate NoMediaLine(lines: seq<string>) {
    forall i :: 0 <= i < |lines| ==> !IsMediaLine(lines[i])
  }

  /** A media description read from the lines of its own section only. */
  function Section(m: Media, lines: seq<string>): Outcome<Media>
    decreases |lines|
  {
    if lines == [] then Ok(m)
    else match MediaStep(m, lines[0])
      case Ok(n) => Section(n, lines[1..])
      case Thrown => Thrown
  }

  /** The session read from a list of lines, media sections ignored. */
  function SessionRun(s: Session, lines: seq<string>): Outcome<Session>
    decreases |lines|
  {
    if lines == [] then Ok(s)
    else match SessionStep(s, lines[0])
      case Ok(t) => SessionRun(t, lines[1..])
      case Thrown => Thrown
  }

  function Outside(lines: seq<string>): seq<string> {
    if lines == [] then []
    else (if OwnLine(lines[0]) then [] else [lines[0]]) + Outside(lines[1..])
  }

  /** The lines before the first `m=`. */
  function Head(lines: seq<string>): (h: seq<string>)
    ensures |h| <= |lines| && h == lines[..|h|] && NoMediaLine(h)
    ensures |h| < |lines| ==> IsMediaLine(lines[|h|])
  {
    if lines == [] || IsMediaLine(lines[0]) then [] else [lines[0]] + Head(lines[1..])
  }

  /** The lines from the first `m=` on. */
  function Tail(lines: seq<string>): (t: seq<string>)
    ensures t == lines[|Head(lines)|..] && |t| <= |lines|
    ensures t != [] ==> IsMediaLine(t[0])
  {
    lines[|Head(lines)|..]
  }

  /** The media sections: each starts with its `m=` line and reaches to the next one. */
  function Sections(lines: seq<string>): (r: seq<seq<string>>)
    requires lines != [] ==> IsMediaLine(lines[0])
    ensures forall i :: 0 <= i < |r| ==> r[i] != [] && IsMediaLine(r[i][0]) && NoMediaLine(r[i][1..])
    decreases |lines|
  {
    if lines == [] then []
    else [[lines[0]] + Head(lines[1..])] + Sections(Tail(lines[1..]))
  }

  function SectionOutsides(sections: seq<seq<string>>): seq<string>
    requires forall i :: 0 <= i < |sections| ==> sections[i] != []
  {
    if sections == [] then [] else Outside(sections[0][1..]) + SectionOutsides(sections[1..])
  }

  /** The lines the session depends on: all of the head, and of each section what is not its own. */
  function SessionPart(lines: seq<string>): seq<string> {
    Head(lines) + SectionOutsides(Sections(Tail(lines)))
  }

  /** The media description of one section. */
  function SectionMedia(section: seq<string>): Outcome<Media>
    requires section != [] && IsMediaLine(section[0])
  {
    Section(ParseMediaHead(section[0][2..]), section[1..])
  }

  lemma {:induction false} SectionAppend(m: Media, a: seq<string>, b: seq<string>)
    ensures Section(m, a + b) == match Section(m, a) case Ok(n) => Section(n, b) case Thrown => Thrown
    decreases |a|
  {
    hide MediaStep, SessionStep, ParseMediaHead;
    if a == [] {
      assert a + b == b;
    } else {
      assert (a + b)[1..] == a[1..] + b;
      var r := MediaStep(m, a[0]);
      if r.Ok? { SectionAppend(r.value, a[1..], b); }
    }
  }

  lemma {:induction false} SessionRunAppend(s: Session, a: seq<string>, b: seq<string>)
    ensures SessionRun(s, a + b) == match SessionRun(s, a) case Ok(t) => SessionRun(t, b) case Thrown => Thrown
    decreases |a|
  {
    hide MediaStep, SessionStep, ParseMediaHead;
    if a == [] {
      assert a + b == b;
    } else {
      assert (a + b)[1..] == a[1..] + b;
      var r := SessionStep(s, a[0]);
      if r.Ok? { SessionRunAppend(r.value, a[1..], b); }
    }
  }

  /** Before any `m=` the parser only builds the session. */
  lemma {:induction false} RunHead(p: Parser, lines: seq<string>)
    requires p.ok && !p.inMedia && NoMediaLine(lines)
    ensures var s := SessionRun(p.session, lines); var q := Run(p, lines);
            if s.Ok? then q == p.(session := s.value) else !q.ok
    decreases |lines|
  {
    hide MediaStep, SessionStep, ParseMediaHead;
    if lines != [] {
      var q := Step(p, lines[0]);
      if q.ok { RunHead(q, lines[1..]); } else { RunFailed(q, lines[1..]); }
    }
  }

  lemma StepInSection(p: Parser, line: string)
    requires p.ok && p.inMedia && p.media != [] && !IsMediaLine(line)
    ensures var last := |p.media| - 1; var q := Step(p, line);
            if OwnLine(line) then
              match MediaStep(p.media[last], line)
              case Ok(m) => q == p.(media := p.media[last := m])
              case Thrown => !q.ok
            else
              && MediaStep(p.media[last], line) == Ok(p.media[last])
              && match SessionStep(p.session, line)
                 case Ok(s) => q == p.(session := s)
                 case Thrown => !q.ok
  {}

  /** Inside a section its own lines build the last media description, the others the session. */
  lemma {:induction false} RunSection(p: Parser, lines: seq<string>)
    requires p.ok && p.inMedia && p.media != [] && NoMediaLine(lines)
    ensures var last := |p.media| - 1;
            var m := Section(p.media[last], lines);
            var s := SessionRun(p.session, Outside(lines));
            var q := Run(p, lines);
            if m.Ok? && s.Ok? then q == p.(session := s.value, media := p.media[last := m.value]) else !q.ok
    decreases |lines|
  {
    hide MediaStep, SessionStep, ParseMediaHead, Step, OwnLine, IsMediaLine;
    var last := |p.media| - 1;
    if lines == [] {
      assert p.media[last := p.media[last]] == p.media;
    } else {
      StepInSection(p, lines[0]);
      var q := Step(p, lines[0]);
      if OwnLine(lines[0]) {
        assert Outside(lines) == Outside(lines[1..]);
      } else {
        assert Outside(lines)[0] == lines[0] && Outside(lines)[1..] == Outside(lines[1..]);
      }
      if q.ok {
        RunSection(q, lines[1..]);
        assert forall m {:trigger q.media[last := m]} :: q.media[last := m] == p.media[last := m];
      } else {
        RunFailed(q, lines[1..]);
      }
    }
  }

  ghost predicate SectionsOk(sections: seq<seq<string>>)
    requires forall i :: 0 <= i < |sections| ==> sections[i] != [] && IsMediaLine(sections[i][0])
  {
    forall i :: 0 <= i < |sections| ==> SectionMedia(sections[i]).Ok?
  }

  /** The whole run, from a parser about to read a line that opens a section (or nothing). */
  lemma {:induction false} RunSections(p: Parser, lines: seq<string>)
    requires p.ok && (p.inMedia ==> p.media != []) && (lines != [] ==> IsMediaLine(lines[0]))
    ensures var sections := Sections(lines);
            var s := SessionRun(p.session, SectionOutsides(sections));
            var q := Run(p, lines);
            && (q.ok <==> s.Ok? && SectionsOk(sections))
            && (q.ok ==> q.session == s.value && Reads(q.media, p.media, sections))
    decreases |lines|
  {
    hide MediaStep, SessionStep, ParseMediaHead, IsMediaLine, Outside, Section;
    if lines != [] {
      var body, rest := Head(lines[1..]), Tail(lines[1..]);
      var first := [lines[0]] + body;
      assert lines[1..] == body + rest;
      assert first[1..] == body;
      var sections := Sections(rest);
      assert Sections(lines) == [first] + sections;
      assert ([first] + sections)[1..] == sections;
      RunFirst(p, first);
      var start := Step(p, lines[0]);
      RunAppend(start, body, rest);
      SessionRunAppend(p.session, Outside(body), SectionOutsides(sections));
      var mid := Run(start, body);
      SectionsOkCons(first, sections);
      if mid.ok {
        RunSections(mid, rest);
        var q := Run(p, lines);
        if q.ok { ReadsCons(q.media, p.media, first, sections, mid.media); }
      } else {
        RunFailed(mid, rest);
      }
    }
  }

  lemma RunFirst(p: Parser, section: seq<string>)
    requires p.ok && (p.inMedia ==> p.media != [])
    requires section != [] && IsMediaLine(section[0]) && NoMediaLine(section[1..])
    ensures var m := SectionMedia(section);
            var s := SessionRun(p.session, Outside(section[1..]));
            var q := Run(Step(p, section[0]), section[1..]);
            && (q.ok <==> m.Ok? && s.Ok?)
            && (q.ok ==> q == Parser(s.value, p.media + [m.value], true, true))
  {
    hide MediaStep, SessionStep, ParseMediaHead;
    var start := Step(p, section[0]);
    RunSection(start, section[1..]);
    assert forall m {:trigger start.media[|p.media| := m]} :: start.media[|p.media| := m] == p.media + [m];
  }

  /** `after` is `before` followed by what the sections stand for. */
  ghost predicate Reads(after: seq<Media>, before: seq<Media>, sections: seq<seq<string>>)
    requires forall i :: 0 <= i < |sections| ==> sections[i] != [] && IsMediaLine(sections[i][0])
  {
    && |after| == |before| + |sections|
    && after[..|before|] == before
    && forall i :: 0 <= i < |sections| ==> SectionMedia(sections[i]) == Ok(after[|before| + i])
  }

  lemma SectionsOkCons(first: seq<string>, rest: seq<seq<string>>)
    requires forall i :: 0 <= i < |rest| ==> rest[i] != [] && IsMediaLine(rest[i][0])
    requires first != [] && IsMediaLine(first[0])
    ensures SectionsOk([first] + rest) <==> SectionMedia(first).Ok? && SectionsOk(rest)
  {
    hide SectionMedia, IsMediaLine;
    var all := [first] + rest;
    assert all[0] == first;
    forall i | 0 <= i < |rest| ensures rest[i] == all[i + 1] {}
  }

  lemma ReadsCons(after: seq<Media>, before: seq<Media>, first: seq<string>, rest: seq<seq<string>>, mid: seq<Media>)
    requires forall i :: 0 <= i < |rest| ==> rest[i] != [] && IsMediaLine(rest[i][0])
    requires first != [] && IsMediaLine(first[0])
    requires SectionMedia(first).Ok? && mid == before + [SectionMedia(first).value]
    requires Reads(after, mid, rest)
    ensures Reads(after, before, [first] + rest)
  {
    hide SectionMedia, IsMediaLine;
    var all, n := [first] + rest, |before|;
    assert after[..n] == after[..n + 1][..n] == before;
    assert after[n] == after[..n + 1][n];
    forall i | 0 <= i < |all| ensures SectionMedia(all[i]) == Ok(after[n + i]) {
      if i > 0 { assert all[i] == rest[i - 1]; }
    }
  }

  /** Locality. A text is accepted exactly when the session part and every section are readable on
      their own; then the session is read from the session part alone, and each media description
      from its own section alone. */
  lemma {:induction false} Locality(text: string)
    ensures var lines := Lines(text); var sections := Sections(Tail(lines)); var q := Parsed(text);
            var s := SessionRun(NO_SESSION, SessionPart(lines));
            && (q.ok <==> s.Ok? && SectionsOk(sections))
            && (q.ok ==>
                  && q.session == s.value
                  && |q.media| == |sections|
                  && forall i :: 0 <= i < |q.media| ==> SectionMedia(sections[i]) == Ok(q.media[i]))
  {
    hide MediaStep, SessionStep, ParseMediaHead, IsMediaLine, SectionMedia, Run, SessionRun, Lines, Sections, Head, Tail;
    var lines := Lines(text);
    var head, rest := Head(lines), Tail(lines);
    var p := Parser(NO_SESSION, [], false, true);
    assert lines == head + rest;
    RunAppend(p, head, rest);
    RunHead(p, head);
    SessionRunAppend(NO_SESSION, head, SectionOutsides(Sections(rest)));
    var mid := Run(p, head);
    if mid.ok { RunSections(mid, rest); } else { RunFailed(mid, rest); }
  }

  /** A line of a media section's own fields never changes the session. */
  lemma OwnLinesKeepSession(lines: seq<string>, at: nat, line: string)
    requires at <= |lines| && OwnLine(line) && |Head(lines)| < at
    requires Run(Parser(NO_SESSION, [], false, true), lines[..at] + [line] + lines[at..]).ok
    ensures var p := Parser(NO_SESSION, [], false, true);
            var q := Run(p, lines);
            q.ok && q.session == Run(p, lines[..at] + [line] + lines[at..]).session
  {
    hide MediaStep, SessionStep, ParseMediaHead;
    var p := Parser(NO_SESSION, [], false, true);
    var a, b := lines[..at], lines[at..];
    var h := |Head(lines)|;
    assert a + [line] + b == a + ([line] + b) && lines == a + b;
    RunAppend(p, a, [line] + b);
    RunAppend(p, a, b);
    var mid := Run(p, a);
    if !mid.ok { RunFailed(mid, [line] + b); }
    assert mid.inMedia by {
      var head, rest := a[..h], a[h..];
      assert a == head + rest && rest[0] == lines[h];
      RunAppend(p, head, rest);
      var start := Run(p, head);
      if !start.ok { RunFailed(start, rest); }
      InMediaStays(Step(start, rest[0]), rest[1..]);
    }
    assert ([line] + b)[1..] == b;
    var with := Step(mid, line);
    if !with.ok { RunFailed(with, b); }
    SameSession(mid, with, b);
  }

  lemma {:induction false} InMediaStays(p: Parser, lines: seq<string>)
    requires p.inMedia && p.media != []
    ensures Run(p, lines).inMedia
    decreases |lines|
  {
    hide MediaStep, SessionStep, ParseMediaHead;
    if lines != [] { InMediaStays(Step(p, lines[0]), lines[1..]); }
  }

  lemma SameOutcome(m: Media, n: Media, line: string)
    ensures MediaStep(m, line).Ok? == MediaStep(n, line).Ok?
  {}

  /** Whether and how the session goes on does not depend on the contents of the open section. */
  lemma {:induction false} SameSession(p: Parser, q: Parser, lines: seq<string>)
    requires p.ok && q.ok && p.session == q.session
    requires p.inMedia && q.inMedia && p.media != [] && q.media != []
    ensures Run(p, lines).ok <==> Run(q, lines).ok
    ensures Run(p, lines).ok ==> Run(p, lines).session == Run(q, lines).session
    decreases |lines|
  {
    hide MediaStep, SessionStep, ParseMediaHead;
    if lines != [] {
      var p', q' := Step(p, lines[0]), Step(q, lines[0]);
      SameOutcome(p.media[|p.media| - 1], q.media[|q.media| - 1], lines[0]);
      if p'.ok {
        SameSession(p', q', lines[1..]);
      } else {
        RunFailed(p', lines[1..]);
        RunFailed(q', lines[1..]);
      }
    }
  }

  /** The letters `parse` knows. */
  predicate KnownField(c: char) {
    c == 'v' || c == 'o' || c == 's' || c == 'u' || c == 't' || c == 'm' || IsMediaField(c)
  }

  lemma UnknownStep(p: Parser, line: string)
    requires p.inMedia ==> p.media != []
    requires !IsField(line) || !KnownField(line[0])
    ensures Step(p, line) == p
  {}

  /** A line without `=` in second place, or with another letter, can be left out anywhere. */
  lemma UnknownLine(p: Parser, a: seq<string>, line: string, b: seq<string>)
    requires p.inMedia ==> p.media != []
    requires !IsField(line) || !KnownField(line[0])
    ensures Run(p, a + [line] + b) == Run(p, a + b)
  {
    hide Step;
    assert a + [line] + b == a + ([line] + b);
    RunAppend(p, a, [line] + b);
    RunAppend(p, a, b);
    var mid := Run(p, a);
    assert ([line] + b)[1..] == b;
    UnknownStep(mid, line);
  }

  /** CR LF and LF line ends are read alike unless some line itself ends in a CR. */
  lemma {:induction false} LineEnds(session: Session, media: seq<Media>, lines: seq<string>)
    requires NoLf(lines)
    requires forall i :: 0 <= i < |lines| ==> StripCr(lines[i]) == lines[i]
    ensures ParsedOnto(session, media, Terminated(lines, "\r\n")) == ParsedOnto(session, media, Terminated(lines, "\n"))
  {
    LinesOfCrLf(lines);
    LinesOfLf(lines);
    assert StripCrs(lines) == lines;
  }
}
