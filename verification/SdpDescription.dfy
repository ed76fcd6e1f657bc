/** The description object: printing appends to a stream, parsing updates the object line by line. */
module SdpDescription {
  import opened Text
  import opened Sdp

  const CRLF := "\r\n"

  lemma TerminatedCons(line: string, rest: seq<string>)
    ensures Terminated([line] + rest, CRLF) == line + CRLF + Terminated(rest, CRLF)
  {
    assert ([line] + rest)[1..] == rest;
  }

  method Write(oss: string, lines: seq<string>) returns (r: string)
    ensures r == oss + Terminated(lines, CRLF)
  {
    r := oss;
    for i := 0 to |lines|
      invariant r + Terminated(lines[i..], CRLF) == oss + Terminated(lines, CRLF)
    {
      TerminatedCons(lines[i], lines[i + 1..]);
      assert lines[i..] == [lines[i]] + lines[i + 1..];
      r := r + lines[i] + CRLF;
    }
  }

  method WriteOptions(oss: string, options: seq<string>) returns (r: string)
    ensures r == oss + Terminated(OptionLines(options), CRLF)
  {
    r := oss;
    for i := 0 to |options|
      invariant r + Terminated(OptionLines(options[i..]), CRLF) == oss + Terminated(OptionLines(options), CRLF)
    {
      var line := KeyLine("ice-options", options[i]);
      assert options[i..][1..] == options[i + 1..];
      TerminatedCons(line, OptionLines(options[i + 1..]));
      r := r + line + CRLF;
    }
  }

  method WriteAttributes(oss: string, attributes: seq<Attribute>) returns (r: string)
    ensures r == oss + Terminated(AttributeLines(attributes), CRLF)
  {
    r := oss;
    for i := 0 to |attributes|
      invariant r + Terminated(AttributeLines(attributes[i..]), CRLF) == oss + Terminated(AttributeLines(attributes), CRLF)
    {
      var line := Line('a', attributes[i].key + ['='] + attributes[i].value);
      assert attributes[i..][1..] == attributes[i + 1..];
      TerminatedCons(line, AttributeLines(attributes[i + 1..]));
      r := r + line + CRLF;
    }
  }

  method WriteRtpmaps(oss: string, payloads: seq<Payload>) returns (r: string)
    ensures r == oss + Terminated(RtpmapLines(payloads), CRLF)
  {
    hide Dec;
    r := oss;
    for i := 0 to |payloads|
      invariant r + Terminated(RtpmapLines(payloads[i..]), CRLF) == oss + Terminated(RtpmapLines(payloads), CRLF)
    {
      assert payloads[i..][1..] == payloads[i + 1..];
      var rest := RtpmapLines(payloads[i + 1..]);
      if payloads[i].name != "" {
        var line := KeyLine("rtpmap", RtpmapValue(payloads[i]));
        TerminatedCons(line, rest);
        r := r + line + CRLF;
      } else {
        assert RtpmapLines(payloads[i..]) == rest;
      }
    }
  }

  method WriteCandidates(oss: string, candidates: seq<Candidate>) returns (r: string)
    requires KnownTypes(candidates)
    ensures r == oss + Terminated(CandidateLines(candidates), CRLF)
  {
    hide Join, CandidateParts, KeyLine;
    r := oss;
    for i := 0 to |candidates|
      invariant KnownTypes(candidates[i..])
      invariant r + Terminated(CandidateLines(candidates[i..]), CRLF) == oss + Terminated(CandidateLines(candidates), CRLF)
    {
      var line := KeyLine("candidate", Join(CandidateParts(candidates[i]), ' '));
      assert candidates[i..][1..] == candidates[i + 1..];
      TerminatedCons(line, CandidateLines(candidates[i + 1..]));
      r := r + line + CRLF;
    }
  }

  lemma Regrouped(a: string, b: string, c: string, d: string)
    ensures a + (b + c + d) == a + b + c + d
  {}

  method MediaHead(m: Media) returns (r: string)
    ensures r == MediaHeadValue(m)
  {
    hide Dec, ProtoName;
    r := (if m.kind == Video then "video" else "audio") + [' '] + Dec(m.port) + [' '] + ProtoName(m.proto);
    ghost var head := r;
    for i := 0 to |m.payloads|
      invariant r + PayloadNumbers(m.payloads[i..]) == head + PayloadNumbers(m.payloads)
    {
      var rest := PayloadNumbers(m.payloads[i + 1..]);
      assert m.payloads[i..][1..] == m.payloads[i + 1..];
      assert PayloadNumbers(m.payloads[i..]) == [' '] + Dec(m.payloads[i].number) + rest;
      Regrouped(r, [' '], Dec(m.payloads[i].number), rest);
      r := r + [' '] + Dec(m.payloads[i].number);
    }
  }

  lemma BodyText(m: Media, oss: string)
    requires Printable(m)
    ensures oss + Terminated(MediaLines(m), CRLF)
         == oss + (Line('m', MediaHeadValue(m)) + CRLF) + Terminated(TcpLines(m) + [Line('a', DirectionName(m.direction))], CRLF)
          + Terminated(RtpmapLines(m.payloads), CRLF) + Terminated(MediaIceLines(m), CRLF)
          + Terminated(CandidateLines(m.candidates), CRLF)
          + Terminated(StreamLines(m.streamNumber) + FileLines(m), CRLF)
          + Terminated(AttributeLines(m.attributes), CRLF) + Terminated(TailLines(m), CRLF)
  {
    hide Terminated, Line, TcpLines, DirectionName, RtpmapLines, MediaIceLines, CandidateLines, StreamLines, FileLines,
         AttributeLines, TailLines, MediaHeadValue;
    var l0 := TcpLines(m) + [Line('a', DirectionName(m.direction))];
    var l1 := l0 + RtpmapLines(m.payloads);
    var l2 := l1 + MediaIceLines(m);
    var l3 := l2 + CandidateLines(m.candidates);
    var sf := StreamLines(m.streamNumber) + FileLines(m);
    var l4 := l3 + sf;
    var l5 := l4 + AttributeLines(m.attributes);
    assert MediaBody(m) == l5 + TailLines(m);
    TerminatedCons(Line('m', MediaHeadValue(m)), MediaBody(m));
    TerminatedAppend(l0, RtpmapLines(m.payloads), CRLF);
    TerminatedAppend(l1, MediaIceLines(m), CRLF);
    TerminatedAppend(l2, CandidateLines(m.candidates), CRLF);
    TerminatedAppend(l3, sf, CRLF);
    TerminatedAppend(l4, AttributeLines(m.attributes), CRLF);
    TerminatedAppend(l5, TailLines(m), CRLF);
  }

  method WriteMedia(oss: string, m: Media) returns (r: string)
    requires Printable(m)
    ensures r == oss + Terminated(MediaLines(m), CRLF)
  {
    hide Terminated, Line, TcpLines, DirectionName, RtpmapLines, MediaIceLines, CandidateLines, StreamLines, FileLines,
         AttributeLines, TailLines, MediaHeadValue, MediaLines;
    var head := MediaHead(m);
    r := oss + (Line('m', head) + CRLF);
    r := Write(r, TcpLines(m) + [Line('a', DirectionName(m.direction))]);
    r := WriteRtpmaps(r, m.payloads);
    r := Write(r, MediaIceLines(m));
    r := WriteCandidates(r, m.candidates);
    r := Write(r, StreamLines(m.streamNumber) + FileLines(m));
    r := WriteAttributes(r, m.attributes);
    r := Write(r, TailLines(m));
    BodyText(m, oss);
  }

  lemma NumberKeys(k: string)
    ensures KeyOf(k) == KStream <==> k == "streamnumber" || k == "streamprofile" || k == "stream"
    ensures KeyOf(k) == KStreamMode <==> k == "streamMode"
    ensures KeyOf(k) == KFileSize <==> k == "filesize"
    ensures KeyOf(k) == KDownloadSpeed <==> k == "downloadspeed"
  {}

  class Description {
    var session: Session
    var media: seq<Media>

    constructor ()
      ensures session == NO_SESSION && media == []
    {
      session := NO_SESSION;
      media := [];
    }

    /** The text depends on the object's contents only; read back by `Parse` it gives what
        `SdpRoundTrip.GeneratedThenParsed` says. */
    method Generate() returns (oss: string)
      requires AllPrintable(media)
      ensures oss == Generated(session, media)
    {
      hide SessionHead, UriLines, ConnectionLines, TimeLine, SessionIceLines, OptionLines, AttributeLines, MediaLines,
           Terminated, AllMediaLines;
      var head := SessionHead(session) + UriLines(session.uri) + ConnectionLines(session.connection)
        + [TimeLine(session)] + SessionIceLines(session);
      oss := Write("", head);
      oss := WriteOptions(oss, session.iceOptions);
      oss := WriteAttributes(oss, session.attributes);
      TerminatedAppend(head, OptionLines(session.iceOptions), CRLF);
      TerminatedAppend(head + OptionLines(session.iceOptions), AttributeLines(session.attributes), CRLF);
      TerminatedAppend(SessionLines(session), AllMediaLines(media), CRLF);
      assert "" + Terminated(head, CRLF) == Terminated(head, CRLF);
      oss := WriteAllMedia(oss, media);
    }

    static method WriteAllMedia(oss: string, media: seq<Media>) returns (r: string)
      requires AllPrintable(media)
      ensures r == oss + Terminated(AllMediaLines(media), CRLF)
    {
      hide MediaLines, Printable;
      r := oss;
      for i := 0 to |media|
        invariant AllPrintable(media[i..])
        invariant r + Terminated(AllMediaLines(media[i..]), CRLF) == oss + Terminated(AllMediaLines(media), CRLF)
      {
        var rest := media[i + 1..];
        assert media[i..][1..] == rest && media[i..][0] == media[i];
        assert AllPrintable(rest);
        TerminatedAppend(MediaLines(media[i]), AllMediaLines(rest), CRLF);
        r := WriteMedia(r, media[i]);
      }
    }

    /** The dispatch on the key of an `a=` line, inside and outside a media section. */
    method ParseAttribute(attr: string, inMedia: bool)
      requires inMedia ==> media != []
      modifies this
      ensures inMedia ==> session == old(session) && |media| == |old(media)|
      ensures inMedia ==> media == old(media)[|media| - 1 := MediaAttribute(old(media)[|media| - 1], KeyValue(attr))]
      ensures !inMedia ==> media == old(media) && session == SessionAttribute(old(session), KeyValue(attr))
    {
      hide MediaAttribute, SessionAttribute;
      var pos := Find(attr, ':');
      var k, v := attr, "";
      if pos != |attr| { k, v := attr[..pos], attr[pos + 1..]; }
      if !inMedia {
        session := ParseSessionAttribute(session, k, v);
      } else {
        var last := |media| - 1;
        var m := ParseMediaAttribute(media[last], k, v);
        media := media[last := m];
      }
    }

    static method ParseSessionAttribute(s: Session, k: string, v: string) returns (r: Session)
      ensures r == SessionAttribute(s, Attribute(k, v))
    {
      hide Split, CString, Emplace;
      r := s;
      if k == "ice-ufrag" {
        r := r.(iceUfrag := v);
      } else if k == "ice-pwd" {
        r := r.(icePwd := v);
      } else if k == "ice-options" {
        r := r.(iceOptions := Split(CString(v), ' '));
      } else if k == "ice-lite" {
        r := r.(iceLite := true);
      } else {
        r := r.(attributes := Emplace(r.attributes, Attribute(k, v)));
      }
    }

    /** The rest of the cascade: the keys that carry a number; `false` when it is not one. */
    static method ParseNumber(m: Media, k: string, v: string) returns (r: Media, handled: bool)
      requires KeyOf(k) in {KOptions, KLite, KStream, KStreamMode, KFileSize, KDownloadSpeed, KOther}
      ensures MediaAttribute(m, Attribute(k, v)) ==
              if handled then r else r.(attributes := Emplace(r.attributes, Attribute(k, v)))
    {
      hide Emplace, ParseCandidate, ParseRtpmap, ToUnsigned, ToUnsigned64, ToInt, KeyOf;
      NumberKeys(k);
      r, handled := m, true;
      if k == "streamnumber" || k == "streamprofile" || k == "stream" {
        var value := ToUnsigned(v);
        if value.Some? { r := r.(streamNumber := value.value % 0x1_0000); }
      } else if k == "streamMode" {
        if v == "sub" || v == "Sub" {
          r := r.(streamNumber := 1);
        } else if v == "main" || v == "Main" {
          r := r.(streamNumber := 0);
        } else {
          handled := false;
        }
      } else if k == "filesize" {
        var value := ToUnsigned64(v);
        handled := value.Some?;
        if handled { r := r.(fileSize := value.value); }
      } else if k == "downloadspeed" {
        var value := ToInt(v);
        handled := value.Some?;
        if handled { r := r.(downloadSpeed := value.value); }
      } else {
        handled := false;
      }
    }

    static method ParseMediaAttribute(m: Media, k: string, v: string) returns (r: Media)
      ensures r == MediaAttribute(m, Attribute(k, v))
    {
      hide Split, CString, Emplace, ParseCandidate, ParseRtpmap, ToUnsigned, ToUnsigned64, ToInt;
      r := m;
      var handled := true;
      if k == "ice-ufrag" {
        r := r.(iceUfrag := v);
      } else if k == "ice-pwd" {
        r := r.(icePwd := v);
      } else if k == "candidate" {
        r := r.(candidates := r.candidates + [ParseCandidate(v)]);
      } else if k == "sendonly" {
        r := r.(direction := SendOnly);
      } else if k == "recvonly" {
        r := r.(direction := RecvOnly);
      } else if k == "sendrecv" {
        r := r.(direction := SendRecv);
      } else if k == "inactive" {
        r := r.(direction := Inactive);
      } else if k == "setup" {
        r := r.(setup := if v == "active" then Active else if v == "passive" then Passive else ActPass);
      } else if k == "connection" {
        r := r.(newConnection := v == "new");
      } else if k == "rtpmap" {
        var payload := ParseRtpmap(v);
        if payload.Some? { r := r.(payloads := r.payloads + [payload.value]); }
      } else {
        r, handled := ParseNumber(r, k, v);
      }
      if !handled { r := r.(attributes := Emplace(r.attributes, Attribute(k, v))); }
    }

    /** One line; `false` when an exception leaves the loop. */
    method ParseLine(line: string, inMedia: bool) returns (ok: bool, open: bool)
      requires inMedia ==> media != []
      modifies this
      ensures Parser(session, media, open, ok) == Step(Parser(old(session), old(media), inMedia, true), line)
    {
      hide MediaAttribute, SessionAttribute, KeyValue, ParseMediaHead, ParseOrigin, ParseConnection, ParseUri,
           ParseSessionType, Split, ToInt, ToUnsigned, ToUnsigned64;
      ok, open := true, inMedia;
      if |line| < 2 || line[1] != '=' { return; }
      var field, value := line[0], line[2..];
      if field == 'm' {
        media := media + [ParseMediaHead(value)];
        open := true;
      } else if field == 'a' {
        ParseAttribute(value, inMedia);
      } else if field == 'c' {
        match ParseConnection(value) {
          case Thrown => ok := false;
          case Ok(c) =>
            if inMedia { media := media[|media| - 1 := media[|media| - 1].(connection := c)]; }
            else { session := session.(connection := c); }
        }
      } else if field == 'y' {
        if inMedia {
          var m := media[|media| - 1];
          media := media[|media| - 1 := m.(ssrc := OrUnsigned(ToUnsigned(value), m.ssrc))];
        }
      } else if field == 'f' {
        if inMedia { media := media[|media| - 1 := media[|media| - 1].(fParam := value)]; }
      } else {
        ok := ParseSessionField(field, value);
        assert value == line[2..];
      }
    }

    method ParseSessionField(field: char, value: string) returns (ok: bool)
      requires field != 'm' && !IsMediaField(field)
      modifies this
      ensures media == old(media)
      ensures match SessionStep(old(session), Line(field, value))
              case Ok(s) => ok && session == s
              case Thrown => !ok && session == old(session)
    {
      hide SessionAttribute, KeyValue, ParseOrigin, ParseConnection, ParseUri, ParseSessionType, Split, ToInt, ToUnsigned64;
      ok := true;
      match field {
        case 'v' => session := session.(version := OrInt(ToInt(value), session.version));
        case 'o' =>
          match ParseOrigin(value) {
            case Ok(o) => session := session.(origin := o);
            case Thrown => ok := false;
          }
        case 's' => session := session.(kind := ParseSessionType(value));
        case 'u' => session := session.(uri := ParseUri(value));
        case 't' =>
          var part := Split(value, ' ');
          if |part| == 2 {
            session := session.(start := OrUnsigned64(ToUnsigned64(part[0]), session.start));
            session := session.(end := OrUnsigned64(ToUnsigned64(part[1]), session.end));
          }
        case _ =>
      }
    }

    method Parse(sdp: string) returns (ok: bool)
      modifies this
      ensures ok == ParsedOnto(old(session), old(media), sdp).ok
      ensures session == ParsedOnto(old(session), old(media), sdp).session
      ensures media == ParsedOnto(old(session), old(media), sdp).media
    {
      hide Step;
      var unread, inMedia := sdp, false;
      while unread != ""
        invariant inMedia ==> media != []
        invariant Run(Parser(session, media, inMedia, true), Lines(unread)) == ParsedOnto(old(session), old(media), sdp)
        decreases |unread|
      {
        var i := Find(unread, '\n');
        var line := StripCr(unread[..i]);
        ghost var was := Parser(session, media, inMedia, true);
        ghost var text := unread;
        unread := if i == |unread| then "" else unread[i + 1..];
        assert Lines(text) == [line] + Lines(unread) by { NextLine(text); }
        assert ([line] + Lines(unread))[1..] == Lines(unread);
        ok, inMedia := ParseLine(line, inMedia);
        if !ok {
          RunFailed(Step(was, line), Lines(unread));
          return;
        }
      }
      ok := true;
    }
  }

  lemma NextLine(text: string)
    requires text != ""
    ensures var i := Find(text, '\n');
            Lines(text) == [StripCr(text[..i])] + Lines(if i == |text| then "" else text[i + 1..])
  {
    var i := Find(text, '\n');
    if i < |text| {
      var rest := Pieces(text[i + 1..], '\n');
      assert ([text[..i]] + rest)[1..] == rest;
    } else {
      assert text[..i] == text;
      assert [text][1..] == [];
    }
  }
}
