/** What each line of a description does, said on the texts themselves: a line is added at the end
    of a text that is accepted, and the result of parsing is compared. */
module SdpLines {
  import opened Text
  import opened Sdp
  import opened SdpLocality
  import opened SdpRoundTrip

  /** The result of parsing a text of these lines. */
  function After(lines: seq<string>): (p: Parser)
    ensures p.inMedia ==> p.media != []
  {
    Parsed(Terminated(lines, "\r\n"))
  }

  ghost predicate Accepted(lines: seq<string>) { NoLf(lines) && After(lines).ok }

  /** Accepted lines of which one has opened a media section. */
  ghost predicate Open(lines: seq<string>) { Accepted(lines) && After(lines).media != [] }

  ghost predicate Closed(lines: seq<string>) { Accepted(lines) && After(lines).media == [] }

  /** The media description of the section the next line belongs to. */
  function Last(lines: seq<string>): Media
    requires After(lines).media != []
  {
    After(lines).media[|After(lines).media| - 1]
  }

  /** The added line makes the open section `m` and changes nothing else. */
  ghost predicate Makes(lines: seq<string>, line: string, m: Media) {
    && After(lines + [line]).ok && After(lines).media != []
    && After(lines + [line]).session == After(lines).session
    && After(lines + [line]).media == After(lines).media[|After(lines).media| - 1 := m]
  }

  /** The added line makes the session `s` and changes nothing else. */
  ghost predicate MakesSession(lines: seq<string>, line: string, s: Session) {
    && After(lines + [line]).ok
    && After(lines + [line]).session == s
    && After(lines + [line]).media == After(lines).media
  }

  /** The added line makes `parse` fail, and leaves everything read before it. */
  ghost predicate Fails(lines: seq<string>, line: string) {
    !After(lines + [line]).ok
    && After(lines + [line]).session == After(lines).session && After(lines + [line]).media == After(lines).media
  }

  // ----- one more line -----

  lemma OneMore(lines: seq<string>, line: string)
    requires NoLf(lines) && OneLine(line)
    ensures NoLf(lines + [line]) && After(lines + [line]) == Step(After(lines), line)
  {
    hide Step;
    LinesOfCrLf(lines);
    LinesOfCrLf(lines + [line]);
    var p := Parser(NO_SESSION, [], false, true);
    RunAppend(p, lines, [line]);
    assert [line][1..] == [];
    assert Run(Run(p, lines), [line]) == Step(Run(p, lines), line);
  }

  /** A section is open once there is a media description. */
  lemma {:induction false} OpenSection(p: Parser, lines: seq<string>)
    requires p.inMedia <==> p.media != []
    ensures Run(p, lines).inMedia <==> Run(p, lines).media != []
    decreases |lines|
  {
    hide MediaStep, SessionStep, ParseMediaHead;
    if lines != [] { OpenSection(Step(p, lines[0]), lines[1..]); }
  }

  lemma InSection(lines: seq<string>)
    requires Open(lines)
    ensures After(lines).inMedia
  {
    hide Step;
    OpenSection(Parser(NO_SESSION, [], false, true), Lines(Terminated(lines, "\r\n")));
  }

  lemma OwnStep(lines: seq<string>, line: string, m: Media)
    requires Open(lines) && OneLine(line) && OwnLine(line) && MediaStep(Last(lines), line) == Ok(m)
    ensures Makes(lines, line, m)
  {
    hide MediaStep, SessionStep, ParseMediaHead, After;
    OneMore(lines, line);
    InSection(lines);
    StepInSection(After(lines), line);
  }

  lemma KeyStep(lines: seq<string>, key: string, v: string, m: Media)
    requires Open(lines) && ':' !in key && OneLine(key) && OneLine(v)
    requires MediaAttribute(Last(lines), Attribute(key, v)) == m
    ensures Makes(lines, KeyLine(key, v), m)
  {
    hide MediaStep, SessionStep, ParseMediaHead, After, MediaAttribute, KeyLine;
    KeyText(key, v);
    MediaKey(Last(lines), key, v);
    OwnStep(lines, KeyLine(key, v), m);
  }

  /** A line that belongs to the session: any but `a=`, `c=`, `y=`, `f=` and `m=`, and these four
      too, without effect for the last two, before the first section. */
  lemma SessionLine(lines: seq<string>, line: string)
    requires Accepted(lines) && OneLine(line) && !IsMediaLine(line) && (OwnLine(line) ==> After(lines).media == [])
    ensures var r := SessionStep(After(lines).session, line);
            if r.Ok? then MakesSession(lines, line, r.value) else Fails(lines, line)
  {
    hide MediaStep, SessionStep, ParseMediaHead, After;
    OneMore(lines, line);
  }

  /** An attribute line as it stands in a text. */
  lemma KeyPrefix(prefix: string, key: string, v: string)
    requires prefix == "a=" + key + ":"
    ensures KeyLine(key, v) == prefix + v
  {}

  lemma StreamTexts(v: string)
    ensures KeyLine("streamnumber", v) == "a=streamnumber:" + v && KeyLine("streamprofile", v) == "a=streamprofile:" + v
    ensures KeyLine("stream", v) == "a=stream:" + v
  {
    hide KeyLine;
    KeyPrefix("a=streamnumber:", "streamnumber", v);
    KeyPrefix("a=streamprofile:", "streamprofile", v);
    KeyPrefix("a=stream:", "stream", v);
  }

  // ----- lines of a media section -----

  /** Text in which no number is found: it does not start with a space, a sign or a digit. */
  predicate NoNumber(v: string) {
    v == "" || !(IsSpace(v[0]) || IsDigit(v[0]) || v[0] == '-' || v[0] == '+')
  }

  lemma NothingScanned(v: string)
    requires NoNumber(v)
    ensures ToUnsigned(v) == None && ToUnsigned64(v) == None && ToInt(v) == None
  {
    assert SkipSpaces(v) == v;
  }

  /** `c=` inside a section, for every address the printer could write: it is the section's. */
  lemma ConnectionLine(lines: seq<string>, c: Connection)
    requires Open(lines) && CleanConnection(c) && c.address != ""
    ensures Makes(lines, ConnectionLines(c)[0], Last(lines).(connection := SurvivingConnection(c)))
  {
    hide After, ParseConnection, SurvivingConnection, Join, DecInt;
    ConnectionText(c);
    ConnectionBack(c);
    OwnStep(lines, ConnectionLines(c)[0], Last(lines).(connection := SurvivingConnection(c)));
  }

  lemma ConnectionText(c: Connection)
    requires CleanConnection(c) && c.address != ""
    ensures OneLine(ConnectionLines(c)[0]) && MediaText(ConnectionLines(c))
  {
    hide Join, Dec, DecInt;
    DecIntWord(c.ttl);
    DecIntWord(c.numAddr);
    JoinFree(AddressParts(c), '/', '\n');
    JoinFree([c.netType, AddressTypeName(c.addrType), Join(AddressParts(c), '/')], ' ', '\n');
  }

  /** The form devices send: `c=IN IP4 192.168.1.5` and its IPv6 counterpart, in the open section,
      or in the session when there is none. */
  lemma AddressLine(lines: seq<string>, address: string)
    requires Accepted(lines) && Word(address) && '/' !in address
    ensures Open(lines) ==>
              && Makes(lines, "c=IN IP4 " + address, Last(lines).(connection := Connection("IN", Ip4, address, 0, 1)))
              && Makes(lines, "c=IN IP6 " + address, Last(lines).(connection := Connection("IN", Ip6, address, 0, 1)))
    ensures Closed(lines) ==>
              && MakesSession(lines, "c=IN IP4 " + address,
                              After(lines).session.(connection := Connection("IN", Ip4, address, 0, 1)))
              && MakesSession(lines, "c=IN IP6 " + address,
                              After(lines).session.(connection := Connection("IN", Ip6, address, 0, 1)))
  {
    hide After, MediaStep, SessionStep, ParseConnection, OneLine;
    OneAddress(lines, address, Ip4);
    OneAddress(lines, address, Ip6);
  }

  lemma OneAddress(lines: seq<string>, address: string, t: AddressType)
    requires Accepted(lines) && Word(address) && '/' !in address
    ensures var c := Connection("IN", t, address, 0, 1);
            var line := (if t == Ip4 then "c=IN IP4 " else "c=IN IP6 ") + address;
            && (Open(lines) ==> Makes(lines, line, Last(lines).(connection := c)))
            && (Closed(lines) ==> MakesSession(lines, line, After(lines).session.(connection := c)))
  {
    hide After, ParseConnection, ConnectionLines;
    var c := Connection("IN", t, address, 0, 1);
    var line := (if t == Ip4 then "c=IN IP4 " else "c=IN IP6 ") + address;
    AddressText(address, t);
    if Open(lines) { ConnectionLine(lines, c); }
    if Closed(lines) { SessionConnection(lines, line[2..], c); }
  }

  lemma AddressText(address: string, t: AddressType)
    requires Word(address) && '/' !in address
    ensures var c := Connection("IN", t, address, 0, 1);
            var line := (if t == Ip4 then "c=IN IP4 " else "c=IN IP6 ") + address;
            && CleanConnection(c) && SurvivingConnection(c) == c && ConnectionLines(c) == [line]
            && "c=" + line[2..] == line && OneLine(line[2..]) && ParseConnection(line[2..]) == Ok(c)
  {
    hide ParseConnection, Join;
    var c := Connection("IN", t, address, 0, 1);
    var value := (if t == Ip4 then "IN IP4 " else "IN IP6 ") + address;
    AddressValue(address, t);
    ConnectionBack(c);
    assert Line('c', value) == (if t == Ip4 then "c=IN IP4 " else "c=IN IP6 ") + address;
  }

  lemma SessionConnection(lines: seq<string>, value: string, c: Connection)
    requires Closed(lines) && OneLine(value) && ParseConnection(value) == Ok(c)
    ensures MakesSession(lines, "c=" + value, After(lines).session.(connection := c))
  {
    hide After, ParseConnection;
    assert Line('c', value) == "c=" + value;
    SessionLine(lines, Line('c', value));
  }

  lemma AddressValue(address: string, t: AddressType)
    ensures Join(["IN", AddressTypeName(t), Join([address], '/')], ' ')
         == (if t == Ip4 then "IN IP4 " else "IN IP6 ") + address
  {
    ThreeParts("IN", AddressTypeName(t), address);
    assert Join([address], '/') == address;
  }

  lemma ThreeParts(a: string, b: string, c: string)
    ensures Join([a, b, c], ' ') == a + " " + b + " " + c
  {
    assert [a, b, c][1..] == [b, c] && [b, c][1..] == [c];
    assert Join([c], ' ') == c;
    assert Join([b, c], ' ') == b + [' '] + c;
    assert Join([a, b, c], ' ') == a + [' '] + (b + [' '] + c);
  }

  /** An address type other than IP4 and IP6 makes parsing fail, in a section and outside. */
  lemma BadAddressType(lines: seq<string>, net: string, kind: string, address: string)
    requires Accepted(lines) && Word(net) && Word(kind) && Word(address) && kind != "IP4" && kind != "IP6"
    ensures Fails(lines, "c=" + net + " " + kind + " " + address)
  {
    hide After, Split, Join;
    var value := net + " " + kind + " " + address;
    SplitJoin([net, kind, address], ' ');
    ThreeParts(net, kind, address);
    var line := "c=" + net + " " + kind + " " + address;
    assert line == Line('c', value);
    assert ParseConnection(value) == Thrown;
    OneMore(lines, line);
    if Open(lines) { InSection(lines); }
  }

  /** A ttl and an address count that are no numbers are 0 and 1. */
  lemma UncountedLine(lines: seq<string>, address: string, ttl: string, count: string)
    requires Open(lines) && Word(address) && Word(ttl) && Word(count) && '/' !in address && '/' !in ttl && '/' !in count
    requires NoNumber(ttl) && NoNumber(count)
    ensures Makes(lines, "c=IN IP4 " + address + "/" + ttl + "/" + count,
                  Last(lines).(connection := Connection("IN", Ip4, address, 0, 1)))
  {
    hide After, ParseConnection;
    var value := "IN IP4 " + address + "/" + ttl + "/" + count;
    UncountedValue(address, ttl, count);
    UncountedText(address, ttl, count);
    ConnectionStep(lines, value, Connection("IN", Ip4, address, 0, 1));
  }

  lemma UncountedText(address: string, ttl: string, count: string)
    requires Word(address) && Word(ttl) && Word(count)
    ensures var value := "IN IP4 " + address + "/" + ttl + "/" + count;
            OneLine(value) && "c=" + value == "c=IN IP4 " + address + "/" + ttl + "/" + count
  {}

  lemma ConnectionStep(lines: seq<string>, value: string, c: Connection)
    requires Open(lines) && OneLine(value) && ParseConnection(value) == Ok(c)
    ensures Makes(lines, "c=" + value, Last(lines).(connection := c))
  {
    hide After, ParseConnection;
    assert Line('c', value) == "c=" + value;
    OwnStep(lines, Line('c', value), Last(lines).(connection := c));
  }

  lemma UncountedValue(address: string, ttl: string, count: string)
    requires Word(address) && Word(ttl) && Word(count) && '/' !in address && '/' !in ttl && '/' !in count
    requires NoNumber(ttl) && NoNumber(count)
    ensures ParseConnection("IN IP4 " + address + "/" + ttl + "/" + count) == Ok(Connection("IN", Ip4, address, 0, 1))
  {
    hide Split, Join, ToInt, NoNumber;
    var a := Join([address, ttl, count], '/');
    SplitJoin([address, ttl, count], '/');
    JoinNotEmpty([address, ttl, count], '/');
    JoinFree([address, ttl, count], '/', ' ');
    SplitJoin(["IN", "IP4", a], ' ');
    ThreeParts("IN", "IP4", a);
    SlashParts(address, ttl, count);
    assert "IN" + " " + "IP4" + " " + a == "IN IP4 " + address + "/" + ttl + "/" + count;
    NothingScanned(ttl);
    NothingScanned(count);
  }

  lemma SlashParts(a: string, b: string, c: string)
    ensures Join([a, b, c], '/') == a + "/" + b + "/" + c
  {
    assert [a, b, c][1..] == [b, c] && [b, c][1..] == [c];
    assert Join([c], '/') == c;
    assert Join([b, c], '/') == b + ['/'] + c;
    assert Join([a, b, c], '/') == a + ['/'] + (b + ['/'] + c);
  }

  /** A `c=` of fewer than three words stores the connection of a new description. */
  lemma ShortConnection(lines: seq<string>, v: string)
    requires Accepted(lines) && OneLine(v) && ' ' !in v
    ensures Open(lines) ==> Makes(lines, "c=" + v, Last(lines).(connection := Connection("IN", Ip4, "", 0, 1)))
    ensures Closed(lines) ==>
              MakesSession(lines, "c=" + v, After(lines).session.(connection := Connection("IN", Ip4, "", 0, 1)))
  {
    hide After, Split;
    OneWord(v);
    assert "c=" + v == Line('c', v);
    if Open(lines) { OwnStep(lines, Line('c', v), Last(lines).(connection := NO_CONNECTION)); }
    if Closed(lines) { SessionLine(lines, Line('c', v)); }
  }

  /** `y=` takes a number, `f=` any text, and both are without effect before the first section. */
  lemma TailLine(lines: seq<string>, n: u32, v: string)
    requires Accepted(lines) && OneLine(v)
    ensures Open(lines) ==> Makes(lines, "y=" + Dec(n), Last(lines).(ssrc := n))
    ensures Open(lines) && NoNumber(v) ==> Makes(lines, "y=" + v, Last(lines))
    ensures Open(lines) ==> Makes(lines, "f=" + v, Last(lines).(fParam := v))
    ensures Closed(lines) ==> MakesSession(lines, "y=" + v, After(lines).session) && MakesSession(lines, "f=" + v, After(lines).session)
  {
    hide After, Dec, ToUnsigned;
    UnsignedBack(n);
    DecWord(n);
    assert "y=" + Dec(n) == Line('y', Dec(n)) && "y=" + v == Line('y', v) && "f=" + v == Line('f', v);
    if Open(lines) {
      OwnStep(lines, "y=" + Dec(n), Last(lines).(ssrc := n));
      OwnStep(lines, "f=" + v, Last(lines).(fParam := v));
      if NoNumber(v) {
        NothingScanned(v);
        OwnStep(lines, "y=" + v, Last(lines));
      }
    }
    if Closed(lines) {
      SessionLine(lines, "y=" + v);
      SessionLine(lines, "f=" + v);
    }
  }

  /** The transport attributes: any setup role but the two named ones is `actpass`, any connection
      but `new` an existing one. */
  lemma TcpLine(lines: seq<string>, v: string)
    requires Open(lines) && OneLine(v)
    ensures Makes(lines, "a=setup:active", Last(lines).(setup := Active))
    ensures Makes(lines, "a=setup:passive", Last(lines).(setup := Passive))
    ensures v != "active" && v != "passive" ==> Makes(lines, "a=setup:" + v, Last(lines).(setup := ActPass))
    ensures Makes(lines, "a=connection:new", Last(lines).(newConnection := true))
    ensures v != "new" ==> Makes(lines, "a=connection:" + v, Last(lines).(newConnection := false))
  {
    hide After, KeyLine;
    SetupLine(lines, "active", Active);
    SetupLine(lines, "passive", Passive);
    if v != "active" && v != "passive" { SetupLine(lines, v, ActPass); }
    NewLine(lines, "new");
    NewLine(lines, v);
    assert "a=setup:active" == "a=setup:" + "active" && "a=setup:passive" == "a=setup:" + "passive";
    assert "a=connection:new" == "a=connection:" + "new";
  }

  lemma SetupLine(lines: seq<string>, v: string, t: Setup)
    requires Open(lines) && OneLine(v)
    requires t == if v == "active" then Active else if v == "passive" then Passive else ActPass
    ensures Makes(lines, "a=setup:" + v, Last(lines).(setup := t))
  {
    hide After, KeyLine;
    KeyStep(lines, "setup", v, Last(lines).(setup := t));
    KeyPrefix("a=setup:", "setup", v);
  }

  lemma NewLine(lines: seq<string>, v: string)
    requires Open(lines) && OneLine(v)
    ensures Makes(lines, "a=connection:" + v, Last(lines).(newConnection := v == "new"))
  {
    hide After, KeyLine;
    KeyStep(lines, "connection", v, Last(lines).(newConnection := v == "new"));
    KeyPrefix("a=connection:", "connection", v);
  }

  /** The four directions. */
  lemma DirectionLine(lines: seq<string>)
    requires Open(lines)
    ensures Makes(lines, "a=sendrecv", Last(lines).(direction := SendRecv))
    ensures Makes(lines, "a=sendonly", Last(lines).(direction := SendOnly))
    ensures Makes(lines, "a=recvonly", Last(lines).(direction := RecvOnly))
    ensures Makes(lines, "a=inactive", Last(lines).(direction := Inactive))
  {
    hide After, Line;
    OneDirection(lines, SendRecv);
    OneDirection(lines, SendOnly);
    OneDirection(lines, RecvOnly);
    OneDirection(lines, Inactive);
    assert "a=sendrecv" == "a=" + "sendrecv" && "a=sendonly" == "a=" + "sendonly";
    assert "a=recvonly" == "a=" + "recvonly" && "a=inactive" == "a=" + "inactive";
  }

  lemma OneDirection(lines: seq<string>, d: Direction)
    requires Open(lines)
    ensures Makes(lines, "a=" + DirectionName(d), Last(lines).(direction := d))
  {
    hide After, MediaStep, MediaAttribute, KeyValue, DirectionName;
    var name := DirectionName(d);
    NamesOneLine(Active, d);
    SectionOne(Last(lines), Line('a', name));
    DirectionBack(d, Last(lines));
    assert Line('a', name) == "a=" + name;
    OwnStep(lines, "a=" + name, Last(lines).(direction := d));
  }

  ghost predicate Kept(attributes: seq<Attribute>, key: string) {
    exists a :: a in attributes && a.key == key
  }

  /** A free attribute is kept with its first value. */
  ghost function With(attributes: seq<Attribute>, key: string, v: string): seq<Attribute> {
    if Kept(attributes, key) then attributes else attributes + [Attribute(key, v)]
  }

  ghost function Keeping(m: Media, key: string, v: string): Media {
    m.(attributes := With(m.attributes, key, v))
  }

  lemma EmplaceIsWith(attributes: seq<Attribute>, key: string, v: string)
    ensures Emplace(attributes, Attribute(key, v)) == With(attributes, key, v)
  {
    if Kept(attributes, key) {
      var a :| a in attributes && a.key == key;
      var i :| 0 <= i < |attributes| && attributes[i] == a;
    }
  }

  /** The numbers of a stream, a file and a rate. Where none is found the first is left alone and
      the others are kept as free attributes. */
  lemma NumberLine(lines: seq<string>, stream: u32, size: u64, speed: i32, v: string)
    requires Open(lines) && OneLine(v)
    ensures Makes(lines, "a=streamnumber:" + Dec(stream), Last(lines).(streamNumber := stream % 65536))
    ensures Makes(lines, "a=streamprofile:" + Dec(stream), Last(lines).(streamNumber := stream % 65536))
    ensures Makes(lines, "a=stream:" + Dec(stream), Last(lines).(streamNumber := stream % 65536))
    ensures Makes(lines, "a=filesize:" + Dec(size), Last(lines).(fileSize := size))
    ensures Makes(lines, "a=downloadspeed:" + DecInt(speed), Last(lines).(downloadSpeed := speed))
    ensures NoNumber(v) ==>
              && Makes(lines, "a=streamnumber:" + v, Last(lines)) && Makes(lines, "a=streamprofile:" + v, Last(lines))
              && Makes(lines, "a=stream:" + v, Last(lines))
    ensures NoNumber(v) ==> Makes(lines, "a=filesize:" + v, Keeping(Last(lines), "filesize", v))
    ensures NoNumber(v) ==> Makes(lines, "a=downloadspeed:" + v, Keeping(Last(lines), "downloadspeed", v))
  {
    hide After, KeyLine, Dec, DecInt, NoNumber, KeyOf, Keeping;
    StreamKeys();
    StreamLine(lines, "streamnumber", stream, v);
    StreamLine(lines, "streamprofile", stream, v);
    StreamLine(lines, "stream", stream, v);
    FileLine(lines, size, speed, v);
    StreamTexts(Dec(stream));
    StreamTexts(v);
    KeyPrefix("a=filesize:", "filesize", Dec(size));
    KeyPrefix("a=filesize:", "filesize", v);
    KeyPrefix("a=downloadspeed:", "downloadspeed", DecInt(speed));
    KeyPrefix("a=downloadspeed:", "downloadspeed", v);
  }

  lemma StreamLine(lines: seq<string>, key: string, stream: u32, v: string)
    requires Open(lines) && OneLine(v) && KeyOf(key) == KStream && ':' !in key && OneLine(key)
    ensures Makes(lines, KeyLine(key, Dec(stream)), Last(lines).(streamNumber := stream % 65536))
    ensures NoNumber(v) ==> Makes(lines, KeyLine(key, v), Last(lines))
  {
    hide After, Dec, KeyOf, KeyLine, MediaAttribute, NoNumber;
    DecWord(stream);
    StreamRead(key, stream, Last(lines));
    KeyStep(lines, key, Dec(stream), Last(lines).(streamNumber := stream % 65536));
    if NoNumber(v) {
      StreamIgnored(key, v, Last(lines));
      KeyStep(lines, key, v, Last(lines));
    }
  }

  lemma StreamRead(key: string, stream: u32, m: Media)
    requires KeyOf(key) == KStream
    ensures MediaAttribute(m, Attribute(key, Dec(stream))) == m.(streamNumber := stream % 65536)
  {
    hide KeyOf, Dec, ToUnsigned;
    UnsignedBack(stream);
  }

  lemma StreamIgnored(key: string, v: string, m: Media)
    requires KeyOf(key) == KStream && NoNumber(v)
    ensures MediaAttribute(m, Attribute(key, v)) == m
  {
    hide KeyOf;
    NothingScanned(v);
  }

  lemma FileLine(lines: seq<string>, size: u64, speed: i32, v: string)
    requires Open(lines) && OneLine(v)
    ensures var m := Last(lines);
            && Makes(lines, KeyLine("filesize", Dec(size)), m.(fileSize := size))
            && Makes(lines, KeyLine("downloadspeed", DecInt(speed)), m.(downloadSpeed := speed))
            && (NoNumber(v) ==> Makes(lines, KeyLine("filesize", v), Keeping(m, "filesize", v)))
            && (NoNumber(v) ==> Makes(lines, KeyLine("downloadspeed", v), Keeping(m, "downloadspeed", v)))
  {
    hide After, Dec, DecInt, KeyLine, MediaAttribute, Keeping, NoNumber;
    var m := Last(lines);
    DecWord(size);
    DecIntWord(speed);
    FileAttributes(size, speed, m);
    KeyStep(lines, "filesize", Dec(size), m.(fileSize := size));
    KeyStep(lines, "downloadspeed", DecInt(speed), m.(downloadSpeed := speed));
    if NoNumber(v) {
      FileKept(m, v);
      KeyStep(lines, "filesize", v, Keeping(m, "filesize", v));
      KeyStep(lines, "downloadspeed", v, Keeping(m, "downloadspeed", v));
    }
  }

  lemma FileKept(m: Media, v: string)
    requires NoNumber(v)
    ensures MediaAttribute(m, Attribute("filesize", v)) == Keeping(m, "filesize", v)
    ensures MediaAttribute(m, Attribute("downloadspeed", v)) == Keeping(m, "downloadspeed", v)
  {
    hide KeyOf, With, Emplace;
    StreamKeys();
    NothingScanned(v);
    EmplaceIsWith(m.attributes, "filesize", v);
    EmplaceIsWith(m.attributes, "downloadspeed", v);
  }

  /** The sub and the main stream; another mode is kept as a free attribute. */
  lemma StreamModeLine(lines: seq<string>, v: string)
    requires Open(lines) && OneLine(v)
    ensures Makes(lines, "a=streamMode:sub", Last(lines).(streamNumber := 1))
    ensures Makes(lines, "a=streamMode:Sub", Last(lines).(streamNumber := 1))
    ensures Makes(lines, "a=streamMode:main", Last(lines).(streamNumber := 0))
    ensures Makes(lines, "a=streamMode:Main", Last(lines).(streamNumber := 0))
    ensures v != "sub" && v != "Sub" && v != "main" && v != "Main" ==>
              Makes(lines, "a=streamMode:" + v, Keeping(Last(lines), "streamMode", v))
  {
    hide After, Keeping;
    OneMode(lines, "sub");
    OneMode(lines, "Sub");
    OneMode(lines, "main");
    OneMode(lines, "Main");
    OneMode(lines, v);
    assert "a=streamMode:sub" == "a=streamMode:" + "sub" && "a=streamMode:Sub" == "a=streamMode:" + "Sub";
    assert "a=streamMode:main" == "a=streamMode:" + "main" && "a=streamMode:Main" == "a=streamMode:" + "Main";
  }

  lemma OneMode(lines: seq<string>, v: string)
    requires Open(lines) && OneLine(v)
    ensures Makes(lines, "a=streamMode:" + v,
                  if v == "sub" || v == "Sub" then Last(lines).(streamNumber := 1)
                  else if v == "main" || v == "Main" then Last(lines).(streamNumber := 0)
                  else Keeping(Last(lines), "streamMode", v))
  {
    hide After, MediaAttribute, KeyLine, Keeping;
    ModeAttribute(Last(lines), v);
    KeyStep(lines, "streamMode", v, MediaAttribute(Last(lines), Attribute("streamMode", v)));
    KeyPrefix("a=streamMode:", "streamMode", v);
  }

  lemma ModeAttribute(m: Media, v: string)
    ensures MediaAttribute(m, Attribute("streamMode", v))
         == if v == "sub" || v == "Sub" then m.(streamNumber := 1)
            else if v == "main" || v == "Main" then m.(streamNumber := 0)
            else Keeping(m, "streamMode", v)
  {
    hide KeyOf, With, Emplace;
    StreamKeys();
    EmplaceIsWith(m.attributes, "streamMode", v);
  }

  /** Credentials, and candidates: a value of fewer than eight words is an empty candidate. */
  lemma IceLine(lines: seq<string>, v: string, c: Candidate)
    requires Open(lines) && OneLine(v) && CleanCandidate(c)
    ensures Makes(lines, "a=ice-ufrag:" + v, Last(lines).(iceUfrag := v))
    ensures Makes(lines, "a=ice-pwd:" + v, Last(lines).(icePwd := v))
    ensures Makes(lines, "a=candidate:" + Join(CandidateParts(c), ' '),
                  Last(lines).(candidates := Last(lines).candidates + [SurvivingCandidate(c)]))
    ensures ' ' !in v ==>
              Makes(lines, "a=candidate:" + v, Last(lines).(candidates := Last(lines).candidates
                + [Candidate("", NoComponent, UnknownTransport, UnknownCandidate, 0, 0, "", "")]))
  {
    hide After, KeyLine, Join, CandidateParts, SurvivingCandidate, KeyOf, ParseCandidate, MediaAttribute;
    var m := Last(lines);
    IceAttributes(m, v);
    KeyStep(lines, "ice-ufrag", v, m.(iceUfrag := v));
    KeyStep(lines, "ice-pwd", v, m.(icePwd := v));
    IceTexts(v);
    CandidateOneLine(c);
    CandidateAttribute(c, m);
    KeyStep(lines, "candidate", Join(CandidateParts(c), ' '), m.(candidates := m.candidates + [SurvivingCandidate(c)]));
    IceTexts(Join(CandidateParts(c), ' '));
    if ' ' !in v {
      ShortCandidate(v, m);
      KeyStep(lines, "candidate", v, m.(candidates := m.candidates + [NO_CANDIDATE]));
    }
  }

  /** Any candidate of eight words or more: the component is RTCP for `2` and RTP otherwise, the transport TCP
      for `TCP` and UDP otherwise; a port that is no number, or too large a one, ends the reading after
      the address, and a related port that is none is 0. */
  lemma WordsLine(lines: seq<string>, w: seq<string>, n: nat)
    requires Open(lines) && |w| >= 8 && (forall i :: 0 <= i < |w| ==> Word(w[i])) && (NoNumber(w[5]) || w[5] == Dec(n))
    ensures Makes(lines, "a=candidate:" + Join(w, ' '), Last(lines).(candidates := Last(lines).candidates
              + [if w[5] == Dec(n) && n < 18446744073709551616
                 then Candidate(w[0], if w[1] == "2" then Rtcp else Rtp, if w[2] == "TCP" then Tcp else Udp, KindOf(w[7]),
                                n % 65536, RelatedPort(w), w[4], if |w| > 9 then w[9] else "")
                 else Candidate(w[0], if w[1] == "2" then Rtcp else Rtp, if w[2] == "TCP" then Tcp else Udp,
                                UnknownCandidate, 0, 0, w[4], "")]))
  {
    hide After, KeyLine, Join, MediaAttribute, Dec, NoNumber, KindOf, RelatedPort;
    var m := Last(lines);
    WordsRead(w, n);
    JoinFree(w, ' ', '\n');
    CandidateAdded(m, Join(w, ' '));
    KeyStep(lines, "candidate", Join(w, ' '), m.(candidates := m.candidates + [ParseCandidate(Join(w, ' '))]));
    IceTexts(Join(w, ' '));
  }

  function KindOf(word: string): CandidateType {
    if word == "host" then Host else if word == "srflx" then Srflx else if word == "prflx" then Prflx
    else if word == "relay" then Relay else UnknownCandidate
  }

  /** The number of the twelfth word, cut to sixteen bits. */
  function RelatedPort(w: seq<string>): u16 {
    if |w| > 11 then match ToUnsigned(w[11]) case Some(k) => k % 65536 case None => 0 else 0
  }

  lemma CandidateAdded(m: Media, v: string)
    ensures MediaAttribute(m, Attribute("candidate", v)) == m.(candidates := m.candidates + [ParseCandidate(v)])
  {
    hide KeyOf, ParseCandidate;
    RtpmapKey();
  }

  lemma WordsRead(w: seq<string>, n: nat)
    requires |w| >= 8 && (forall i :: 0 <= i < |w| ==> Word(w[i])) && (NoNumber(w[5]) || w[5] == Dec(n))
    ensures ParseCandidate(Join(w, ' '))
         == if w[5] == Dec(n) && n < 18446744073709551616
            then Candidate(w[0], if w[1] == "2" then Rtcp else Rtp, if w[2] == "TCP" then Tcp else Udp, KindOf(w[7]),
                           n % 65536, RelatedPort(w), w[4], if |w| > 9 then w[9] else "")
            else Candidate(w[0], if w[1] == "2" then Rtcp else Rtp, if w[2] == "TCP" then Tcp else Udp,
                           UnknownCandidate, 0, 0, w[4], "")
  {
    hide Split, Join, Dec, Stoul16, ToUnsigned, NoNumber;
    SplitJoin(w, ' ');
    PortRead(w[5], n);
  }

  lemma PortRead(v: string, n: nat)
    ensures v == Dec(n) ==> Stoul16(v) == if n < 18446744073709551616 then Some(n % 65536) else None
    ensures NoNumber(v) ==> Stoul16(v) == None
  {
    hide Dec;
    ScanDec(n, "");
    assert Dec(n) + "" == Dec(n);
    if NoNumber(v) { assert SkipSpaces(v) == v; }
  }

  /** Payloads: a value without a space, or without a slash, is none. */
  lemma RtpmapLine(lines: seq<string>, v: string, p: Payload)
    requires Open(lines) && OneLine(v) && OneLine(p.name)
    ensures Makes(lines, "a=rtpmap:" + Dec(p.number) + " " + p.name + "/" + Dec(p.sampleRate),
                  Last(lines).(payloads := Last(lines).payloads + [p]))
    ensures ' ' !in v || '/' !in v ==> Makes(lines, "a=rtpmap:" + v, Last(lines))
  {
    hide After, KeyLine, Dec, KeyOf, ParseRtpmap, MediaAttribute;
    var m := Last(lines);
    DecWord(p.number);
    DecWord(p.sampleRate);
    RtpmapAttribute(m, p);
    KeyStep(lines, "rtpmap", RtpmapValue(p), m.(payloads := m.payloads + [p]));
    IceTexts(RtpmapValue(p));
    assert "a=rtpmap:" + RtpmapValue(p) == "a=rtpmap:" + Dec(p.number) + " " + p.name + "/" + Dec(p.sampleRate);
    if ' ' !in v || '/' !in v {
      NoRtpmap(v, m);
      KeyStep(lines, "rtpmap", v, m);
      IceTexts(v);
    }
  }

  /** A number or a clock rate that is none is 0. */
  lemma UnnumberedRtpmap(lines: seq<string>, number: string, name: string, rate: string)
    requires Open(lines) && OneLine(number) && OneLine(name) && OneLine(rate) && ' ' !in number && '/' !in rate
    requires NoNumber(number) && number != "" && NoNumber(rate)
    ensures Makes(lines, "a=rtpmap:" + number + " " + name + "/" + rate,
                  Last(lines).(payloads := Last(lines).payloads + [Payload(0, 0, name)]))
  {
    hide After, KeyLine, KeyOf, ParseRtpmap, MediaAttribute, NoNumber;
    var m := Last(lines);
    var v := number + [' '] + name + ['/'] + rate;
    UnnumberedPayload(number, name, rate);
    RtpmapAdded(m, v, Payload(0, 0, name));
    KeyStep(lines, "rtpmap", v, m.(payloads := m.payloads + [Payload(0, 0, name)]));
    IceTexts(v);
    assert "a=rtpmap:" + v == "a=rtpmap:" + number + " " + name + "/" + rate;
  }

  lemma RtpmapAdded(m: Media, v: string, p: Payload)
    requires ParseRtpmap(v) == Some(p)
    ensures MediaAttribute(m, Attribute("rtpmap", v)) == m.(payloads := m.payloads + [p])
  {
    hide KeyOf, ParseRtpmap;
    RtpmapKey();
  }

  lemma UnnumberedPayload(number: string, name: string, rate: string)
    requires ' ' !in number && '/' !in rate && NoNumber(number) && number != "" && NoNumber(rate)
    ensures ParseRtpmap(number + [' '] + name + ['/'] + rate) == Some(Payload(0, 0, name))
  {
    hide ToUnsigned, Find, FindLast, NoNumber;
    var next := name + ['/'] + rate;
    TwoBlanks(number, name, rate);
    SpaceBack(number, next);
    SlashBack(name, rate);
    NothingScanned(rate);
    StillNoNumber(number, [' '] + next);
    TwoTexts(number, next);
    NothingScanned(number + [' '] + next);
  }

  lemma TwoBlanks(number: string, name: string, rate: string)
    ensures number + [' '] + name + ['/'] + rate == number + [' '] + (name + ['/'] + rate)
  {}

  lemma TwoTexts(number: string, next: string)
    ensures number + ([' '] + next) == number + [' '] + next
  {}

  lemma StillNoNumber(v: string, rest: string)
    requires v != "" && NoNumber(v)
    ensures NoNumber(v + rest)
  {}

  lemma IceTexts(v: string)
    ensures KeyLine("ice-ufrag", v) == "a=ice-ufrag:" + v && KeyLine("ice-pwd", v) == "a=ice-pwd:" + v
    ensures KeyLine("candidate", v) == "a=candidate:" + v && KeyLine("rtpmap", v) == "a=rtpmap:" + v
  {
    hide KeyLine;
    KeyPrefix("a=ice-ufrag:", "ice-ufrag", v);
    KeyPrefix("a=ice-pwd:", "ice-pwd", v);
    KeyPrefix("a=candidate:", "candidate", v);
    KeyPrefix("a=rtpmap:", "rtpmap", v);
  }

  lemma ShortCandidate(v: string, m: Media)
    requires ' ' !in v
    ensures MediaAttribute(m, Attribute("candidate", v)) == m.(candidates := m.candidates + [NO_CANDIDATE])
  {
    hide KeyOf, Split;
    RtpmapKey();
    OneWord(v);
  }

  lemma NoRtpmap(v: string, m: Media)
    requires ' ' !in v || '/' !in v
    ensures MediaAttribute(m, Attribute("rtpmap", v)) == m
  {
    hide KeyOf;
    RtpmapKey();
    if ' ' !in v { FindAt(v, ' ', |v|); }
  }

  /** The keys `parseAttribute` treats in a section. */
  predicate MediaKeyName(k: string) {
    || k == "ice-ufrag" || k == "ice-pwd" || k == "candidate" || k == "sendrecv" || k == "sendonly" || k == "recvonly"
    || k == "inactive" || k == "setup" || k == "connection" || k == "rtpmap" || k == "streamnumber"
    || k == "streamprofile" || k == "stream" || k == "streamMode" || k == "filesize" || k == "downloadspeed"
  }

  /** The keys it treats in the session. */
  predicate SessionKeyName(k: string) {
    k == "ice-ufrag" || k == "ice-pwd" || k == "ice-options" || k == "ice-lite"
  }

  /** An attribute of another key is kept, under everything before the first colon; a key that has
      been kept keeps its first value. */
  lemma FreeLine(lines: seq<string>, key: string, v: string)
    requires Open(lines) && OneLine(key) && OneLine(v) && ':' !in key && !MediaKeyName(key)
    ensures Makes(lines, "a=" + key + ":" + v, Keeping(Last(lines), key, v))
    ensures Makes(lines, "a=" + key, Keeping(Last(lines), key, ""))
  {
    hide After, With, Emplace, KeyValue;
    var m := Last(lines);
    OtherMediaKey(key, v, m);
    OtherMediaKey(key, "", m);
    EmplaceIsWith(m.attributes, key, v);
    EmplaceIsWith(m.attributes, key, "");
    KeyStep(lines, key, v, Keeping(m, key, v));
    KeyPrefix("a=" + key + ":", key, v);
    KeyAlone(key);
    OwnStep(lines, Line('a', key), Keeping(m, key, ""));
    assert Line('a', key) == "a=" + key;
  }

  lemma OtherMediaKey(key: string, v: string, m: Media)
    requires !MediaKeyName(key)
    ensures MediaAttribute(m, Attribute(key, v)) == m.(attributes := Emplace(m.attributes, Attribute(key, v)))
  {
    hide Emplace;
  }

  // ----- lines that open a section -----

  /** `m=` opens a section: the type is video or audio, the transport TCP only when it is named, and
      everything else is as in a new media description. */
  lemma MediaLine(lines: seq<string>, kind: string, port: u16, proto: string, rest: string)
    requires Accepted(lines) && Shown(kind) && Shown(proto) && OneLine(rest) && (rest != "" ==> rest[0] == ' ')
    ensures var q := After(lines + ["m=" + kind + " " + Dec(port) + " " + proto + rest]);
            && q.ok && q.session == After(lines).session
            && q.media == After(lines).media
                 + [Media(if kind == "video" then Video else Audio, port, if proto == "TCP/RTP/AVP" then Tcp else Udp,
                          Unset, false, SendRecv, [], Connection("IN", Ip4, "", 0, 1), "", "", [], 0, 0, 0, [], 0, "")]
  {
    hide After, MediaStep, SessionStep, ExtractPort, SkipSpaces, WordLength, Dec;
    var end := [' '] + (proto + rest);
    var after := [' '] + Dec(port) + end;
    var line := "m=" + kind + " " + Dec(port) + " " + proto + rest;
    assert line == ['m', '='] + (kind + after);
    assert line[2..] == kind + after;
    DecWord(port);
    FirstWord(kind, after);
    FirstWord(proto, rest);
    PortBack(port, end);
    OneMore(lines, line);
  }

  /** A port that is no number is 0 and one that is too large 65535; reading stops there, so that whatever
      follows the transport is UDP. */
  lemma OddPortLine(lines: seq<string>, kind: string, port: string, n: nat, rest: string)
    requires Accepted(lines) && Shown(kind) && OneLine(port) && OneLine(rest) && (rest != "" ==> rest[0] == ' ')
    requires (NoNumber(port) && port != "") || (port == Dec(n) && n >= 65536)
    ensures var q := After(lines + ["m=" + kind + " " + port + rest]);
            && q.ok && q.session == After(lines).session
            && q.media == After(lines).media
                 + [Media(if kind == "video" then Video else Audio, if port == Dec(n) then 65535 else 0, Udp,
                          Unset, false, SendRecv, [], Connection("IN", Ip4, "", 0, 1), "", "", [], 0, 0, 0, [], 0, "")]
  {
    hide After, MediaStep, SessionStep, ExtractPort, SkipSpaces, WordLength, Dec, NoNumber;
    var after := [' '] + port + rest;
    var line := "m=" + kind + " " + port + rest;
    assert line == ['m', '='] + (kind + after);
    assert line[2..] == kind + after;
    FirstWord(kind, after);
    OddPort(port, n, rest);
    NothingLeft();
    OneMore(lines, line);
  }

  lemma NothingLeft()
    ensures SkipSpaces("") == "" && WordLength("") == 0
  {}

  lemma OddPort(port: string, n: nat, rest: string)
    requires (NoNumber(port) && port != "") || (port == Dec(n) && n >= 65536)
    requires rest != "" ==> rest[0] == ' '
    ensures ExtractPort([' '] + port + rest) == (if port == Dec(n) then 65535 else 0, "")
  {
    hide Dec;
    var s := port + rest;
    assert [' '] + port + rest == [' '] + s;
    assert s[0] == port[0];
    SkipOne(s);
    if port == Dec(n) {
      assert IsDigit(s[0]);
      ValueOfDec(n);
      DigitRunAt(s, |port|);
      assert s[..|port|] == port;
    } else {
      DigitRunAt(s, 0);
    }
  }

  /** A word without blanks of any kind. */
  predicate Shown(w: string) { w != "" && forall i :: 0 <= i < |w| ==> !IsSpace(w[i]) }

  // ----- lines of the session, wherever they stand -----

  /** `v=`, `s=` and `t=` belong to the session, inside a section too. */
  lemma SessionField(lines: seq<string>, n: i32, start: u64, end: u64, v: string)
    requires Accepted(lines) && OneLine(v)
    ensures MakesSession(lines, "v=" + DecInt(n), After(lines).session.(version := n))
    ensures NoNumber(v) ==> MakesSession(lines, "v=" + v, After(lines).session)
    ensures MakesSession(lines, "s=Play", After(lines).session.(kind := Play))
    ensures MakesSession(lines, "s=Playback", After(lines).session.(kind := Playback))
    ensures MakesSession(lines, "s=Download", After(lines).session.(kind := Download))
    ensures MakesSession(lines, "s=Talk", After(lines).session.(kind := Talk))
    ensures v != "Play" && v != "Playback" && v != "Download" && v != "Talk" ==>
              MakesSession(lines, "s=" + v, After(lines).session.(kind := UnknownSession))
    ensures MakesSession(lines, "t=" + Dec(start) + " " + Dec(end), After(lines).session.(start := start, end := end))
    ensures ' ' !in v ==> MakesSession(lines, "t=" + v, After(lines).session)
  {
    hide After, Dec, DecInt, SessionStep, Accepted;
    VersionLine(lines, n, v);
    NameLine(lines, "Play");
    NameLine(lines, "Playback");
    NameLine(lines, "Download");
    NameLine(lines, "Talk");
    NameLine(lines, v);
    assert "s=Play" == "s=" + "Play" && "s=Playback" == "s=" + "Playback";
    assert "s=Download" == "s=" + "Download" && "s=Talk" == "s=" + "Talk";
    TimesLine(lines, start, end, v);
  }

  lemma VersionLine(lines: seq<string>, n: i32, v: string)
    requires Accepted(lines) && OneLine(v)
    ensures MakesSession(lines, "v=" + DecInt(n), After(lines).session.(version := n))
    ensures NoNumber(v) ==> MakesSession(lines, "v=" + v, After(lines).session)
  {
    hide After, DecInt, ToInt, NoNumber;
    VersionBack(n);
    DecIntWord(n);
    assert "v=" + DecInt(n) == Line('v', DecInt(n)) && "v=" + v == Line('v', v);
    SessionLine(lines, "v=" + DecInt(n));
    if NoNumber(v) {
      NothingScanned(v);
      SessionLine(lines, "v=" + v);
    }
  }

  lemma NameLine(lines: seq<string>, v: string)
    requires Accepted(lines) && OneLine(v)
    ensures MakesSession(lines, "s=" + v, After(lines).session.(
              kind := if v == "Play" then Play else if v == "Playback" then Playback
                      else if v == "Download" then Download else if v == "Talk" then Talk else UnknownSession))
  {
    hide After;
    assert "s=" + v == Line('s', v);
    SessionLine(lines, "s=" + v);
  }

  lemma TimesLine(lines: seq<string>, start: u64, end: u64, v: string)
    requires Accepted(lines) && OneLine(v)
    ensures MakesSession(lines, "t=" + Dec(start) + " " + Dec(end), After(lines).session.(start := start, end := end))
    ensures ' ' !in v ==> MakesSession(lines, "t=" + v, After(lines).session)
  {
    hide After, Dec, Join, ToUnsigned64, Split;
    var value := Join([Dec(start), Dec(end)], ' ');
    DecWord(start);
    DecWord(end);
    SplitJoin([Dec(start), Dec(end)], ' ');
    TwoParts(Dec(start), Dec(end));
    Unsigned64Back(start);
    Unsigned64Back(end);
    assert "t=" + Dec(start) + " " + Dec(end) == Line('t', value) && "t=" + v == Line('t', v);
    SessionLine(lines, Line('t', value));
    if ' ' !in v {
      OneWord(v);
      SessionLine(lines, Line('t', v));
    }
  }

  lemma OneWord(v: string)
    requires ' ' !in v
    ensures |Split(v, ' ')| <= 1
  {
    FindAt(v, ' ', |v|);
  }

  lemma TwoParts(a: string, b: string)
    ensures Join([a, b], ' ') == a + " " + b
  {
    assert [a, b][1..] == [b];
    assert Join([b], ' ') == b;
    assert Join([a, b], ' ') == a + [' '] + b;
  }

  /** `o=`: six words, whatever follows them; with fewer, the origin of a new description. */
  lemma OriginLine(lines: seq<string>, user: string, id: string, version: string, net: string, address: string, v: string)
    requires Accepted(lines) && OneLine(v)
    requires Word(user) && Word(id) && Word(version) && Word(net) && Word(address)
    ensures MakesSession(lines, "o=" + user + " " + id + " " + version + " " + net + " IP4 " + address,
                         After(lines).session.(origin := Origin(user, id, version, net, Ip4, address)))
    ensures MakesSession(lines, "o=" + user + " " + id + " " + version + " " + net + " IP6 " + address,
                         After(lines).session.(origin := Origin(user, id, version, net, Ip6, address)))
    ensures ' ' !in v ==> MakesSession(lines, "o=" + v, After(lines).session.(origin := Origin("", "0", "0", "IN", Ip4, "")))
  {
    hide After, ParseOrigin, Accepted, SessionStep;
    OneOrigin(lines, Origin(user, id, version, net, Ip4, address));
    OneOrigin(lines, Origin(user, id, version, net, Ip6, address));
    assert "o=" + user + " " + id + " " + version + " " + net + " IP4 " + address
        == "o=" + user + " " + id + " " + version + " " + net + " " + "IP4" + " " + address;
    assert "o=" + user + " " + id + " " + version + " " + net + " IP6 " + address
        == "o=" + user + " " + id + " " + version + " " + net + " " + "IP6" + " " + address;
    if ' ' !in v { ShortOrigin(lines, v); }
  }

  lemma OneOrigin(lines: seq<string>, o: Origin)
    requires Accepted(lines) && CleanOrigin(o)
    ensures MakesSession(lines, "o=" + o.username + " " + o.sessionId + " " + o.sessionVersion + " " + o.netType + " "
                                + AddressTypeName(o.addrType) + " " + o.address, After(lines).session.(origin := o))
  {
    hide After, ParseOrigin, Join;
    var value := Join(OriginParts(o), ' ');
    OriginBack(o);
    JoinFree(OriginParts(o), ' ', '\n');
    SixParts(o.username, o.sessionId, o.sessionVersion, o.netType, AddressTypeName(o.addrType), o.address);
    SessionLine(lines, Line('o', value));
    assert Line('o', value) == "o=" + value;
  }

  lemma SixParts(a: string, b: string, c: string, d: string, e: string, f: string)
    ensures "o=" + Join([a, b, c, d, e, f], ' ') == "o=" + a + " " + b + " " + c + " " + d + " " + e + " " + f
  {
    assert [a, b, c, d, e, f][1..] == [b, c, d, e, f];
    assert [b, c, d, e, f][1..] == [c, d, e, f];
    assert [c, d, e, f][1..] == [d, e, f];
    ThreeParts(d, e, f);
    assert Join([c, d, e, f], ' ') == c + [' '] + Join([d, e, f], ' ');
    assert Join([b, c, d, e, f], ' ') == b + [' '] + Join([c, d, e, f], ' ');
    assert Join([a, b, c, d, e, f], ' ') == a + [' '] + Join([b, c, d, e, f], ' ');
  }

  lemma ShortOrigin(lines: seq<string>, v: string)
    requires Accepted(lines) && OneLine(v) && ' ' !in v
    ensures MakesSession(lines, "o=" + v, After(lines).session.(origin := Origin("", "0", "0", "IN", Ip4, "")))
  {
    hide After;
    FindAt(v, ' ', |v|);
    assert "o=" + v == Line('o', v);
    SessionLine(lines, "o=" + v);
  }

  /** `u=`: an HTTP one is kept whole; otherwise a digit after the first colon is the file type. */
  lemma UriLine(lines: seq<string>, content: string, v: string)
    requires Accepted(lines) && OneLine(content) && OneLine(v) && ':' !in content
    ensures MakesSession(lines, "u=http://" + v, After(lines).session.(uri := Uri(Http, All, "http://" + v)))
    ensures MakesSession(lines, "u=" + content + ":1", After(lines).session.(uri := Uri(Simple, Manual, content)))
    ensures MakesSession(lines, "u=" + content + ":2", After(lines).session.(uri := Uri(Simple, Alarm, content)))
    ensures MakesSession(lines, "u=" + content + ":3", After(lines).session.(uri := Uri(Simple, Time, content)))
    ensures v != "1" && v != "2" && v != "3" && (v == "" || v[0] != '/') ==>
              MakesSession(lines, "u=" + content + ":" + v, After(lines).session.(uri := Uri(Simple, All, content)))
    ensures MakesSession(lines, "u=" + content, After(lines).session.(uri := Uri(Simple, All, content)))
  {
    hide After, Accepted, SessionStep;
    HttpLine(lines, v);
    SimpleLine(lines, content, "1");
    SimpleLine(lines, content, "2");
    SimpleLine(lines, content, "3");
    assert "u=" + content + ":1" == "u=" + content + ":" + "1";
    assert "u=" + content + ":2" == "u=" + content + ":" + "2";
    assert "u=" + content + ":3" == "u=" + content + ":" + "3";
    if v == "" || v[0] != '/' { SimpleLine(lines, content, v); }
    PlainLine(lines, content);
  }

  lemma HttpLine(lines: seq<string>, v: string)
    requires Accepted(lines) && OneLine(v)
    ensures MakesSession(lines, "u=http://" + v, After(lines).session.(uri := Uri(Http, All, "http://" + v)))
  {
    hide After;
    var u := "http://" + v;
    assert u[..7] == "http://";
    assert "u=http://" + v == Line('u', u);
    SessionLine(lines, Line('u', u));
  }

  lemma SimpleLine(lines: seq<string>, content: string, v: string)
    requires Accepted(lines) && OneLine(content) && OneLine(v) && ':' !in content && (v == "" || v[0] != '/')
    ensures MakesSession(lines, "u=" + content + ":" + v, After(lines).session.(uri := Uri(Simple,
              if v == "1" then Manual else if v == "2" then Alarm else if v == "3" then Time else All, content)))
  {
    hide After, ParseUri;
    var u := content + [':'] + v;
    SimpleUri(content, v);
    assert "u=" + content + ":" + v == Line('u', u);
    SessionLine(lines, Line('u', u));
  }

  lemma SimpleUri(content: string, v: string)
    requires ':' !in content && (v == "" || v[0] != '/')
    ensures ParseUri(content + [':'] + v)
         == Uri(Simple, if v == "1" then Manual else if v == "2" then Alarm else if v == "3" then Time else All, content)
  {
    var u := content + [':'] + v;
    FindAt(u, ':', |content|);
    assert u[..|content|] == content && u[|content| + 1..] == v;
    NoScheme(u, |content|);
  }

  lemma NoScheme(u: string, colon: nat)
    requires colon <= |u| && (colon < |u| ==> u[colon] == ':') && (colon + 1 < |u| ==> u[colon + 1] != '/')
    requires forall k :: 0 <= k < colon ==> u[k] != ':'
    ensures !StartsWith(u, "http://")
  {
    if |u| >= 7 {
      var w := u[..7];
      assert w[0] == u[0] && w[1] == u[1] && w[2] == u[2] && w[3] == u[3] && w[4] == u[4] && w[5] == u[5];
    }
  }

  lemma PlainLine(lines: seq<string>, content: string)
    requires Accepted(lines) && OneLine(content) && ':' !in content
    ensures MakesSession(lines, "u=" + content, After(lines).session.(uri := Uri(Simple, All, content)))
  {
    hide After;
    FindAt(content, ':', |content|);
    NoScheme(content, |content|);
    assert content[..|content|] == content;
    assert "u=" + content == Line('u', content);
    SessionLine(lines, Line('u', content));
  }

  /** The attributes of the session: before the first section only. */
  lemma SessionAttributeLine(lines: seq<string>, key: string, v: string, options: seq<string>)
    requires Closed(lines) && OneLine(key) && OneLine(v) && ':' !in key && CleanOptions(options)
    ensures MakesSession(lines, "a=ice-ufrag:" + v, After(lines).session.(iceUfrag := v))
    ensures MakesSession(lines, "a=ice-pwd:" + v, After(lines).session.(icePwd := v))
    ensures MakesSession(lines, "a=ice-lite", After(lines).session.(iceLite := true))
    ensures MakesSession(lines, "a=ice-options:" + Join(options, ' '), After(lines).session.(iceOptions := options))
    ensures !SessionKeyName(key) ==>
              MakesSession(lines, "a=" + key + ":" + v,
                           After(lines).session.(attributes := With(After(lines).session.attributes, key, v)))
  {
    hide After, SessionAttribute, KeyLine, SessionStep, KeyValue, With, Line, Join;
    var s := After(lines).session;
    SessionCredentials(s, v);
    SessionKeyStep(lines, "ice-ufrag", v, s.(iceUfrag := v));
    SessionKeyStep(lines, "ice-pwd", v, s.(icePwd := v));
    IceTexts(v);
    LiteAdded(lines);
    OptionsAdded(lines, options);
    if !SessionKeyName(key) {
      OtherSessionKey(key, v, s);
      SessionKeyStep(lines, key, v, s.(attributes := With(s.attributes, key, v)));
      KeyPrefix("a=" + key + ":", key, v);
    }
  }

  lemma SessionKeyStep(lines: seq<string>, key: string, v: string, s: Session)
    requires Closed(lines) && ':' !in key && OneLine(key) && OneLine(v)
    requires SessionAttribute(After(lines).session, Attribute(key, v)) == s
    ensures MakesSession(lines, KeyLine(key, v), s)
  {
    hide SessionStep, After, SessionAttribute, KeyLine;
    KeyText(key, v);
    SessionKey(After(lines).session, key, v);
    SessionLine(lines, KeyLine(key, v));
  }

  lemma SessionCredentials(s: Session, v: string)
    ensures SessionAttribute(s, Attribute("ice-ufrag", v)) == s.(iceUfrag := v)
    ensures SessionAttribute(s, Attribute("ice-pwd", v)) == s.(icePwd := v)
  {
    hide KeyOf;
    IceKeys();
  }

  lemma LiteAdded(lines: seq<string>)
    requires Closed(lines)
    ensures MakesSession(lines, "a=ice-lite", After(lines).session.(iceLite := true))
  {
    hide After, SessionStep;
    LiteLine(After(lines).session);
    assert Line('a', "ice-lite") == "a=ice-lite";
    SessionLine(lines, "a=ice-lite");
  }

  lemma OptionsAdded(lines: seq<string>, options: seq<string>)
    requires Closed(lines) && CleanOptions(options)
    ensures MakesSession(lines, "a=ice-options:" + Join(options, ' '), After(lines).session.(iceOptions := options))
  {
    hide After, KeyLine, Join, SessionAttribute, OneLine, MakesSession, CleanOptions, Closed;
    var v := Join(options, ' ');
    OptionsOneLine(options);
    OptionsRead(After(lines).session, options);
    SessionKeyStep(lines, "ice-options", v, After(lines).session.(iceOptions := options));
    KeyPrefix("a=ice-options:", "ice-options", v);
  }

  lemma OptionsOneLine(options: seq<string>)
    requires CleanOptions(options)
    ensures OneLine(Join(options, ' ')) && OneLine("ice-options") && ':' !in "ice-options"
  {
    hide Join;
    JoinFree(options, ' ', '\n');
  }

  lemma OptionsRead(s: Session, options: seq<string>)
    requires CleanOptions(options)
    ensures SessionAttribute(s, Attribute("ice-options", Join(options, ' '))) == s.(iceOptions := options)
  {
    hide KeyOf, Join, Split;
    var v := Join(options, ' ');
    JoinFree(options, ' ', '\0');
    FindAt(v, '\0', |v|);
    SplitJoin(options, ' ');
    assert v[..|v|] == v;
    OptionKey();
  }

  lemma OtherSessionKey(key: string, v: string, s: Session)
    requires !SessionKeyName(key)
    ensures SessionAttribute(s, Attribute(key, v)) == s.(attributes := With(s.attributes, key, v))
  {
    hide Emplace, With;
    EmplaceIsWith(s.attributes, key, v);
  }

  // ----- a `c=` line in a printed description -----

  lemma ConnectionAdded(p: Parser, c: Connection)
    requires p.ok && p.inMedia && p.media != [] && CleanConnection(c)
    requires p.media[|p.media| - 1].connection == NO_CONNECTION
    ensures Run(p, ConnectionLines(c))
         == p.(media := p.media[|p.media| - 1 := p.media[|p.media| - 1].(connection := SurvivingConnection(c))])
  {
    hide ParseConnection, SurvivingConnection, Join, Step;
    var last := |p.media| - 1;
    var m := p.media[last].(connection := SurvivingConnection(c));
    var lines := ConnectionLines(c);
    if c.address == "" {
      NoConnectionLeft(c);
      assert p.media[last := p.media[last]] == p.media;
    } else {
      ConnectionText(c);
      ConnectionBack(c);
      SectionOne(p.media[last], lines[0]);
      OwnOutside(lines);
      assert SessionRun(p.session, []) == Ok(p.session);
      assert lines == [lines[0]];
      RunSection(p, lines);
    }
  }

  /** A `c=` line after the printed lines of any section of any description: that section gets the
      address and nothing else of the description changes. */
  lemma {:induction false} SectionConnection(s: Session, before: seq<Media>, m: Media, c: Connection, after: seq<Media>)
    requires CleanSession(s) && CleanAll(before) && CleanMedia(m) && CleanConnection(c) && CleanAll(after)
    ensures AllPrintable(before) && Printable(m) && AllPrintable(after)
    ensures Parsed(Terminated(SessionLines(s) + AllMediaLines(before) + (MediaLines(m) + ConnectionLines(c)) + AllMediaLines(after), "\r\n"))
         == Parser(SurvivingSession(s),
                   SurvivingAll(before) + [SurvivingMedia(m).(connection := SurvivingConnection(c))] + SurvivingAll(after), true, true)
  {
    hide SessionLines, SurvivingSession, CleanSession, CleanMedia, SurvivingAll, AllMediaLines, Step, Printable, SessionRun,
         MediaLines, ConnectionLines, CleanConnection, SurvivingConnection;
    var p := Parser(NO_SESSION, [], false, true);
    var p1 := p.(session := SurvivingSession(s));
    GeneratedRun(s);
    AllSectionsBack(p1, before);
    var p2 := Run(p1, AllMediaLines(before));
    assert p2.media == SurvivingAll(before);
    SectionBack(p2, m);
    var p3 := Run(p2, MediaLines(m));
    assert SurvivingMedia(m).connection == NO_CONNECTION;
    ConnectionAdded(p3, c);
    var p4 := Run(p3, ConnectionLines(c));
    assert p4.media == SurvivingAll(before) + [SurvivingMedia(m).(connection := SurvivingConnection(c))];
    AllSectionsBack(p4, after);
    var a, b, d, e, f := SessionLines(s), AllMediaLines(before), MediaLines(m), ConnectionLines(c), AllMediaLines(after);
    RunAppend(p, a + b + (d + e), f);
    RunAppend(p, a + b, d + e);
    RunAppend(p, a, b);
    RunAppend(p2, d, e);
    DescriptionText(s, before, m, c, after);
    LinesOfCrLf(a + b + (d + e) + f);
  }

  lemma GeneratedRun(s: Session)
    requires CleanSession(s)
    ensures Run(Parser(NO_SESSION, [], false, true), SessionLines(s)) == Parser(SurvivingSession(s), [], false, true)
  {
    hide SessionLines, SurvivingSession, CleanSession, Step, SessionRun;
    SessionLinesText(s);
    SessionBack(s);
    RunHead(Parser(NO_SESSION, [], false, true), SessionLines(s));
  }

  lemma DescriptionText(s: Session, before: seq<Media>, m: Media, c: Connection, after: seq<Media>)
    requires CleanSession(s) && CleanAll(before) && CleanMedia(m) && CleanConnection(c) && CleanAll(after)
    requires AllPrintable(before) && Printable(m) && AllPrintable(after)
    ensures NoLf(SessionLines(s) + AllMediaLines(before) + (MediaLines(m) + ConnectionLines(c)) + AllMediaLines(after))
  {
    hide SessionLines, CleanSession, CleanMedia, AllMediaLines, Printable, MediaHeadValue, MediaBody, Line, ConnectionLines,
         CleanConnection;
    SessionLinesText(s);
    AllMediaText(before);
    AllMediaText(after);
    MediaHeadText(m);
    BodyText(m);
    ConnectionNoLf(c);
  }

  lemma ConnectionNoLf(c: Connection)
    requires CleanConnection(c)
    ensures NoLf(ConnectionLines(c))
  {
    hide Join;
    if c.address != "" { ConnectionText(c); }
  }

  // ----- what is printed and not read -----

  function Words(payloads: seq<Payload>): seq<string> {
    seq(|payloads|, i requires 0 <= i < |payloads| => Dec(payloads[i].number))
  }

  /** The `m=` line lists the payload numbers in order after type, port and transport. */
  lemma PayloadList(m: Media)
    ensures Split(MediaHeadValue(m), ' ')
         == [if m.kind == Video then "video" else "audio", Dec(m.port), if m.proto == Tcp then "TCP/RTP/AVP" else "RTP/AVP"]
            + Words(m.payloads)
  {
    hide Dec, Split, Join;
    var head := [if m.kind == Video then "video" else "audio", Dec(m.port), if m.proto == Tcp then "TCP/RTP/AVP" else "RTP/AVP"];
    var parts := head + Words(m.payloads);
    DecWord(m.port);
    forall i | 0 <= i < |parts| ensures Token(parts[i], ' ') {
      if i >= 3 { DecWord(m.payloads[i - 3].number); }
    }
    SplitJoin(parts, ' ');
    HeadJoined(head[0], head[1], head[2], m.payloads);
  }

  lemma {:induction false} WordsStep(payloads: seq<Payload>)
    ensures Words(payloads) == if payloads == [] then [] else [Dec(payloads[0].number)] + Words(payloads[1..])
  {
    hide Dec;
  }

  lemma JoinCons(first: string, second: string, rest: seq<string>)
    ensures Join([first] + ([second] + rest), ' ') == first + [' '] + Join([second] + rest, ' ')
    ensures Join([first], ' ') == first
  {
    var parts := [first] + ([second] + rest);
    assert parts[1..] == [second] + rest;
  }

  lemma {:induction false} NumbersJoined(first: string, payloads: seq<Payload>)
    ensures Join([first] + Words(payloads), ' ') == first + PayloadNumbers(payloads)
    decreases |payloads|
  {
    hide Dec, Words, Join;
    WordsStep(payloads);
    if payloads == [] {
      JoinCons(first, "", []);
      assert [first] + [] == [first];
    } else {
      var number, rest := Dec(payloads[0].number), payloads[1..];
      NumbersJoined(number, rest);
      JoinCons(first, number, Words(rest));
    }
  }

  lemma {:induction false} HeadJoined(a: string, b: string, c: string, payloads: seq<Payload>)
    ensures Join([a, b, c] + Words(payloads), ' ') == a + [' '] + b + [' '] + c + PayloadNumbers(payloads)
  {
    hide Dec, Words;
    NumbersJoined(c, payloads);
    var t := [c] + Words(payloads);
    assert ([b] + t)[1..] == t && ([a] + ([b] + t))[1..] == [b] + t;
    assert Join([b] + t, ' ') == b + [' '] + Join(t, ' ');
    assert Join([a] + ([b] + t), ' ') == a + [' '] + Join([b] + t, ' ');
    assert [a, b, c] + Words(payloads) == [a] + ([b] + t);
  }

  /** The names that are read back by what they are not: an unnamed session, the role that is neither
      active nor passive, a connection that is not new, and the file type 0. */
  lemma NamesPrinted(s: Session, m: Media)
    ensures SessionHead(s)[2] == "s=" + match s.kind case UnknownSession => "" case Play => "Play" case Playback => "Playback"
                                                  case Download => "Download" case Talk => "Talk"
    ensures m.proto == Tcp && m.setup == ActPass ==> TcpLines(m)[0] == "a=setup:actpass"
    ensures m.proto == Tcp && m.setup != Unset && !m.newConnection ==> TcpLines(m)[1] == "a=connection:existing"
    ensures s.uri.kind == Simple && s.uri.fileType == All && s.uri.content != "" ==> UriLines(s.uri) == ["u=" + s.uri.content + ":0"]
  {
    hide KeyLine, Dec;
    KeyPrefix("a=setup:", "setup", "actpass");
    KeyPrefix("a=connection:", "connection", "existing");
    assert "a=setup:actpass" == "a=setup:" + "actpass" && "a=connection:existing" == "a=connection:" + "existing";
    DecimalNotation(0, 0);
    assert Dec(0) == "0";
    if s.uri.kind == Simple && s.uri.fileType == All && s.uri.content != "" {
      assert Line('u', s.uri.content + [':'] + "0") == "u=" + s.uri.content + ":0";
    }
  }

  function Power10(k: nat): (n: nat)
    ensures n > 0
  {
    if k == 0 then 1 else 10 * Power10(k - 1)
  }

  lemma {:induction false} DecLength(n: nat, k: nat)
    requires k > 0 && n < Power10(k)
    ensures |Dec(n)| <= k
  {
    if n >= 10 {
      assert k > 1 by { assert Power10(1) == 10 * Power10(0); }
      DecLength(n / 10, k - 1);
    }
  }

  lemma TenDigits(n: u32)
    ensures |Padded(n, 10)| == 10 && forall i :: 0 <= i < 10 ==> IsDigit(Padded(n, 10)[i])
    ensures Value(Padded(n, 10)) == n
  {
    hide Dec, Value;
    assert Power10(10) == 100_000 * Power10(5) && Power10(5) == 100_000;
    DecLength(n, 10);
    ValueOfDec(n);
    ValueOfZeros(10 - |Dec(n)|, Dec(n));
    assert Zeros(0) + Dec(n) == Dec(n);
  }

  /** The SSRC is printed in exactly ten digits, and all four lines of a stream number are printed. */
  lemma DigitsPrinted(n: u32, stream: u16)
    ensures |Padded(n, 10)| == 10 && forall i :: 0 <= i < 10 ==> IsDigit(Padded(n, 10)[i])
    ensures Value(Padded(n, 10)) == n
    ensures StreamLines(stream)
         == ["a=streamnumber:" + Dec(stream), "a=streamprofile:" + Dec(stream), "a=stream:" + Dec(stream)]
            + (if stream == 0 then ["a=streamMode:Main"] else if stream == 1 then ["a=streamMode:Sub"] else [])
  {
    hide KeyLine;
    TenDigits(n);
    StreamTexts(Dec(stream));
    KeyPrefix("a=streamMode:", "streamMode", "Main");
    KeyPrefix("a=streamMode:", "streamMode", "Sub");
    assert "a=streamMode:Main" == "a=streamMode:" + "Main" && "a=streamMode:Sub" == "a=streamMode:" + "Sub";
  }

  /** A candidate is printed word by word as section 5.1 of RFC 8839 has it, with the priority of its
      type and component. */
  lemma CandidateWords(c: Candidate)
    requires CleanCandidate(c)
    ensures Split(Join(CandidateParts(c), ' '), ' ')
         == [c.foundation, Dec(match c.component case NoComponent => 0 case Rtp => 1 case Rtcp => 2),
             if c.transport == Udp then "UDP" else "TCP", Dec(Priority(c)), c.address, Dec(c.port), "typ", KindName(c.kind)]
            + (if c.raddr != "" then ["raddr", c.raddr] else []) + (if c.rport != 0 then ["rport", Dec(c.rport)] else [])
  {
    hide Split, Join, Dec, CalculatePriority, Token, CandidateName, KindName, Priority;
    CandidateTokens(c);
    SplitJoin(CandidateParts(c), ' ');
    PriorityNumber(c);
    KindNames(c.kind);
  }

  function KindName(t: CandidateType): string {
    match t case Host => "host" case Srflx => "srflx" case Prflx => "prflx" case _ => "relay"
  }

  lemma KindNames(t: CandidateType)
    requires t != UnknownCandidate
    ensures CandidateName(t) == KindName(t)
  {}

  /** The formula of section 5.1.2.1 of RFC 8445 with the repository's type preferences; without a
      component the 256 falls on a bit that is already set. */
  function Priority(c: Candidate): nat {
    (match c.kind case Host => 126 case Srflx => 100 case Prflx => 110 case _ => 0) * 0x100_0000 + 65535 * 0x100
    + (match c.component case NoComponent => 0 case Rtp => 255 case Rtcp => 254)
  }

  lemma PriorityNumber(c: Candidate)
    requires c.kind != UnknownCandidate
    ensures CalculatePriority(c.kind, c.component) as nat == Priority(c)
  {
    if c.component == NoComponent {
      match c.kind
      case Host => assert CalculatePriority(Host, NoComponent) == 0x7EFF_FF00;
      case Srflx => assert CalculatePriority(Srflx, NoComponent) == 0x64FF_FF00;
      case Prflx => assert CalculatePriority(Prflx, NoComponent) == 0x6EFF_FF00;
      case Relay => assert CalculatePriority(Relay, NoComponent) == 0x00FF_FF00;
    } else {
      PriorityFormula(c.kind, c.component);
    }
  }
}
