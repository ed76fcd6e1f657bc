/** What comes back when a generated description is parsed. */
module SdpRoundTrip {
  import opened Text
  import opened Sdp
  import opened SdpLocality

  // ----- lexically clean descriptions -----

  predicate OneLine(s: string) { '\n' !in s }

  /** A field that stands between spaces. */
  predicate Word(s: string) { Token(s, ' ') && OneLine(s) }

  predicate CleanOrigin(o: Origin) {
    Word(o.username) && Word(o.sessionId) && Word(o.sessionVersion) && Word(o.netType) && Word(o.address)
  }

  predicate CleanUri(u: Uri) {
    OneLine(u.content) && if u.kind == Http then u.content == "" || StartsWith(u.content, "http://") else ':' !in u.content
  }

  predicate CleanConnection(c: Connection) {
    c.address != "" ==> Word(c.netType) && Word(c.address) && '/' !in c.address
  }

  predicate CleanAttributes(attributes: seq<Attribute>) {
    forall i :: 0 <= i < |attributes| ==> OneLine(attributes[i].key) && ':' !in attributes[i].key && OneLine(attributes[i].value)
  }

  predicate CleanOptions(options: seq<string>) {
    forall i :: 0 <= i < |options| ==> Word(options[i]) && '\0' !in options[i]
  }

  predicate CleanSession(s: Session) {
    && CleanOrigin(s.origin) && CleanUri(s.uri) && CleanConnection(s.connection)
    && OneLine(s.iceUfrag) && OneLine(s.icePwd) && CleanOptions(s.iceOptions) && CleanAttributes(s.attributes)
  }

  predicate CleanCandidate(c: Candidate) {
    Word(c.foundation) && Word(c.address) && (c.raddr != "" ==> Word(c.raddr)) && c.kind != UnknownCandidate
  }

  predicate CleanMedia(m: Media) {
    && (forall i :: 0 <= i < |m.payloads| ==> OneLine(m.payloads[i].name))
    && (forall i :: 0 <= i < |m.candidates| ==> CleanCandidate(m.candidates[i]))
    && OneLine(m.iceUfrag) && OneLine(m.icePwd) && OneLine(m.fParam) && CleanAttributes(m.attributes)
    && (m.proto == Tcp ==> m.setup != Unset)
  }

  // ----- what survives -----

  function SurvivingConnection(c: Connection): Connection {
    if c.address == "" then NO_CONNECTION
    else if c.numAddr > 1 then c
    else Connection(c.netType, c.addrType, c.address, if c.ttl > 0 then c.ttl else 0, 1)
  }

  function SurvivingUri(u: Uri): Uri {
    if u.content == "" then NO_URI else if u.kind == Http then u.(fileType := All) else u
  }

  /** A free attribute is printed with `=` and read back whole, as a key. */
  function SurvivingAttributes(acc: seq<Attribute>, attributes: seq<Attribute>): seq<Attribute>
    decreases |attributes|
  {
    if attributes == [] then acc
    else SurvivingAttributes(Emplace(acc, KeyValue(attributes[0].key + ['='] + attributes[0].value)), attributes[1..])
  }

  function SurvivingSession(s: Session): Session {
    s.(connection := SurvivingConnection(s.connection), uri := SurvivingUri(s.uri),
       iceUfrag := if s.icePwd != "" then s.iceUfrag else "", icePwd := if s.iceUfrag != "" then s.icePwd else "",
       iceOptions := if s.iceOptions == [] then [] else [s.iceOptions[|s.iceOptions| - 1]],
       attributes := SurvivingAttributes([], s.attributes))
  }

  function Named(payloads: seq<Payload>): seq<Payload> {
    if payloads == [] then []
    else (if payloads[0].name != "" then [payloads[0]] else []) + Named(payloads[1..])
  }

  /** Without a related address the related port lands in its place. */
  function SurvivingCandidate(c: Candidate): Candidate {
    c.(component := if c.component == Rtcp then Rtcp else Rtp, transport := if c.transport == Udp then Udp else Tcp,
       raddr := if c.raddr == "" && c.rport != 0 then Dec(c.rport) else c.raddr,
       rport := if c.raddr == "" then 0 else c.rport)
  }

  function SurvivingCandidates(candidates: seq<Candidate>): seq<Candidate> {
    if candidates == [] then [] else [SurvivingCandidate(candidates[0])] + SurvivingCandidates(candidates[1..])
  }

  function SurvivingMedia(m: Media): Media {
    m.(proto := if m.proto == Tcp then Tcp else Udp,
       setup := if m.proto == Tcp then m.setup else Unset, newConnection := m.proto == Tcp && m.newConnection,
       payloads := Named(m.payloads), connection := NO_CONNECTION,
       candidates := SurvivingCandidates(m.candidates), attributes := SurvivingAttributes([], m.attributes))
  }

  function SurvivingAll(media: seq<Media>): seq<Media> {
    if media == [] then [] else [SurvivingMedia(media[0])] + SurvivingAll(media[1..])
  }

  // ----- single lines -----

  lemma KeyValueOf(key: string, v: string)
    requires ':' !in key
    ensures KeyValue(key + [':'] + v) == Attribute(key, v)
  {
    var s := key + [':'] + v;
    FindAt(s, ':', |key|);
    assert s[..|key|] == key && s[|key| + 1..] == v;
  }

  lemma MediaKey(m: Media, key: string, v: string)
    requires ':' !in key
    ensures MediaStep(m, KeyLine(key, v)) == Ok(MediaAttribute(m, Attribute(key, v)))
  {
    hide KeyValue, MediaAttribute;
    KeyValueOf(key, v);
  }

  lemma SessionKey(s: Session, key: string, v: string)
    requires ':' !in key
    ensures SessionStep(s, KeyLine(key, v)) == Ok(SessionAttribute(s, Attribute(key, v)))
  {
    hide KeyValue, SessionAttribute;
    KeyValueOf(key, v);
  }

  lemma SectionOne(m: Media, line: string)
    ensures Section(m, [line]) == MediaStep(m, line)
  {
    hide MediaStep;
    var r := MediaStep(m, line);
    assert [line][1..] == [];
    if r.Ok? { assert Section(r.value, [line][1..]) == Ok(r.value); }
  }

  lemma SectionTwo(m: Media, a: string, b: string)
    ensures Section(m, [a, b]) == match MediaStep(m, a) case Ok(n) => MediaStep(n, b) case Thrown => Thrown
  {
    hide MediaStep;
    assert [a, b] == [a] + [b];
    SectionAppend(m, [a], [b]);
    SectionOne(m, a);
    if MediaStep(m, a).Ok? { SectionOne(MediaStep(m, a).value, b); }
  }

  lemma SessionOne(s: Session, line: string)
    ensures SessionRun(s, [line]) == SessionStep(s, line)
  {
    hide SessionStep;
    var r := SessionStep(s, line);
    assert [line][1..] == [];
    if r.Ok? { assert SessionRun(r.value, [line][1..]) == Ok(r.value); }
  }

  lemma SessionTwo(s: Session, a: string, b: string)
    ensures SessionRun(s, [a, b]) == match SessionStep(s, a) case Ok(t) => SessionStep(t, b) case Thrown => Thrown
  {
    hide SessionStep;
    assert [a, b] == [a] + [b];
    SessionRunAppend(s, [a], [b]);
    SessionOne(s, a);
    if SessionStep(s, a).Ok? { SessionOne(SessionStep(s, a).value, b); }
  }

  /** No key the parser knows contains `=`. */
  lemma OtherKey(k: string)
    requires '=' in k
    ensures KeyOf(k) == KOther
  {}

  lemma FreeAttribute(a: Attribute)
    requires ':' !in a.key
    ensures KeyOf(KeyValue(a.key + ['='] + a.value).key) == KOther
  {
    hide KeyOf;
    var s := a.key + ['='] + a.value;
    var pos := Find(s, ':');
    assert pos > |a.key| by {
      assert forall i :: 0 <= i < |a.key| ==> s[i] == a.key[i];
      assert s[|a.key|] == '=';
    }
    assert KeyValue(s).key[|a.key|] == '=';
    OtherKey(KeyValue(s).key);
  }

  // ----- the session -----

  lemma OriginBack(o: Origin)
    requires CleanOrigin(o)
    ensures ParseOrigin(Join(OriginParts(o), ' ')) == Ok(o)
  {
    hide Join, Split;
    SplitJoin(OriginParts(o), ' ');
  }

  lemma SessionNameBack(t: SessionType)
    ensures ParseSessionType(SessionName(t)) == t
  {}

  lemma SessionHeadBack(s: Session, t: Session)
    requires CleanOrigin(s.origin)
    ensures SessionRun(t, SessionHead(s)) == Ok(t.(version := s.version, origin := s.origin, kind := s.kind))
  {
    hide SessionRun, ParseOrigin, ParseSessionType, SessionName, Join, OriginParts, ToInt, DecInt;
    var lv, lo, ls := Line('v', DecInt(s.version)), Line('o', Join(OriginParts(s.origin), ' ')), Line('s', SessionName(s.kind));
    assert SessionHead(s) == [lv, lo] + [ls];
    VersionBack(s.version);
    OriginBack(s.origin);
    SessionNameBack(s.kind);
    SessionTwo(t, lv, lo);
    var u := t.(version := s.version, origin := s.origin);
    SessionRunAppend(t, [lv, lo], [ls]);
    SessionOne(u, ls);
  }

  lemma VersionBack(i: i32)
    ensures ToInt(DecInt(i)) == Some(i)
  {
    ScanDecInt(i);
  }

  lemma UnsignedBack(n: u32)
    ensures ToUnsigned(Dec(n)) == Some(n)
  {
    hide Dec, ScanInt;
    ScanDec(n, "");
    assert Dec(n) + "" == Dec(n);
  }

  lemma Unsigned64Back(n: u64)
    ensures ToUnsigned64(Dec(n)) == Some(n)
  {
    hide Dec, ScanInt;
    ScanDec(n, "");
    assert Dec(n) + "" == Dec(n);
  }

  lemma NotHttp(v: string, colon: nat)
    requires colon + 1 < |v| && v[colon] == ':' && v[colon + 1] != '/'
    requires forall k :: 0 <= k < colon ==> v[k] != ':'
    ensures !StartsWith(v, "http://")
  {
    if |v| >= 7 {
      var w := v[..7];
      assert w[0] == v[0] && w[1] == v[1] && w[2] == v[2] && w[3] == v[3] && w[4] == v[4] && w[5] == v[5];
    }
  }

  lemma SimpleUriBack(content: string, fileType: FileType)
    requires content != "" && ':' !in content
    ensures ParseUri(content + [':'] + Dec(FileTypeNumber(fileType))) == Uri(Simple, fileType, content)
  {
    var n := FileTypeNumber(fileType);
    var v := content + [':'] + Dec(n);
    FindAt(v, ':', |content|);
    assert v[..|content|] == content && v[|content| + 1..] == Dec(n);
    NotHttp(v, |content|);
    assert Dec(0) == "0" && Dec(1) == "1" && Dec(2) == "2" && Dec(3) == "3";
  }

  lemma UriBack(u: Uri, t: Session)
    requires CleanUri(u) && t.uri == NO_URI
    ensures SessionRun(t, UriLines(u)) == Ok(t.(uri := SurvivingUri(u)))
  {
    hide ParseUri;
    if u.content != "" {
      SessionOne(t, UriLines(u)[0]);
      if u.kind == Simple { SimpleUriBack(u.content, u.fileType); } else { HttpUriBack(u.content); }
    }
  }

  lemma HttpUriBack(content: string)
    requires StartsWith(content, "http://")
    ensures ParseUri(content) == Uri(Http, All, content)
  {}

  lemma DecWord(n: nat)
    ensures Word(Dec(n)) && '/' !in Dec(n) && ':' !in Dec(n) && '\r' !in Dec(n)
  {
    hide Dec;
    DecFree(n, ' '); DecFree(n, '\n'); DecFree(n, '/'); DecFree(n, ':'); DecFree(n, '\r');
  }

  lemma DecIntWord(i: int)
    ensures Word(DecInt(i)) && '/' !in DecInt(i)
  {
    hide Dec;
    DecWord(if i < 0 then -i else i);
  }

  lemma ConnectionBack(c: Connection)
    requires CleanConnection(c) && c.address != ""
    ensures ParseConnection(Join([c.netType, AddressTypeName(c.addrType), Join(AddressParts(c), '/')], ' '))
         == Ok(SurvivingConnection(c))
  {
    hide Split, Join, DecInt, ToInt;
    DecIntWord(c.ttl);
    DecIntWord(c.numAddr);
    var a := AddressParts(c);
    JoinFree(a, '/', ' ');
    JoinNotEmpty(a, '/');
    SplitJoin([c.netType, AddressTypeName(c.addrType), Join(a, '/')], ' ');
    SplitJoin(a, '/');
    VersionBack(c.ttl);
    VersionBack(c.numAddr);
  }

  lemma JoinNotEmpty(parts: seq<string>, d: char)
    requires parts != [] && parts[0] != ""
    ensures Join(parts, d) != ""
  {}

  lemma ConnectionLinesBack(c: Connection, t: Session)
    requires CleanConnection(c) && t.connection == NO_CONNECTION
    ensures SessionRun(t, ConnectionLines(c)) == Ok(t.(connection := SurvivingConnection(c)))
  {
    hide ParseConnection, SurvivingConnection, Join;
    if c.address != "" {
      SessionOne(t, ConnectionLines(c)[0]);
      ConnectionBack(c);
    } else {
      assert SurvivingConnection(c) == NO_CONNECTION by { NoConnectionLeft(c); }
    }
  }

  lemma NoConnectionLeft(c: Connection)
    requires c.address == ""
    ensures SurvivingConnection(c) == NO_CONNECTION
  {}

  lemma TimeBack(s: Session, t: Session)
    ensures SessionRun(t, [TimeLine(s)]) == Ok(t.(start := s.start, end := s.end))
  {
    hide Split, Join, Dec, ToUnsigned64, SessionRun;
    DecWord(s.start);
    DecWord(s.end);
    SplitJoin([Dec(s.start), Dec(s.end)], ' ');
    Unsigned64Back(s.start);
    Unsigned64Back(s.end);
    SessionOne(t, TimeLine(s));
  }

  lemma SessionIceBack(s: Session, t: Session)
    requires t.iceUfrag == "" && t.icePwd == "" && !t.iceLite
    ensures SessionRun(t, SessionIceLines(s))
         == Ok(t.(iceUfrag := if s.icePwd != "" then s.iceUfrag else "",
                  icePwd := if s.iceUfrag != "" then s.icePwd else "", iceLite := s.iceLite))
  {
    hide SessionStep, SessionRun, KeyLine, Line;
    var a := if s.iceUfrag != "" && s.icePwd != ""
             then [KeyLine("ice-ufrag", s.iceUfrag), KeyLine("ice-pwd", s.icePwd)] else [];
    var b := if s.iceLite then [Line('a', "ice-lite")] else [];
    SessionRunAppend(t, a, b);
    var u := t;
    if a != [] {
      SessionKey(t, "ice-ufrag", s.iceUfrag);
      SessionKey(t.(iceUfrag := s.iceUfrag), "ice-pwd", s.icePwd);
      SessionTwo(t, a[0], a[1]);
      u := t.(iceUfrag := s.iceUfrag, icePwd := s.icePwd);
    } else {
      SessionNone(t);
    }
    if b != [] {
      LiteLine(u);
      SessionOne(u, b[0]);
    } else {
      SessionNone(u);
    }
  }

  lemma SessionNone(t: Session)
    ensures SessionRun(t, []) == Ok(t)
  {}

  lemma KeyAlone(key: string)
    requires ':' !in key
    ensures KeyValue(key) == Attribute(key, "")
  {
    FindAt(key, ':', |key|);
  }

  lemma LiteKey()
    ensures KeyOf("ice-lite") == KLite && ':' !in "ice-lite"
  {}

  lemma LiteLine(t: Session)
    ensures SessionStep(t, Line('a', "ice-lite")) == Ok(t.(iceLite := true))
  {
    hide KeyOf, KeyValue;
    LiteKey();
    KeyAlone("ice-lite");
  }

  lemma OptionLineBack(o: string, t: Session)
    requires Word(o) && '\0' !in o
    ensures SessionStep(t, KeyLine("ice-options", o)) == Ok(t.(iceOptions := [o]))
  {
    hide KeyLine, SessionStep, KeyOf;
    SessionKey(t, "ice-options", o);
    OptionBack(o);
    OptionKey();
  }

  lemma OptionKey()
    ensures KeyOf("ice-options") == KOptions
  {}

  lemma {:induction false} OptionsBack(options: seq<string>, t: Session)
    requires CleanOptions(options)
    ensures SessionRun(t, OptionLines(options))
         == Ok(if options == [] then t else t.(iceOptions := [options[|options| - 1]]))
    decreases |options|
  {
    hide KeyLine, SessionStep, Word;
    if options != [] {
      var o := options[0];
      OptionLineBack(o, t);
      OptionsBack(options[1..], t.(iceOptions := [o]));
      assert OptionLines(options)[1..] == OptionLines(options[1..]);
    }
  }

  lemma OptionBack(o: string)
    requires Word(o) && '\0' !in o
    ensures Split(CString(o), ' ') == [o]
  {
    FindAt(o, '\0', |o|);
    SplitJoin([o], ' ');
  }

  lemma {:induction false} SessionAttributesBack(attributes: seq<Attribute>, t: Session)
    requires CleanAttributes(attributes)
    ensures SessionRun(t, AttributeLines(attributes))
         == Ok(t.(attributes := SurvivingAttributes(t.attributes, attributes)))
    decreases |attributes|
  {
    hide KeyValue, KeyOf, Emplace;
    if attributes != [] {
      var a := attributes[0];
      FreeAttribute(a);
      SessionAttributesBack(attributes[1..],
        t.(attributes := Emplace(t.attributes, KeyValue(a.key + ['='] + a.value))));
      assert AttributeLines(attributes)[1..] == AttributeLines(attributes[1..]);
    }
  }

  lemma {:induction false} SessionBack(s: Session)
    requires CleanSession(s)
    ensures SessionRun(NO_SESSION, SessionLines(s)) == Ok(SurvivingSession(s))
  {
    hide SessionRun, SessionHead, UriLines, ConnectionLines, TimeLine, SessionIceLines, OptionLines, AttributeLines,
         SurvivingUri, SurvivingConnection, SurvivingAttributes, CleanOrigin, CleanUri, CleanConnection, CleanOptions, CleanAttributes;
    var t0 := NO_SESSION;
    SessionHeadBack(s, t0);
    var t1 := t0.(version := s.version, origin := s.origin, kind := s.kind);
    UriBack(s.uri, t1);
    var t2 := t1.(uri := SurvivingUri(s.uri));
    ConnectionLinesBack(s.connection, t2);
    var t3 := t2.(connection := SurvivingConnection(s.connection));
    TimeBack(s, t3);
    var t4 := t3.(start := s.start, end := s.end);
    SessionIceBack(s, t4);
    var t5 := t4.(iceUfrag := if s.icePwd != "" then s.iceUfrag else "",
                  icePwd := if s.iceUfrag != "" then s.icePwd else "", iceLite := s.iceLite);
    OptionsBack(s.iceOptions, t5);
    var t6 := if s.iceOptions == [] then t5 else t5.(iceOptions := [s.iceOptions[|s.iceOptions| - 1]]);
    SessionAttributesBack(s.attributes, t6);
    var l1 := SessionHead(s) + UriLines(s.uri);
    var l2 := l1 + ConnectionLines(s.connection);
    var l3 := l2 + [TimeLine(s)];
    var l4 := l3 + SessionIceLines(s);
    var l5 := l4 + OptionLines(s.iceOptions);
    SessionRunAppend(t0, SessionHead(s), UriLines(s.uri));
    SessionRunAppend(t0, l1, ConnectionLines(s.connection));
    SessionRunAppend(t0, l2, [TimeLine(s)]);
    SessionRunAppend(t0, l3, SessionIceLines(s));
    SessionRunAppend(t0, l4, OptionLines(s.iceOptions));
    SessionRunAppend(t0, l5, AttributeLines(s.attributes));
  }

  // ----- the head of a media section -----

  lemma SkipOne(s: string)
    requires s != [] && !IsSpace(s[0])
    ensures SkipSpaces([' '] + s) == s
  {
    assert ([' '] + s)[1..] == s;
  }

  lemma WordLengthAt(s: string, n: nat)
    requires n <= |s| && (n < |s| ==> IsSpace(s[n]))
    requires forall i :: 0 <= i < n ==> !IsSpace(s[i])
    ensures WordLength(s) == n
  {}

  lemma PortBack(port: u16, rest: string)
    requires rest != [] && rest[0] == ' '
    ensures ExtractPort([' '] + Dec(port) + rest) == (port, rest)
  {
    hide Dec;
    var s := Dec(port) + rest;
    assert [' '] + Dec(port) + rest == [' '] + s;
    assert IsDigit(s[0]);
    SkipOne(s);
    ValueOfDec(port);
    DigitRunAt(s, |Dec(port)|);
    assert s[..|Dec(port)|] == Dec(port) && s[|Dec(port)|..] == rest;
  }

  lemma PayloadNumbersSpaced(payloads: seq<Payload>)
    ensures PayloadNumbers(payloads) != [] ==> PayloadNumbers(payloads)[0] == ' '
  {}

  /** The first word of a text and what follows it. */
  lemma FirstWord(word: string, rest: string)
    requires word != [] && forall i :: 0 <= i < |word| ==> !IsSpace(word[i])
    requires rest != [] ==> rest[0] == ' '
    ensures var t := word + rest;
            && SkipSpaces(t) == t && SkipSpaces([' '] + t) == t
            && WordLength(t) == |word| && t[..|word|] == word && t[|word|..] == rest
  {
    var t := word + rest;
    assert t[0] == word[0];
    NoSkip(t);
    SkipOne(t);
    WordLengthAt(t, |word|);
  }

  lemma HeadBack(m: Media)
    ensures ParseMediaHead(MediaHeadValue(m)) == FreshMedia(m.kind, m.port, if m.proto == Tcp then Tcp else Udp)
  {
    hide Dec, PayloadNumbers, ExtractPort, SkipSpaces, WordLength;
    PayloadNumbersSpaced(m.payloads);
    var kind := if m.kind == Video then "video" else "audio";
    var proto, numbers := ProtoName(m.proto), PayloadNumbers(m.payloads);
    var rest := [' '] + (proto + numbers);
    var after := [' '] + Dec(m.port) + rest;
    assert MediaHeadValue(m) == kind + after;
    FirstWord(kind, after);
    FirstWord(proto, numbers);
    PortBack(m.port, rest);
  }

  lemma NoSkip(s: string)
    requires s != [] && !IsSpace(s[0])
    ensures SkipSpaces(s) == s
  {}

  // ----- the body of a media section -----

  lemma NoLines(m: Media)
    ensures Section(m, []) == Ok(m)
  {}

  lemma SetupBack(t: Setup, m: Media)
    requires t != Unset
    ensures MediaAttribute(m, Attribute("setup", SetupName(t))) == m.(setup := t)
  {}

  lemma NewConnectionBack(isNew: bool, m: Media)
    ensures MediaAttribute(m, Attribute("connection", if isNew then "new" else "existing")) == m.(newConnection := isNew)
  {}

  lemma TcpBack(m: Media, t: Media)
    requires m.proto == Tcp ==> m.setup != Unset
    requires t.setup == Unset && !t.newConnection
    ensures Section(t, TcpLines(m))
         == Ok(t.(setup := if m.proto == Tcp then m.setup else Unset, newConnection := m.proto == Tcp && m.newConnection))
  {
    hide MediaStep, MediaAttribute, Section, KeyLine, SetupName;
    if m.proto == Tcp {
      var name := if m.newConnection then "new" else "existing";
      MediaKey(t, "setup", SetupName(m.setup));
      SetupBack(m.setup, t);
      var u := t.(setup := m.setup);
      MediaKey(u, "connection", name);
      NewConnectionBack(m.newConnection, u);
      SectionTwo(t, KeyLine("setup", SetupName(m.setup)), KeyLine("connection", name));
    } else {
      NoLines(t);
    }
  }

  lemma DirectionBack(d: Direction, t: Media)
    ensures Section(t, [Line('a', DirectionName(d))]) == Ok(t.(direction := d))
  {
    hide MediaAttribute, KeyValue, DirectionName;
    var name := DirectionName(d);
    SectionOne(t, Line('a', name));
    DirectionKey(d);
    KeyAlone(name);
    DirectionAttribute(d, t);
  }

  lemma DirectionKey(d: Direction)
    ensures KeyOf(DirectionName(d)) == KDirection(d) && ':' !in DirectionName(d)
  {}

  lemma DirectionAttribute(d: Direction, t: Media)
    ensures MediaAttribute(t, Attribute(DirectionName(d), "")) == t.(direction := d)
  {
    hide KeyOf, DirectionName;
    DirectionKey(d);
  }

  lemma SlashBack(name: string, rate: string)
    requires '/' !in rate
    ensures var next := name + ['/'] + rate;
            FindLast(next, '/') == |name| && next[..|name|] == name && next[|name| + 1..] == rate
  {
    var next := name + ['/'] + rate;
    assert next[|name|] == '/';
    assert forall k :: |name| < k < |next| ==> next[k] == rate[k - |name| - 1];
  }

  lemma SpaceBack(number: string, next: string)
    requires ' ' !in number
    ensures var v := number + [' '] + next;
            Find(v, ' ') == |number| && v[|number| + 1..] == next
  {
    var v := number + [' '] + next;
    FindAt(v, ' ', |number|);
  }

  lemma RtpmapBack(p: Payload)
    ensures ParseRtpmap(RtpmapValue(p)) == Some(p)
  {
    hide Dec, ToUnsigned, ScanInt, Find, FindLast;
    var number, rate := Dec(p.number), Dec(p.sampleRate);
    var next := p.name + ['/'] + rate;
    DecWord(p.number);
    DecWord(p.sampleRate);
    assert RtpmapValue(p) == number + [' '] + next == number + ([' '] + next);
    SpaceBack(number, next);
    SlashBack(p.name, rate);
    UnsignedBack(p.sampleRate);
    ScanNumber(p.number, [' '] + next);
  }

  lemma ScanNumber(n: u8, rest: string)
    requires rest != [] && rest[0] == ' '
    ensures ToUnsigned(Dec(n) + rest) == Some(n)
  {
    hide Dec, ScanInt;
    ScanDec(n, rest);
  }

  lemma RtpmapAttribute(t: Media, p: Payload)
    ensures MediaAttribute(t, Attribute("rtpmap", RtpmapValue(p))) == t.(payloads := t.payloads + [p])
  {
    hide RtpmapValue, ParseRtpmap, KeyOf;
    RtpmapBack(p);
    RtpmapKey();
  }

  lemma RtpmapKey()
    ensures KeyOf("rtpmap") == KRtpmap && KeyOf("candidate") == KCandidate
  {}

  /** One more line of a kind that appends, in front of lines already accounted for. */
  lemma SectionCons(t: Media, line: string, u: Media, rest: seq<string>)
    requires MediaStep(t, line) == Ok(u)
    ensures Section(t, [line] + rest) == Section(u, rest)
  {
    hide MediaStep, Section;
    SectionAppend(t, [line], rest);
    SectionOne(t, line);
  }

  lemma RtpmapLineBack(p: Payload, t: Media)
    ensures MediaStep(t, KeyLine("rtpmap", RtpmapValue(p))) == Ok(t.(payloads := t.payloads + [p]))
  {
    hide MediaStep, MediaAttribute, KeyLine, RtpmapValue;
    MediaKey(t, "rtpmap", RtpmapValue(p));
    RtpmapAttribute(t, p);
  }

  lemma {:induction false} RtpmapsBack(payloads: seq<Payload>, t: Media)
    ensures Section(t, RtpmapLines(payloads)) == Ok(t.(payloads := t.payloads + Named(payloads)))
    decreases |payloads|
  {
    hide MediaStep, Section, KeyLine, RtpmapValue;
    if payloads == [] {
      NoLines(t);
      assert t.payloads + [] == t.payloads;
    } else {
      var p, rest := payloads[0], payloads[1..];
      if p.name != "" {
        var u := t.(payloads := t.payloads + [p]);
        RtpmapLineBack(p, t);
        RtpmapsBack(rest, u);
        SectionCons(t, KeyLine("rtpmap", RtpmapValue(p)), u, RtpmapLines(rest));
        assert u.payloads + Named(rest) == t.payloads + ([p] + Named(rest));
      } else {
        assert RtpmapLines(payloads) == RtpmapLines(rest);
        assert Named(payloads) == Named(rest);
        RtpmapsBack(rest, t);
      }
    }
  }

  lemma IceAttributes(t: Media, v: string)
    ensures MediaAttribute(t, Attribute("ice-ufrag", v)) == t.(iceUfrag := v)
    ensures MediaAttribute(t, Attribute("ice-pwd", v)) == t.(icePwd := v)
  {
    hide KeyOf;
    IceKeys();
  }

  lemma IceKeys()
    ensures KeyOf("ice-ufrag") == KUfrag && KeyOf("ice-pwd") == KPwd
  {}

  lemma MediaIceBack(m: Media, t: Media)
    requires t.iceUfrag == "" && t.icePwd == ""
    ensures Section(t, MediaIceLines(m)) == Ok(t.(iceUfrag := m.iceUfrag, icePwd := m.icePwd))
  {
    hide MediaStep, MediaAttribute, Section, KeyLine;
    var a := if m.iceUfrag != "" then [KeyLine("ice-ufrag", m.iceUfrag)] else [];
    var b := if m.icePwd != "" then [KeyLine("ice-pwd", m.icePwd)] else [];
    SectionAppend(t, a, b);
    if a != [] {
      MediaKey(t, "ice-ufrag", m.iceUfrag);
      IceAttributes(t, m.iceUfrag);
      SectionOne(t, a[0]);
    } else {
      NoLines(t);
    }
    var u := t.(iceUfrag := m.iceUfrag);
    if b != [] {
      MediaKey(u, "ice-pwd", m.icePwd);
      IceAttributes(u, m.icePwd);
      SectionOne(u, b[0]);
    } else {
      NoLines(u);
    }
  }

  lemma PortNumberBack(port: u16)
    ensures Stoul16(Dec(port)) == Some(port) && ToUnsigned(Dec(port)) == Some(port)
  {
    hide Dec, ScanInt;
    ScanDec(port, "");
    assert Dec(port) + "" == Dec(port);
  }

  lemma ComponentBack(c: Component)
    ensures (Dec(ComponentNumber(c)) == "2") == (c == Rtcp)
  {
    assert Dec(0) == "0" && Dec(1) == "1" && Dec(2) == "2";
  }

  lemma CandidateTypeBack(t: CandidateType)
    ensures ParseCandidateType(CandidateName(t)) == t && Token(CandidateName(t), ' ')
  {}

  lemma CandidateTokens(c: Candidate)
    requires CleanCandidate(c)
    ensures var parts := CandidateParts(c); forall i :: 0 <= i < |parts| ==> Token(parts[i], ' ')
  {
    hide Dec, CalculatePriority, CandidateName;
    DecWord(ComponentNumber(c.component));
    DecWord(CalculatePriority(c.kind, c.component) as nat);
    DecWord(c.port);
    DecWord(c.rport);
    CandidateTypeBack(c.kind);
  }

  lemma CandidateBack(c: Candidate)
    requires CleanCandidate(c)
    ensures ParseCandidate(Join(CandidateParts(c), ' ')) == SurvivingCandidate(c)
  {
    hide Dec, CalculatePriority, Split, Join, CandidateName, ParseCandidateType, Stoul16, ToUnsigned, Token;
    CandidateTokens(c);
    SplitJoin(CandidateParts(c), ' ');
    ComponentBack(c.component);
    CandidateTypeBack(c.kind);
    PortNumberBack(c.port);
    PortNumberBack(c.rport);
  }

  lemma CandidateAttribute(c: Candidate, t: Media)
    requires CleanCandidate(c)
    ensures MediaAttribute(t, Attribute("candidate", Join(CandidateParts(c), ' ')))
         == t.(candidates := t.candidates + [SurvivingCandidate(c)])
  {
    hide KeyOf, ParseCandidate, Join, CandidateParts, SurvivingCandidate;
    CandidateBack(c);
    RtpmapKey();
  }

  lemma CandidateLineBack(c: Candidate, t: Media)
    requires CleanCandidate(c)
    ensures MediaStep(t, KeyLine("candidate", Join(CandidateParts(c), ' ')))
         == Ok(t.(candidates := t.candidates + [SurvivingCandidate(c)]))
  {
    hide MediaStep, MediaAttribute, KeyLine, Join, CandidateParts, SurvivingCandidate;
    MediaKey(t, "candidate", Join(CandidateParts(c), ' '));
    CandidateAttribute(c, t);
  }

  lemma {:induction false} CandidatesBack(candidates: seq<Candidate>, t: Media)
    requires forall i :: 0 <= i < |candidates| ==> CleanCandidate(candidates[i])
    ensures KnownTypes(candidates)
    ensures Section(t, CandidateLines(candidates)) == Ok(t.(candidates := t.candidates + SurvivingCandidates(candidates)))
    decreases |candidates|
  {
    hide MediaStep, Section, KeyLine, Join, CandidateParts, SurvivingCandidate;
    if candidates == [] {
      NoLines(t);
      assert t.candidates + [] == t.candidates;
    } else {
      var c, rest := candidates[0], candidates[1..];
      var u := t.(candidates := t.candidates + [SurvivingCandidate(c)]);
      CandidateLineBack(c, t);
      CandidatesBack(rest, u);
      SectionCons(t, KeyLine("candidate", Join(CandidateParts(c), ' ')), u, CandidateLines(rest));
      assert u.candidates + SurvivingCandidates(rest) == t.candidates + ([SurvivingCandidate(c)] + SurvivingCandidates(rest));
    }
  }

  lemma StreamKeys()
    ensures KeyOf("streamnumber") == KStream && KeyOf("streamprofile") == KStream && KeyOf("stream") == KStream
    ensures KeyOf("streamMode") == KStreamMode && KeyOf("filesize") == KFileSize && KeyOf("downloadspeed") == KDownloadSpeed
  {}

  lemma StreamAttribute(key: string, n: u16, t: Media)
    requires KeyOf(key) == KStream
    ensures MediaAttribute(t, Attribute(key, Dec(n))) == t.(streamNumber := n)
  {
    hide KeyOf, Dec, ToUnsigned;
    PortNumberBack(n);
  }

  lemma StreamModeAttribute(t: Media)
    ensures MediaAttribute(t, Attribute("streamMode", "Main")) == t.(streamNumber := 0)
    ensures MediaAttribute(t, Attribute("streamMode", "Sub")) == t.(streamNumber := 1)
  {
    hide KeyOf;
    StreamKeys();
  }

  lemma StreamBack(n: u16, t: Media)
    ensures Section(t, StreamLines(n)) == Ok(t.(streamNumber := n))
  {
    hide MediaStep, MediaAttribute, Section, KeyLine, Dec;
    StreamKeys();
    var a, b, c := KeyLine("streamnumber", Dec(n)), KeyLine("streamprofile", Dec(n)), KeyLine("stream", Dec(n));
    var mode := if n == 0 then [KeyLine("streamMode", "Main")] else if n == 1 then [KeyLine("streamMode", "Sub")] else [];
    assert StreamLines(n) == [a, b] + [c] + mode;
    var u := t.(streamNumber := n);
    MediaKey(t, "streamnumber", Dec(n));
    StreamAttribute("streamnumber", n, t);
    MediaKey(u, "streamprofile", Dec(n));
    StreamAttribute("streamprofile", n, u);
    MediaKey(u, "stream", Dec(n));
    StreamAttribute("stream", n, u);
    SectionTwo(t, a, b);
    SectionOne(u, c);
    SectionAppend(t, [a, b], [c]);
    SectionAppend(t, [a, b] + [c], mode);
    ModeBack(n, u, mode);
  }

  lemma ModeBack(n: u16, u: Media, mode: seq<string>)
    requires u.streamNumber == n
    requires mode == if n == 0 then [KeyLine("streamMode", "Main")] else if n == 1 then [KeyLine("streamMode", "Sub")] else []
    ensures Section(u, mode) == Ok(u)
  {
    hide MediaStep, MediaAttribute, Section, KeyLine;
    if mode == [] {
      NoLines(u);
    } else {
      MediaKey(u, "streamMode", "Main");
      MediaKey(u, "streamMode", "Sub");
      StreamModeAttribute(u);
      SectionOne(u, mode[0]);
    }
  }

  lemma FileAttributes(size: u64, speed: i32, t: Media)
    ensures MediaAttribute(t, Attribute("filesize", Dec(size))) == t.(fileSize := size)
    ensures MediaAttribute(t, Attribute("downloadspeed", DecInt(speed))) == t.(downloadSpeed := speed)
  {
    hide KeyOf, Dec, DecInt, ToUnsigned64, ToInt;
    StreamKeys();
    Unsigned64Back(size);
    VersionBack(speed);
  }

  lemma FileBack(m: Media, t: Media)
    requires t.fileSize == 0 && t.downloadSpeed == 0
    ensures Section(t, FileLines(m)) == Ok(t.(fileSize := m.fileSize, downloadSpeed := m.downloadSpeed))
  {
    hide MediaStep, MediaAttribute, Section, KeyLine, Dec, DecInt;
    var a := if m.fileSize != 0 then [KeyLine("filesize", Dec(m.fileSize))] else [];
    var b := if m.downloadSpeed != 0 then [KeyLine("downloadspeed", DecInt(m.downloadSpeed))] else [];
    SectionAppend(t, a, b);
    FileAttributes(m.fileSize, m.downloadSpeed, t);
    if a != [] {
      MediaKey(t, "filesize", Dec(m.fileSize));
      SectionOne(t, a[0]);
    } else {
      NoLines(t);
    }
    var u := t.(fileSize := m.fileSize);
    FileAttributes(m.fileSize, m.downloadSpeed, u);
    if b != [] {
      MediaKey(u, "downloadspeed", DecInt(m.downloadSpeed));
      SectionOne(u, b[0]);
    } else {
      NoLines(u);
    }
  }

  lemma FreeMediaAttribute(a: Attribute, t: Media)
    requires ':' !in a.key
    ensures MediaStep(t, Line('a', a.key + ['='] + a.value))
         == Ok(t.(attributes := Emplace(t.attributes, KeyValue(a.key + ['='] + a.value))))
  {
    hide KeyOf, KeyValue, Emplace;
    FreeAttribute(a);
  }

  lemma {:induction false} MediaAttributesBack(attributes: seq<Attribute>, t: Media)
    requires CleanAttributes(attributes)
    ensures Section(t, AttributeLines(attributes)) == Ok(t.(attributes := SurvivingAttributes(t.attributes, attributes)))
    decreases |attributes|
  {
    hide MediaStep, KeyValue, Emplace, Line;
    if attributes != [] {
      var a := attributes[0];
      FreeMediaAttribute(a, t);
      MediaAttributesBack(attributes[1..], t.(attributes := Emplace(t.attributes, KeyValue(a.key + ['='] + a.value))));
      assert AttributeLines(attributes)[1..] == AttributeLines(attributes[1..]);
    }
  }

  lemma SsrcLine(n: u32, t: Media)
    ensures MediaStep(t, Line('y', Padded(n, 10))) == Ok(t.(ssrc := n))
  {
    hide Padded, ScanInt;
    ScanPadded(n, 10);
  }

  lemma ParamLine(v: string, t: Media)
    ensures MediaStep(t, Line('f', v)) == Ok(t.(fParam := v))
  {}

  lemma TailBack(m: Media, t: Media)
    requires t.ssrc == 0 && t.fParam == ""
    ensures Section(t, TailLines(m)) == Ok(t.(ssrc := m.ssrc, fParam := m.fParam))
  {
    hide MediaStep, Section, Line, Padded;
    var a := if m.ssrc != 0 then [Line('y', Padded(m.ssrc, 10))] else [];
    var b := if m.fParam != "" then [Line('f', m.fParam)] else [];
    SectionAppend(t, a, b);
    if a != [] {
      SsrcLine(m.ssrc, t);
      SectionOne(t, a[0]);
    } else {
      NoLines(t);
    }
    var u := t.(ssrc := m.ssrc);
    if b != [] {
      ParamLine(m.fParam, u);
      SectionOne(u, b[0]);
    } else {
      NoLines(u);
    }
  }

  lemma {:induction false} BodyBack(m: Media)
    requires CleanMedia(m)
    ensures Printable(m)
    ensures Section(FreshMedia(m.kind, m.port, if m.proto == Tcp then Tcp else Udp), MediaBody(m)) == Ok(SurvivingMedia(m))
  {
    hide Section, TcpLines, DirectionName, RtpmapLines, MediaIceLines, CandidateLines, StreamLines, FileLines,
         AttributeLines, TailLines, SurvivingAttributes, SurvivingCandidates, Named, CleanAttributes, CleanCandidate, Line;
    var t0 := FreshMedia(m.kind, m.port, if m.proto == Tcp then Tcp else Udp);
    CandidatesBack(m.candidates, t0);
    TcpBack(m, t0);
    var t1 := t0.(setup := if m.proto == Tcp then m.setup else Unset, newConnection := m.proto == Tcp && m.newConnection);
    DirectionBack(m.direction, t1);
    var t2 := t1.(direction := m.direction);
    RtpmapsBack(m.payloads, t2);
    assert [] + Named(m.payloads) == Named(m.payloads);
    var t3 := t2.(payloads := Named(m.payloads));
    MediaIceBack(m, t3);
    var t4 := t3.(iceUfrag := m.iceUfrag, icePwd := m.icePwd);
    CandidatesBack(m.candidates, t4);
    assert [] + SurvivingCandidates(m.candidates) == SurvivingCandidates(m.candidates);
    var t5 := t4.(candidates := SurvivingCandidates(m.candidates));
    StreamBack(m.streamNumber, t5);
    var t6 := t5.(streamNumber := m.streamNumber);
    FileBack(m, t6);
    var t7 := t6.(fileSize := m.fileSize, downloadSpeed := m.downloadSpeed);
    MediaAttributesBack(m.attributes, t7);
    var t8 := t7.(attributes := SurvivingAttributes([], m.attributes));
    TailBack(m, t8);
    var l1 := TcpLines(m) + [Line('a', DirectionName(m.direction))];
    var l2 := l1 + RtpmapLines(m.payloads);
    var l3 := l2 + MediaIceLines(m);
    var l4 := l3 + CandidateLines(m.candidates);
    var l5 := l4 + StreamLines(m.streamNumber);
    var l6 := l5 + FileLines(m);
    var l7 := l6 + AttributeLines(m.attributes);
    SectionAppend(t0, TcpLines(m), [Line('a', DirectionName(m.direction))]);
    SectionAppend(t0, l1, RtpmapLines(m.payloads));
    SectionAppend(t0, l2, MediaIceLines(m));
    SectionAppend(t0, l3, CandidateLines(m.candidates));
    SectionAppend(t0, l4, StreamLines(m.streamNumber));
    SectionAppend(t0, l5, FileLines(m));
    SectionAppend(t0, l6, AttributeLines(m.attributes));
    SectionAppend(t0, l7, TailLines(m));
  }

  // ----- whole descriptions -----

  predicate CleanAll(media: seq<Media>) {
    forall i :: 0 <= i < |media| ==> CleanMedia(media[i])
  }

  /** Lines of the session: none holds a line feed or opens a media section. */
  predicate SessionText(lines: seq<string>) {
    forall i :: 0 <= i < |lines| ==> OneLine(lines[i]) && !IsMediaLine(lines[i])
  }

  /** Lines of a media section: none holds a line feed, all are the section's own. */
  predicate MediaText(lines: seq<string>) {
    forall i :: 0 <= i < |lines| ==> OneLine(lines[i]) && OwnLine(lines[i])
  }

  lemma {:induction false} OptionText(options: seq<string>)
    requires CleanOptions(options)
    ensures SessionText(OptionLines(options))
  {
    if options != [] { OptionText(options[1..]); }
  }

  lemma {:induction false} AttributeText(attributes: seq<Attribute>)
    requires CleanAttributes(attributes)
    ensures SessionText(AttributeLines(attributes)) && MediaText(AttributeLines(attributes))
  {
    if attributes != [] { AttributeText(attributes[1..]); }
  }

  lemma HeadText(s: Session)
    requires CleanOrigin(s.origin)
    ensures SessionText(SessionHead(s)) && SessionText([TimeLine(s)])
  {
    hide Join, Dec;
    DecIntWord(s.version);
    DecWord(s.start);
    DecWord(s.end);
    JoinFree(OriginParts(s.origin), ' ', '\n');
    JoinFree([Dec(s.start), Dec(s.end)], ' ', '\n');
  }

  lemma UriText(s: Session)
    requires CleanSession(s)
    ensures SessionText(UriLines(s.uri)) && SessionText(ConnectionLines(s.connection)) && SessionText(SessionIceLines(s))
  {
    hide Join, Dec, DecInt;
    var c := s.connection;
    DecWord(FileTypeNumber(s.uri.fileType));
    DecIntWord(c.ttl);
    DecIntWord(c.numAddr);
    if c.address != "" {
      JoinFree(AddressParts(c), '/', '\n');
      JoinFree([c.netType, AddressTypeName(c.addrType), Join(AddressParts(c), '/')], ' ', '\n');
    }
  }

  lemma SessionLinesText(s: Session)
    requires CleanSession(s)
    ensures SessionText(SessionLines(s))
  {
    hide SessionHead, UriLines, ConnectionLines, TimeLine, SessionIceLines, OptionLines, AttributeLines;
    HeadText(s);
    UriText(s);
    OptionText(s.iceOptions);
    AttributeText(s.attributes);
  }

  lemma {:induction false} RtpmapText(payloads: seq<Payload>)
    requires forall i :: 0 <= i < |payloads| ==> OneLine(payloads[i].name)
    ensures MediaText(RtpmapLines(payloads))
  {
    hide Dec;
    if payloads != [] {
      DecWord(payloads[0].number);
      DecWord(payloads[0].sampleRate);
      RtpmapText(payloads[1..]);
    }
  }

  lemma CandidateOneLine(c: Candidate)
    requires CleanCandidate(c)
    ensures OneLine(Join(CandidateParts(c), ' '))
  {
    hide Join, Dec, CalculatePriority;
    DecWord(ComponentNumber(c.component));
    DecWord(CalculatePriority(c.kind, c.component) as nat);
    DecWord(c.port);
    DecWord(c.rport);
    JoinFree(CandidateParts(c), ' ', '\n');
  }

  lemma {:induction false} CandidateText(candidates: seq<Candidate>)
    requires forall i :: 0 <= i < |candidates| ==> CleanCandidate(candidates[i])
    ensures KnownTypes(candidates) && MediaText(CandidateLines(candidates))
  {
    hide Join, CandidateParts;
    if candidates != [] {
      CandidateOneLine(candidates[0]);
      CandidateText(candidates[1..]);
    }
  }

  lemma KeyText(key: string, v: string)
    requires OneLine(key) && OneLine(v)
    ensures OneLine(KeyLine(key, v)) && OwnLine(KeyLine(key, v))
  {}

  lemma NamesOneLine(t: Setup, d: Direction)
    ensures t != Unset ==> OneLine(SetupName(t))
    ensures OneLine(DirectionName(d))
  {}

  lemma TcpText(m: Media)
    requires CleanMedia(m)
    ensures MediaText(TcpLines(m)) && MediaText([Line('a', DirectionName(m.direction))])
  {
    hide KeyLine, SetupName, DirectionName;
    NamesOneLine(m.setup, m.direction);
    if m.proto == Tcp { KeyText("setup", SetupName(m.setup)); }
    KeyText("connection", "new");
    KeyText("connection", "existing");
  }

  lemma MediaIceText(m: Media)
    requires CleanMedia(m)
    ensures MediaText(MediaIceLines(m))
  {
    hide KeyLine;
    KeyText("ice-ufrag", m.iceUfrag);
    KeyText("ice-pwd", m.icePwd);
  }

  lemma StreamText(m: Media)
    ensures MediaText(StreamLines(m.streamNumber)) && MediaText(FileLines(m))
  {
    hide Dec, DecInt, KeyLine;
    DecWord(m.streamNumber);
    DecWord(m.fileSize);
    DecIntWord(m.downloadSpeed);
    KeyText("streamnumber", Dec(m.streamNumber));
    KeyText("streamprofile", Dec(m.streamNumber));
    KeyText("stream", Dec(m.streamNumber));
    KeyText("streamMode", "Main");
    KeyText("streamMode", "Sub");
    KeyText("filesize", Dec(m.fileSize));
    KeyText("downloadspeed", DecInt(m.downloadSpeed));
  }

  lemma TailText(m: Media)
    requires CleanMedia(m)
    ensures MediaText(TailLines(m))
  {
    hide Dec;
    DecWord(m.ssrc);
  }

  lemma BodyText(m: Media)
    requires CleanMedia(m) && Printable(m)
    ensures MediaText(MediaBody(m))
  {
    hide TcpLines, DirectionName, RtpmapLines, MediaIceLines, CandidateLines, StreamLines, FileLines, AttributeLines,
         TailLines, Line, OwnLine;
    TcpText(m);
    MediaIceText(m);
    StreamText(m);
    RtpmapText(m.payloads);
    CandidateText(m.candidates);
    AttributeText(m.attributes);
    TailText(m);
  }

  lemma {:induction false} OwnOutside(lines: seq<string>)
    requires MediaText(lines)
    ensures Outside(lines) == [] && NoMediaLine(lines)
  {
    if lines != [] { OwnOutside(lines[1..]); }
  }

  lemma {:induction false} NumbersOneLine(payloads: seq<Payload>)
    ensures OneLine(PayloadNumbers(payloads))
  {
    hide Dec;
    if payloads != [] {
      DecWord(payloads[0].number);
      NumbersOneLine(payloads[1..]);
    }
  }

  lemma MediaHeadText(m: Media)
    ensures OneLine(Line('m', MediaHeadValue(m)))
  {
    hide Dec;
    DecWord(m.port);
    NumbersOneLine(m.payloads);
  }

  lemma {:induction false} AllMediaText(media: seq<Media>)
    requires CleanAll(media) && AllPrintable(media)
    ensures NoLf(AllMediaLines(media))
  {
    hide MediaBody, MediaHeadValue, Line, OwnLine, CleanMedia, Printable;
    if media != [] {
      MediaHeadText(media[0]);
      BodyText(media[0]);
      AllMediaText(media[1..]);
    }
  }

  lemma SectionBack(p: Parser, m: Media)
    requires p.ok && (p.inMedia ==> p.media != []) && CleanMedia(m)
    ensures Printable(m)
    ensures Run(p, MediaLines(m)) == Parser(p.session, p.media + [SurvivingMedia(m)], true, true)
  {
    hide MediaBody, MediaHeadValue, ParseMediaHead, Section, SurvivingMedia, CleanMedia, Printable, Outside, Step;
    BodyBack(m);
    HeadBack(m);
    BodyText(m);
    OwnOutside(MediaBody(m));
    var lines := MediaLines(m);
    assert lines[1..] == MediaBody(m);
    RunFirst(p, lines);
    assert SessionRun(p.session, []) == Ok(p.session);
  }

  lemma {:induction false} AllSectionsBack(p: Parser, media: seq<Media>)
    requires p.ok && (p.inMedia ==> p.media != []) && CleanAll(media)
    ensures AllPrintable(media)
    ensures Run(p, AllMediaLines(media))
         == Parser(p.session, p.media + SurvivingAll(media), p.inMedia || media != [], true)
    decreases |media|
  {
    hide MediaLines, SurvivingMedia, CleanMedia, Printable, Step;
    if media == [] {
      assert p.media + [] == p.media;
    } else {
      var m, rest := media[0], media[1..];
      SectionBack(p, m);
      var q := Run(p, MediaLines(m));
      AllSectionsBack(q, rest);
      assert AllPrintable(media) by {
        forall i | 0 <= i < |media| ensures Printable(media[i]) { if i > 0 { assert media[i] == rest[i - 1]; } }
      }
      RunAppend(p, MediaLines(m), AllMediaLines(rest));
      assert q.media + SurvivingAll(rest) == p.media + ([SurvivingMedia(m)] + SurvivingAll(rest));
    }
  }

  /** Exactly what comes back from `parse(generate(d))`, for any number of media, payloads,
      candidates, options and attributes. */
  lemma {:induction false} GeneratedThenParsed(s: Session, media: seq<Media>)
    requires CleanSession(s) && CleanAll(media)
    ensures AllPrintable(media)
    ensures Parsed(Generated(s, media)) == Parser(SurvivingSession(s), SurvivingAll(media), media != [], true)
  {
    hide SessionLines, SurvivingSession, CleanSession, CleanMedia, SurvivingAll, AllMediaLines, Step, Printable, SessionRun;
    var p := Parser(NO_SESSION, [], false, true);
    var q := p.(session := SurvivingSession(s));
    AllSectionsBack(q, media);
    var a, b := SessionLines(s), AllMediaLines(media);
    SessionLinesText(s);
    AllMediaText(media);
    assert NoLf(a + b);
    LinesOfCrLf(a + b);
    RunAppend(p, a, b);
    SessionBack(s);
    RunHead(p, a);
    assert [] + SurvivingAll(media) == SurvivingAll(media);
  }

  // ----- when nothing is lost -----

  /** The two attribute maps hold the same entries. */
  ghost predicate SameMap(a: seq<Attribute>, b: seq<Attribute>) {
    forall x :: x in a <==> x in b
  }

  ghost predicate SameSession(s: Session, t: Session) {
    s.(attributes := []) == t.(attributes := []) && SameMap(s.attributes, t.attributes)
  }

  ghost predicate SameMedia(m: Media, n: Media) {
    m.(attributes := []) == n.(attributes := []) && SameMap(m.attributes, n.attributes)
  }

  ghost predicate SameDescription(s: Session, media: seq<Media>, t: Session, other: seq<Media>) {
    && SameSession(s, t)
    && |media| == |other|
    && forall i :: 0 <= i < |media| ==> SameMedia(media[i], other[i])
  }

  predicate LosslessConnection(c: Connection) {
    if c.address == "" then c == NO_CONNECTION else c.numAddr > 1 || (c.numAddr == 1 && c.ttl >= 0)
  }

  predicate LosslessSession(s: Session) {
    && LosslessConnection(s.connection)
    && (s.uri.content == "" ==> s.uri == NO_URI) && (s.uri.kind == Http ==> s.uri.fileType == All)
    && (s.iceUfrag == "" <==> s.icePwd == "")
    && |s.iceOptions| <= 1
    && s.attributes == []
  }

  predicate LosslessCandidate(c: Candidate) {
    c.component != NoComponent && c.transport != UnknownTransport && (c.raddr == "" ==> c.rport == 0)
  }

  predicate LosslessMedia(m: Media) {
    && m.proto != UnknownTransport
    && (m.proto == Udp ==> m.setup == Unset && !m.newConnection)
    && (forall i :: 0 <= i < |m.payloads| ==> m.payloads[i].name != "")
    && (forall i :: 0 <= i < |m.candidates| ==> LosslessCandidate(m.candidates[i]))
    && m.connection == NO_CONNECTION
    && m.attributes == []
  }

  lemma {:induction false} NamedAll(payloads: seq<Payload>)
    ensures |Named(payloads)| <= |payloads|
    ensures Named(payloads) == payloads <==> forall i :: 0 <= i < |payloads| ==> payloads[i].name != ""
  {
    if payloads != [] {
      var rest := payloads[1..];
      NamedAll(rest);
      assert payloads == [payloads[0]] + rest;
      if payloads[0].name != "" {
        assert Named(payloads)[1..] == Named(rest);
      } else {
        assert Named(payloads) == Named(rest);
      }
    }
  }

  lemma SameCandidate(c: Candidate)
    ensures SurvivingCandidate(c) == c <==> LosslessCandidate(c)
  {
    hide Dec;
    assert Dec(c.rport) != "";
  }

  lemma {:induction false} SameCandidates(candidates: seq<Candidate>)
    ensures |SurvivingCandidates(candidates)| == |candidates|
    ensures SurvivingCandidates(candidates) == candidates
       <==> forall i :: 0 <= i < |candidates| ==> LosslessCandidate(candidates[i])
  {
    hide LosslessCandidate, SurvivingCandidate;
    if candidates != [] {
      var rest := candidates[1..];
      SameCandidate(candidates[0]);
      SameCandidates(rest);
      assert candidates == [candidates[0]] + rest;
      assert SurvivingCandidates(candidates)[1..] == SurvivingCandidates(rest);
    }
  }

  /** The key under which a free attribute comes back. */
  function ReadKey(a: Attribute): string { KeyValue(a.key + ['='] + a.value).key }

  lemma ReadKeyLonger(a: Attribute)
    requires ':' !in a.key
    ensures |ReadKey(a)| > |a.key|
  {
    var s := a.key + ['='] + a.value;
    assert forall i :: 0 <= i < |a.key| ==> s[i] == a.key[i];
    assert s[|a.key|] == '=';
  }

  lemma {:induction false} KeysKept(acc: seq<Attribute>, attributes: seq<Attribute>, key: string)
    requires HasKey(acc, key)
    ensures HasKey(SurvivingAttributes(acc, attributes), key)
    decreases |attributes|
  {
    hide KeyValue;
    if attributes != [] {
      var next := Emplace(acc, KeyValue(attributes[0].key + ['='] + attributes[0].value));
      var i :| 0 <= i < |acc| && acc[i].key == key;
      assert next[i].key == key;
      KeysKept(next, attributes[1..], key);
    }
  }

  lemma {:induction false} KeysRead(acc: seq<Attribute>, attributes: seq<Attribute>, i: nat)
    requires i < |attributes|
    ensures HasKey(SurvivingAttributes(acc, attributes), ReadKey(attributes[i]))
    decreases |attributes|
  {
    hide KeyValue;
    var a := KeyValue(attributes[0].key + ['='] + attributes[0].value);
    var next := Emplace(acc, a);
    if i == 0 {
      if !HasKey(acc, a.key) { assert next[|acc|].key == a.key; }
      KeysKept(next, attributes[1..], a.key);
    } else {
      KeysRead(next, attributes[1..], i - 1);
    }
  }

  lemma LongestKey(attributes: seq<Attribute>) returns (i: nat)
    requires attributes != []
    ensures i < |attributes| && forall j :: 0 <= j < |attributes| ==> |attributes[j].key| <= |attributes[i].key|
  {
    i := 0;
    for k := 1 to |attributes|
      invariant i < |attributes| && forall j :: 0 <= j < k ==> |attributes[j].key| <= |attributes[i].key|
    {
      if |attributes[k].key| > |attributes[i].key| { i := k; }
    }
  }

  /** Free attributes never survive: the longest key comes back longer. */
  lemma AttributesLost(attributes: seq<Attribute>)
    requires CleanAttributes(attributes)
    ensures SameMap(SurvivingAttributes([], attributes), attributes) <==> attributes == []
  {
    hide ReadKey, KeyValue;
    if attributes != [] {
      var i := LongestKey(attributes);
      ReadKeyLonger(attributes[i]);
      KeysRead([], attributes, i);
      var back := SurvivingAttributes([], attributes);
      var j :| 0 <= j < |back| && back[j].key == ReadKey(attributes[i]);
      assert back[j] in back && back[j] !in attributes;
    }
  }

  lemma SessionLoss(s: Session)
    requires CleanSession(s)
    ensures SameSession(SurvivingSession(s), s) <==> LosslessSession(s)
  {
    hide SurvivingAttributes, CleanAttributes, SameMap;
    AttributesLost(s.attributes);
    var options := s.iceOptions;
    if |options| == 1 { assert [options[0]] == options; }
  }

  lemma MediaLoss(m: Media)
    requires CleanMedia(m)
    ensures SameMedia(SurvivingMedia(m), m) <==> LosslessMedia(m)
  {
    hide SurvivingAttributes, CleanAttributes, SameMap, CleanCandidate, LosslessCandidate, Named, SurvivingCandidates;
    AttributesLost(m.attributes);
    NamedAll(m.payloads);
    SameCandidates(m.candidates);
  }

  lemma {:induction false} SurvivingAt(media: seq<Media>)
    ensures |SurvivingAll(media)| == |media|
    ensures forall i :: 0 <= i < |media| ==> SurvivingAll(media)[i] == SurvivingMedia(media[i])
  {
    hide SurvivingMedia;
    if media != [] { SurvivingAt(media[1..]); }
  }

  /** The round trip: a clean description comes back as it was exactly when nothing in it is of the
      kinds the printer drops or the parser reads differently. */
  lemma {:induction false} RoundTrip(s: Session, media: seq<Media>)
    requires CleanSession(s) && CleanAll(media)
    ensures AllPrintable(media) && Parsed(Generated(s, media)).ok
    ensures SameDescription(Parsed(Generated(s, media)).session, Parsed(Generated(s, media)).media, s, media)
       <==> LosslessSession(s) && forall i :: 0 <= i < |media| ==> LosslessMedia(media[i])
  {
    hide SurvivingSession, SurvivingMedia, CleanSession, CleanMedia, Generated, Parsed, Printable,
         LosslessMedia, LosslessSession, SameMedia, SameSession;
    GeneratedThenParsed(s, media);
    SessionLoss(s);
    SurvivingAt(media);
    forall i | 0 <= i < |media| ensures SameMedia(SurvivingMedia(media[i]), media[i]) <==> LosslessMedia(media[i]) {
      MediaLoss(media[i]);
    }
  }
}
