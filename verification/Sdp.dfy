/** Session descriptions: the data, the text that is printed for them, and how one line of text
    is read (sdp.h, sdp.cpp). A C++ exception is the outcome `Thrown`. */
module Sdp {
  import opened Text

  datatype Outcome<+T> = Ok(value: T) | Thrown

  datatype SessionType = UnknownSession | Play | Playback | Download | Talk
  datatype Transport = UnknownTransport | Udp | Tcp
  /** `Unset` is the value of a `SetupType` member nothing has been stored in. */
  datatype Setup = Active | Passive | ActPass | Unset
  datatype Direction = SendRecv | SendOnly | RecvOnly | Inactive
  datatype AddressType = Ip4 | Ip6
  datatype CandidateType = Host | Srflx | Prflx | Relay | UnknownCandidate
  /** `NoComponent` is the value 0 of a value-initialised component identifier. */
  datatype Component = NoComponent | Rtp | Rtcp
  datatype UriType = Simple | Http
  datatype FileType = All | Manual | Alarm | Time
  datatype MediaType = Video | Audio

  datatype Payload = Payload(number: u8, sampleRate: u32, name: string)
  datatype Candidate = Candidate(
    foundation: string, component: Component, transport: Transport, kind: CandidateType,
    port: u16, rport: u16, address: string, raddr: string)
  datatype Origin = Origin(
    username: string, sessionId: string, sessionVersion: string, netType: string,
    addrType: AddressType, address: string)
  datatype Connection = Connection(netType: string, addrType: AddressType, address: string, ttl: i32, numAddr: i32)
  datatype Uri = Uri(kind: UriType, fileType: FileType, content: string)
  /** An entry of an `unordered_map`; the sequence holding it is the map in its iteration order. */
  datatype Attribute = Attribute(key: string, value: string)

  datatype Session = Session(
    version: i32, origin: Origin, kind: SessionType, connection: Connection, uri: Uri,
    start: u64, end: u64, iceLite: bool, iceUfrag: string, icePwd: string,
    iceOptions: seq<string>, attributes: seq<Attribute>)
  datatype Media = Media(
    kind: MediaType, port: u16, proto: Transport, setup: Setup, newConnection: bool,
    direction: Direction, payloads: seq<Payload>, connection: Connection,
    iceUfrag: string, icePwd: string, candidates: seq<Candidate>,
    streamNumber: u16, fileSize: u64, downloadSpeed: i32,
    attributes: seq<Attribute>, ssrc: u32, fParam: string)

  const NO_ORIGIN := Origin("", "0", "0", "IN", Ip4, "")
  const NO_CONNECTION := Connection("IN", Ip4, "", 0, 1)
  const NO_URI := Uri(Simple, All, "")
  const NO_CANDIDATE := Candidate("", NoComponent, UnknownTransport, UnknownCandidate, 0, 0, "", "")
  const NO_SESSION := Session(0, NO_ORIGIN, Play, NO_CONNECTION, NO_URI, 0, 0, false, "", "", [], [])

  /** The media description `mediaParser` starts from. */
  function FreshMedia(kind: MediaType, port: u16, proto: Transport): Media {
    Media(kind, port, proto, Unset, false, SendRecv, [], NO_CONNECTION, "", "", [], 0, 0, 0, [], 0, "")
  }

  // ----- printing -----

  function AddressTypeName(t: AddressType): string { if t == Ip6 then "IP6" else "IP4" }

  function SessionName(t: SessionType): string {
    match t
    case UnknownSession => ""
    case Play => "Play"
    case Playback => "Playback"
    case Download => "Download"
    case Talk => "Talk"
  }

  function ProtoName(t: Transport): string { if t == Tcp then "TCP/RTP/AVP" else "RTP/AVP" }

  function SetupName(t: Setup): string
    requires t != Unset
  {
    match t case Active => "active" case Passive => "passive" case ActPass => "actpass"
  }

  function DirectionName(d: Direction): string {
    match d
    case SendRecv => "sendrecv"
    case SendOnly => "sendonly"
    case RecvOnly => "recvonly"
    case Inactive => "inactive"
  }

  function CandidateName(t: CandidateType): string {
    match t
    case Host => "host"
    case Srflx => "srflx"
    case Prflx => "prflx"
    case Relay => "relay"
    case UnknownCandidate => "unknown"
  }

  function FileTypeNumber(t: FileType): (n: nat)
    ensures n <= 3
  {
    match t case All => 0 case Manual => 1 case Alarm => 2 case Time => 3
  }

  function ComponentNumber(c: Component): nat {
    match c case NoComponent => 0 case Rtp => 1 case Rtcp => 2
  }

  /** The table of type preferences has four entries: an unknown type has no priority. */
  function TypePreference(t: CandidateType): bv32
    requires t != UnknownCandidate
  {
    match t case Host => 126 case Srflx => 100 case Prflx => 110 case Relay => 0
  }

  function ComponentBits(c: Component): bv32 {
    match c case NoComponent => 256 case Rtp => 255 case Rtcp => 254
  }

  function CalculatePriority(kind: CandidateType, component: Component): bv32
    requires kind != UnknownCandidate
  {
    (TypePreference(kind) << 24) | (65535 << 8) | ComponentBits(component)
  }

  /** The priority is the formula of section 5.1.2.1 of RFC 8445 with local preference 65535. */
  lemma PriorityFormula(kind: CandidateType, component: Component)
    requires kind != UnknownCandidate && component != NoComponent
    ensures CalculatePriority(kind, component) as nat
         == (match kind case Host => 126 case Srflx => 100 case Prflx => 110 case _ => 0) * 0x100_0000 + 65535 * 0x100
            + (256 - if component == Rtp then 1 else 2)
    ensures 0 < CalculatePriority(kind, component) as nat < 0x8000_0000
  {
    match (kind, component)
    case (Host, Rtp) => assert CalculatePriority(kind, component) == 0x7EFF_FFFF;
    case (Host, Rtcp) => assert CalculatePriority(kind, component) == 0x7EFF_FFFE;
    case (Srflx, Rtp) => assert CalculatePriority(kind, component) == 0x64FF_FFFF;
    case (Srflx, Rtcp) => assert CalculatePriority(kind, component) == 0x64FF_FFFE;
    case (Prflx, Rtp) => assert CalculatePriority(kind, component) == 0x6EFF_FFFF;
    case (Prflx, Rtcp) => assert CalculatePriority(kind, component) == 0x6EFF_FFFE;
    case (Relay, Rtp) => assert CalculatePriority(kind, component) == 0x00FF_FFFF;
    case (Relay, Rtcp) => assert CalculatePriority(kind, component) == 0x00FF_FFFE;
  }

  /** A line of the description. */
  function Line(field: char, value: string): (l: string)
    ensures |l| == |value| + 2 && l[0] == field && l[1] == '=' && l[2..] == value
  {
    [field, '='] + value
  }

  /** An `a=` line holding a key and a value. */
  function KeyLine(key: string, value: string): string { Line('a', key + [':'] + value) }

  function OriginParts(o: Origin): seq<string> {
    [o.username, o.sessionId, o.sessionVersion, o.netType, AddressTypeName(o.addrType), o.address]
  }

  function UriLines(u: Uri): seq<string> {
    if u.content == "" then []
    else [Line('u', if u.kind == Http then u.content else u.content + [':'] + Dec(FileTypeNumber(u.fileType)))]
  }

  function AddressParts(c: Connection): seq<string> {
    if c.numAddr > 1 then [c.address, DecInt(c.ttl), DecInt(c.numAddr)]
    else if c.ttl > 0 then [c.address, DecInt(c.ttl)]
    else [c.address]
  }

  function ConnectionLines(c: Connection): seq<string> {
    if c.address == "" then []
    else [Line('c', Join([c.netType, AddressTypeName(c.addrType), Join(AddressParts(c), '/')], ' '))]
  }

  function OptionLines(options: seq<string>): seq<string> {
    if options == [] then [] else [KeyLine("ice-options", options[0])] + OptionLines(options[1..])
  }

  function AttributeLines(attributes: seq<Attribute>): seq<string> {
    if attributes == [] then []
    else [Line('a', attributes[0].key + ['='] + attributes[0].value)] + AttributeLines(attributes[1..])
  }

  function SessionHead(s: Session): seq<string> {
    [Line('v', DecInt(s.version)), Line('o', Join(OriginParts(s.origin), ' ')), Line('s', SessionName(s.kind))]
  }

  function TimeLine(s: Session): string { Line('t', Join([Dec(s.start), Dec(s.end)], ' ')) }

  function SessionIceLines(s: Session): seq<string> {
    (if s.iceUfrag != "" && s.icePwd != ""
     then [KeyLine("ice-ufrag", s.iceUfrag), KeyLine("ice-pwd", s.icePwd)] else [])
    + (if s.iceLite then [Line('a', "ice-lite")] else [])
  }

  function SessionLines(s: Session): seq<string> {
    SessionHead(s) + UriLines(s.uri) + ConnectionLines(s.connection) + [TimeLine(s)]
    + SessionIceLines(s) + OptionLines(s.iceOptions) + AttributeLines(s.attributes)
  }

  function PayloadNumbers(payloads: seq<Payload>): string {
    if payloads == [] then "" else [' '] + Dec(payloads[0].number) + PayloadNumbers(payloads[1..])
  }

  function MediaHeadValue(m: Media): string {
    (if m.kind == Video then "video" else "audio") + [' '] + Dec(m.port) + [' '] + ProtoName(m.proto)
    + PayloadNumbers(m.payloads)
  }

  function TcpLines(m: Media): seq<string>
    requires m.proto == Tcp ==> m.setup != Unset
  {
    if m.proto != Tcp then []
    else [KeyLine("setup", SetupName(m.setup)),
          KeyLine("connection", if m.newConnection then "new" else "existing")]
  }

  function RtpmapValue(p: Payload): string {
    Dec(p.number) + [' '] + p.name + ['/'] + Dec(p.sampleRate)
  }

  function RtpmapLines(payloads: seq<Payload>): seq<string> {
    if payloads == [] then []
    else (if payloads[0].name != "" then [KeyLine("rtpmap", RtpmapValue(payloads[0]))] else [])
         + RtpmapLines(payloads[1..])
  }

  function MediaIceLines(m: Media): seq<string> {
    (if m.iceUfrag != "" then [KeyLine("ice-ufrag", m.iceUfrag)] else [])
    + (if m.icePwd != "" then [KeyLine("ice-pwd", m.icePwd)] else [])
  }

  function CandidateParts(c: Candidate): seq<string>
    requires c.kind != UnknownCandidate
  {
    [c.foundation, Dec(ComponentNumber(c.component)), if c.transport == Udp then "UDP" else "TCP",
     Dec(CalculatePriority(c.kind, c.component) as nat), c.address, Dec(c.port), "typ", CandidateName(c.kind)]
    + (if c.raddr != "" then ["raddr", c.raddr] else [])
    + (if c.rport != 0 then ["rport", Dec(c.rport)] else [])
  }

  predicate KnownTypes(candidates: seq<Candidate>) {
    forall i :: 0 <= i < |candidates| ==> candidates[i].kind != UnknownCandidate
  }

  function CandidateLines(candidates: seq<Candidate>): seq<string>
    requires KnownTypes(candidates)
  {
    if candidates == [] then []
    else
      assert KnownTypes(candidates[1..]);
      [KeyLine("candidate", Join(CandidateParts(candidates[0]), ' '))] + CandidateLines(candidates[1..])
  }

  function StreamLines(n: u16): seq<string> {
    [KeyLine("streamnumber", Dec(n)), KeyLine("streamprofile", Dec(n)), KeyLine("stream", Dec(n))]
    + (if n == 0 then [KeyLine("streamMode", "Main")] else if n == 1 then [KeyLine("streamMode", "Sub")] else [])
  }

  function FileLines(m: Media): seq<string> {
    (if m.fileSize != 0 then [KeyLine("filesize", Dec(m.fileSize))] else [])
    + (if m.downloadSpeed != 0 then [KeyLine("downloadspeed", DecInt(m.downloadSpeed))] else [])
  }

  function TailLines(m: Media): seq<string> {
    (if m.ssrc != 0 then [Line('y', Padded(m.ssrc, 10))] else [])
    + (if m.fParam != "" then [Line('f', m.fParam)] else [])
  }

  /** What the printer may be given: it looks up the candidate types and, for TCP, the setup role. */
  predicate Printable(m: Media) {
    KnownTypes(m.candidates) && (m.proto == Tcp ==> m.setup != Unset)
  }

  function MediaBody(m: Media): seq<string>
    requires Printable(m)
  {
    TcpLines(m) + [Line('a', DirectionName(m.direction))] + RtpmapLines(m.payloads) + MediaIceLines(m)
    + CandidateLines(m.candidates) + StreamLines(m.streamNumber) + FileLines(m)
    + AttributeLines(m.attributes) + TailLines(m)
  }

  function MediaLines(m: Media): seq<string>
    requires Printable(m)
  {
    [Line('m', MediaHeadValue(m))] + MediaBody(m)
  }

  predicate AllPrintable(media: seq<Media>) {
    forall i :: 0 <= i < |media| ==> Printable(media[i])
  }

  function AllMediaLines(media: seq<Media>): seq<string>
    requires AllPrintable(media)
  {
    if media == [] then [] else MediaLines(media[0]) + AllMediaLines(media[1..])
  }

  /** The text `generate` produces. */
  function Generated(session: Session, media: seq<Media>): string
    requires AllPrintable(media)
  {
    Terminated(SessionLines(session) + AllMediaLines(media), "\r\n")
  }

  // ----- reading values -----

  function ParseAddressType(s: string): Outcome<AddressType> {
    if s == "IP4" then Ok(Ip4) else if s == "IP6" then Ok(Ip6) else Thrown
  }

  function ParseOrigin(value: string): Outcome<Origin> {
    var parts := Split(value, ' ');
    if |parts| < 6 then Ok(NO_ORIGIN)
    else match ParseAddressType(parts[4])
      case Ok(t) => Ok(Origin(parts[0], parts[1], parts[2], parts[3], t, parts[5]))
      case Thrown => Thrown
  }

  function OrInt(n: Option<i32>, prior: i32): i32 { match n case Some(v) => v case None => prior }
  function OrUnsigned(n: Option<u32>, prior: u32): u32 { match n case Some(v) => v case None => prior }
  function OrUnsigned64(n: Option<u64>, prior: u64): u64 { match n case Some(v) => v case None => prior }

  function ParseConnection(value: string): Outcome<Connection> {
    var parts := Split(value, ' ');
    if |parts| < 3 then Ok(NO_CONNECTION)
    else match ParseAddressType(parts[1])
      case Thrown => Thrown
      case Ok(t) =>
        var a := Split(parts[2], '/');
        Ok(Connection(parts[0], t, if a == [] then "" else a[0],
                      if |a| > 1 then OrInt(ToInt(a[1]), 0) else 0,
                      if |a| > 2 then OrInt(ToInt(a[2]), 1) else 1))
  }

  function ParseCandidateType(s: string): CandidateType {
    if s == "host" then Host else if s == "srflx" then Srflx else if s == "prflx" then Prflx
    else if s == "relay" then Relay else UnknownCandidate
  }

  /** `static_cast<uint16_t>(std::stoul(s))`; `stoul` throws without digits or past 64 bits. */
  function Stoul16(s: string): Option<u16> {
    match ScanInt(s)
    case Some(n) => if -0x1_0000_0000_0000_0000 < n < 0x1_0000_0000_0000_0000 then Some(n % 0x1_0000) else None
    case None => None
  }

  function ParseCandidate(value: string): Candidate {
    var parts := Split(value, ' ');
    if |parts| < 8 then NO_CANDIDATE
    else
      var c := NO_CANDIDATE.(foundation := parts[0], component := if parts[1] == "2" then Rtcp else Rtp,
                             transport := if parts[2] == "TCP" then Tcp else Udp, address := parts[4]);
      match Stoul16(parts[5])
      case None => c
      case Some(port) =>
        c.(port := port, kind := ParseCandidateType(parts[7]),
           raddr := if |parts| > 9 then parts[9] else "",
           rport := if |parts| > 11 then OrUnsigned(ToUnsigned(parts[11]), 0) % 0x1_0000 else 0)
  }

  function ParseSessionType(s: string): SessionType {
    if s == "Play" then Play else if s == "Playback" then Playback else if s == "Download" then Download
    else if s == "Talk" then Talk else UnknownSession
  }

  function StartsWith(s: string, prefix: string): bool {
    |prefix| <= |s| && s[..|prefix|] == prefix
  }

  function ParseUri(value: string): Uri {
    if StartsWith(value, "http://") then Uri(Http, All, value)
    else
      var colon := Find(value, ':');
      var param := if colon < |value| then value[colon + 1..] else "";
      Uri(Simple, if param == "1" then Manual else if param == "2" then Alarm else if param == "3" then Time else All,
          value[..colon])
  }

  function WordLength(s: string): (n: nat)
    ensures n <= |s|
    ensures forall i :: 0 <= i < n ==> !IsSpace(s[i])
    ensures n < |s| ==> IsSpace(s[n])
  {
    if s == [] || IsSpace(s[0]) then 0 else 1 + WordLength(s[1..])
  }

  /** `iss >> port` on what follows the media type: the port and the text left in the stream,
      which is empty once extraction has failed. */
  function ExtractPort(s: string): (u16, string) {
    var t := SkipSpaces(s);
    var d := DigitRun(t);
    if d == 0 then (0, "")
    else if Value(t[..d]) >= 0x1_0000 then (0xFFFF, "")
    else (Value(t[..d]), t[d..])
  }

  function ParseMediaHead(value: string): Media {
    var t := SkipSpaces(value);
    var n := WordLength(t);
    var (port, rest) := ExtractPort(t[n..]);
    var w := SkipSpaces(rest);
    FreshMedia(if t[..n] == "video" then Video else Audio, port,
               if w[..WordLength(w)] == "TCP/RTP/AVP" then Tcp else Udp)
  }

  /** The payload an rtpmap value stands for; `None` when the value is ignored. */
  function ParseRtpmap(attr: string): Option<Payload> {
    var pos := Find(attr, ' ');
    if pos == |attr| then None
    else
      var next := attr[pos + 1..];
      var slash := FindLast(next, '/');
      if slash == |next| then None
      else Some(Payload(OrUnsigned(ToUnsigned(attr), 0) % 0x100, OrUnsigned(ToUnsigned(next[slash + 1..]), 0), next[..slash]))
  }

  // ----- reading lines -----

  datatype Key =
    | KUfrag | KPwd | KOptions | KLite | KCandidate | KDirection(d: Direction) | KSetup | KConnection | KRtpmap
    | KStream | KStreamMode | KFileSize | KDownloadSpeed | KOther

  function KeyOf(k: string): Key {
    if k == "ice-ufrag" then KUfrag
    else if k == "ice-pwd" then KPwd
    else if k == "ice-options" then KOptions
    else if k == "ice-lite" then KLite
    else if k == "candidate" then KCandidate
    else if k == "sendonly" then KDirection(SendOnly)
    else if k == "recvonly" then KDirection(RecvOnly)
    else if k == "sendrecv" then KDirection(SendRecv)
    else if k == "inactive" then KDirection(Inactive)
    else if k == "setup" then KSetup
    else if k == "connection" then KConnection
    else if k == "rtpmap" then KRtpmap
    else if k == "streamnumber" || k == "streamprofile" || k == "stream" then KStream
    else if k == "streamMode" then KStreamMode
    else if k == "filesize" then KFileSize
    else if k == "downloadspeed" then KDownloadSpeed
    else KOther
  }

  function KeyValue(attr: string): Attribute {
    var pos := Find(attr, ':');
    if pos == |attr| then Attribute(attr, "") else Attribute(attr[..pos], attr[pos + 1..])
  }

  predicate HasKey(attributes: seq<Attribute>, key: string) {
    exists i :: 0 <= i < |attributes| && attributes[i].key == key
  }

  /** `attributes.emplace(k, v)` */
  function Emplace(attributes: seq<Attribute>, a: Attribute): seq<Attribute> {
    if HasKey(attributes, a.key) then attributes else attributes + [a]
  }

  /** A C string made of a view ends at the first NUL. */
  function CString(s: string): string { s[..Find(s, '\0')] }

  function SessionAttribute(s: Session, a: Attribute): Session {
    match KeyOf(a.key)
    case KUfrag => s.(iceUfrag := a.value)
    case KPwd => s.(icePwd := a.value)
    case KOptions => s.(iceOptions := Split(CString(a.value), ' '))
    case KLite => s.(iceLite := true)
    case _ => s.(attributes := Emplace(s.attributes, a))
  }

  function MediaAttribute(m: Media, a: Attribute): Media {
    var v := a.value;
    var unhandled := m.(attributes := Emplace(m.attributes, a));
    match KeyOf(a.key)
    case KUfrag => m.(iceUfrag := v)
    case KPwd => m.(icePwd := v)
    case KCandidate => m.(candidates := m.candidates + [ParseCandidate(v)])
    case KDirection(d) => m.(direction := d)
    case KSetup => m.(setup := if v == "active" then Active else if v == "passive" then Passive else ActPass)
    case KConnection => m.(newConnection := v == "new")
    case KRtpmap => (match ParseRtpmap(v) case Some(p) => m.(payloads := m.payloads + [p]) case None => m)
    case KStream => (match ToUnsigned(v) case Some(n) => m.(streamNumber := n % 0x1_0000) case None => m)
    case KStreamMode =>
      if v == "sub" || v == "Sub" then m.(streamNumber := 1)
      else if v == "main" || v == "Main" then m.(streamNumber := 0)
      else unhandled
    case KFileSize => (match ToUnsigned64(v) case Some(n) => m.(fileSize := n) case None => unhandled)
    case KDownloadSpeed => (match ToInt(v) case Some(n) => m.(downloadSpeed := n) case None => unhandled)
    case _ => unhandled
  }

  /** Lines without `=` in second place are skipped. */
  predicate IsField(line: string) { |line| >= 2 && line[1] == '=' }

  predicate IsMediaLine(line: string) { IsField(line) && line[0] == 'm' }

  /** The fields that inside a media section belong to that section. */
  predicate IsMediaField(c: char) { c == 'a' || c == 'c' || c == 'y' || c == 'f' }

  /** The effect of a line on the session when no media section is open, and inside a section that
      of the other lines. */
  function SessionStep(s: Session, line: string): Outcome<Session> {
    if !IsField(line) then Ok(s)
    else
      var value := line[2..];
      match line[0]
      case 'v' => Ok(s.(version := OrInt(ToInt(value), s.version)))
      case 'o' => (match ParseOrigin(value) case Ok(o) => Ok(s.(origin := o)) case Thrown => Thrown)
      case 's' => Ok(s.(kind := ParseSessionType(value)))
      case 'u' => Ok(s.(uri := ParseUri(value)))
      case 'c' => (match ParseConnection(value) case Ok(c) => Ok(s.(connection := c)) case Thrown => Thrown)
      case 't' =>
        var part := Split(value, ' ');
        if |part| == 2
        then Ok(s.(start := OrUnsigned64(ToUnsigned64(part[0]), s.start), end := OrUnsigned64(ToUnsigned64(part[1]), s.end)))
        else Ok(s)
      case 'a' => Ok(SessionAttribute(s, KeyValue(value)))
      case _ => Ok(s)
  }

  /** The effect of a line on the open media section. */
  function MediaStep(m: Media, line: string): Outcome<Media> {
    if !IsField(line) then Ok(m)
    else
      var value := line[2..];
      match line[0]
      case 'c' => (match ParseConnection(value) case Ok(c) => Ok(m.(connection := c)) case Thrown => Thrown)
      case 'a' => Ok(MediaAttribute(m, KeyValue(value)))
      case 'y' => Ok(m.(ssrc := OrUnsigned(ToUnsigned(value), m.ssrc)))
      case 'f' => Ok(m.(fParam := value))
      case _ => Ok(m)
  }

  /** The parser between two lines; the open section is the last one. */
  datatype Parser = Parser(session: Session, media: seq<Media>, inMedia: bool, ok: bool)

  function Step(p: Parser, line: string): (q: Parser)
    requires p.inMedia ==> p.media != []
    ensures q.inMedia ==> q.media != []
  {
    if !p.ok then p
    else if IsMediaLine(line) then p.(media := p.media + [ParseMediaHead(line[2..])], inMedia := true)
    else if p.inMedia && IsField(line) && IsMediaField(line[0]) then
      var last := |p.media| - 1;
      match MediaStep(p.media[last], line)
      case Ok(m) => p.(media := p.media[last := m])
      case Thrown => p.(ok := false)
    else
      match SessionStep(p.session, line)
      case Ok(s) => p.(session := s)
      case Thrown => p.(ok := false)
  }

  function Run(p: Parser, lines: seq<string>): (q: Parser)
    requires p.inMedia ==> p.media != []
    ensures q.inMedia ==> q.media != []
    decreases |lines|
  {
    if lines == [] then p else Run(Step(p, lines[0]), lines[1..])
  }

  /** `parse` on an object already holding `session` and `media`. */
  function ParsedOnto(session: Session, media: seq<Media>, text: string): Parser {
    Run(Parser(session, media, false, true), Lines(text))
  }

  /** `parse` on a new object. */
  function Parsed(text: string): Parser {
    ParsedOnto(NO_SESSION, [], text)
  }

  lemma {:induction false} RunAppend(p: Parser, a: seq<string>, b: seq<string>)
    requires p.inMedia ==> p.media != []
    ensures Run(p, a + b) == Run(Run(p, a), b)
    decreases |a|
  {
    if a == [] {
      assert a + b == b;
    } else {
      assert (a + b)[1..] == a[1..] + b;
      RunAppend(Step(p, a[0]), a[1..], b);
    }
  }

  lemma {:induction false} RunFailed(p: Parser, lines: seq<string>)
    requires p.inMedia ==> p.media != []
    requires !p.ok
    ensures Run(p, lines) == p
    decreases |lines|
  {
    if lines != [] { RunFailed(p, lines[1..]); }
  }
}
