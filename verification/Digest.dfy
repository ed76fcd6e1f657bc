/** The digest challenge, the answer to it and its verification (sip_common.cpp). MD5 and SHA-256
    are two arbitrary functions; random nonces are parameters. */
module Digest {
  import opened Text

  datatype Hashes = Hashes(md5: string -> string, sha: string -> string)

  /** A parsed header; `Throws` when `substr` starts past the end of the header. */
  datatype Header = Fields(fields: map<string, string>) | Throws

  // ----- parsing -----

  predicate OccursAt(s: string, part: string, k: nat) {
    k + |part| <= |s| && s[k..k + |part|] == part
  }

  /** The first position where `part` occurs, or `|s|` when it does not. */
  function FindText(s: string, part: string): (i: nat)
    requires part != []
    ensures i <= |s|
    ensures i < |s| ==> OccursAt(s, part, i)
    ensures forall k :: 0 <= k < i ==> !OccursAt(s, part, k)
  {
    if |s| < |part| then |s|
    else if OccursAt(s, part, 0) then 0
    else
      var i := FindText(s[1..], part);
      assert forall k {:trigger OccursAt(s, part, k)} :: 0 < k && OccursAt(s, part, k) ==> OccursAt(s[1..], part, k - 1) by {
        forall k | 0 < k && OccursAt(s, part, k) ensures OccursAt(s[1..], part, k - 1) {
          assert s[1..][k - 1..k - 1 + |part|] == s[k..k + |part|];
        }
      }
      assert i < |s| - 1 ==> s[1 + i..1 + i + |part|] == s[1..][i..i + |part|];
      1 + i
  }

  predicate IsBlank(c: char) { c == ' ' || c == '\t' || c == '\r' || c == '\n' }

  function TrimLeft(s: string): string {
    if s != [] && IsBlank(s[0]) then TrimLeft(s[1..]) else s
  }

  function TrimRight(s: string): string {
    if s != [] && IsBlank(s[|s| - 1]) then TrimRight(s[..|s| - 1]) else s
  }

  /** A value that starts with a quote loses its first and its last character. */
  function Unquote(v: string): string {
    if v != [] && v[0] == '"' then (if |v| >= 2 then v[1..|v| - 1] else "") else v
  }

  /** One comma-separated piece added to the fields. */
  function AddPiece(fields: map<string, string>, piece: string): map<string, string> {
    var pos := Find(piece, '=');
    if pos == |piece| then fields
    else fields[TrimRight(TrimLeft(piece[..pos])) := Unquote(piece[pos + 1..])]
  }

  function AddPieces(fields: map<string, string>, pieces: seq<string>): map<string, string>
    decreases |pieces|
  {
    if pieces == [] then fields else AddPieces(AddPiece(fields, pieces[0]), pieces[1..])
  }

  const DIGEST := "Digest"

  /** `parseAuthorizationHeader` */
  function ParsedHeader(header: string): Header {
    var start := FindText(header, DIGEST);
    if start == |header| then Fields(map[])
    else if start + 7 > |header| then Throws
    else Fields(AddPieces(map[], Pieces(header[start + 7..], ',')))
  }

  method ParseAuthorizationHeader(header: string) returns (r: Header)
    ensures r == ParsedHeader(header)
  {
    hide TrimLeft, TrimRight, Pieces, AddPieces;
    var start := FindText(header, DIGEST);
    if start == |header| { return Fields(map[]); }
    if start + 7 > |header| { return Throws; }
    var unread := header[start + 7..];
    var fields: map<string, string> := map[];
    while unread != ""
      invariant start + 7 <= |header|
      invariant AddPieces(fields, Pieces(unread, ',')) == AddPieces(map[], Pieces(header[start + 7..], ','))
      decreases |unread|
    {
      var comma := Find(unread, ',');
      var keyValue := unread[..comma];
      ghost var text := unread;
      unread := if comma == |unread| then "" else unread[comma + 1..];
      NextPiece(text, ',');
      AddPiecesCons(fields, keyValue, Pieces(unread, ','));
      var pos := Find(keyValue, '=');
      if pos == |keyValue| { continue; }
      var key, value := keyValue[..pos], keyValue[pos + 1..];
      if value != "" && value[0] == '"' { value := if |value| >= 2 then value[1..|value| - 1] else ""; }
      key := TrimRight(TrimLeft(key));
      fields := fields[key := value];
    }
    NoPieces(fields);
    r := Fields(fields);
  }

  lemma NoPieces(fields: map<string, string>)
    ensures AddPieces(fields, Pieces("", ',')) == fields
  {}

  lemma NoneAdded(fields: map<string, string>)
    ensures AddPieces(fields, []) == fields
  {}

  lemma NextPiece(text: string, d: char)
    requires text != ""
    ensures var i := Find(text, d);
            Pieces(text, d) == [text[..i]] + Pieces(if i == |text| then "" else text[i + 1..], d)
  {
    assert text[..|text|] == text;
  }

  // ----- challenge, answer, verification -----

  function Challenge(realm: string, nonce: string): string {
    "Digest " + Quoted("realm", realm) + ", " + Quoted("nonce", nonce)
  }

  function Get(fields: map<string, string>, key: string, missing: string): string {
    if key in fields then fields[key] else missing
  }

  function HashOf(hs: Hashes, algorithm: string): string -> string {
    if algorithm == "MD5" then hs.md5 else hs.sha
  }

  function A1(user: string, realm: string, password: string): string {
    user + ":" + realm + ":" + password
  }

  /** The body is hashed for `auth-int` only; a message without one contributes a bare colon. */
  function A2(h: string -> string, method': string, uri: string, qop: string, body: string): string {
    method' + ":" + uri + if qop == "auth-int" then ":" + (if body != "" then h(body) else "") else ""
  }

  function Response(h: string -> string, a1: string, a2: string, nonce: string, qop: string, nc: string, cnonce: string): string {
    if qop == "" then h(h(a1) + ":" + nonce + ":" + h(a2))
    else h(h(a1) + ":" + nonce + ":" + nc + ":" + cnonce + ":" + qop + ":" + h(a2))
  }

  /** `std::hex` with width 8. */
  function HexDigit(n: nat): char
    requires n < 16
  {
    if n < 10 then DigitChar(n) else ('a' as int + n - 10) as char
  }

  function Hex8(n: nat, width: nat): string {
    if width == 0 then "" else Hex8(n / 16, width - 1) + [HexDigit(n % 16)]
  }

  /** The nonce a client last answered and how often. */
  datatype NonceCount = NonceCount(nonce: string, count: i32)

  /** `int` compared with `0xFFFFFFFF` is equal only at -1: the counter is never wrapped before it overflows. */
  function Counted(c: NonceCount, nonce: string): NonceCount
    requires c.count < 0x7FFF_FFFF
  {
    if c.nonce == nonce then NonceCount(nonce, if c.count + 1 == -1 then 1 else c.count + 1) else NonceCount(nonce, 1)
  }

  datatype Client = Client(user: string, password: string, uri: string, cnonce: string)

  function Plain(key: string, value: string): string { key + "=" + value }

  function Quoted(key: string, value: string): string { key + "=\"" + value + "\"" }

  function AnswerPieces(hs: Hashes, fields: map<string, string>, body: string, c: Client, nc: string): seq<string>
    requires "realm" in fields && "nonce" in fields
  {
    var realm, nonce := fields["realm"], fields["nonce"];
    var qop, algorithm := Get(fields, "qop", ""), Get(fields, "algorithm", "MD5");
    var h := HashOf(hs, algorithm);
    var response := Response(h, A1(c.user, realm, c.password), A2(h, "REGISTER", c.uri, qop, body), nonce, qop, nc, c.cnonce);
    [Quoted("username", c.user), " " + Quoted("realm", realm), " " + Quoted("nonce", nonce), " " + Quoted("uri", c.uri),
     " " + Quoted("response", response), " " + Plain("algorithm", algorithm)]
    + if qop == "" then [] else [" " + Plain("qop", qop), " " + Plain("nc", nc), " " + Quoted("cnonce", c.cnonce)]
  }

  /** `generate_authorization`: the header, empty when the challenge lacks what is needed, and the
      counter afterwards. `None` when parsing the challenge throws. */
  function Answer(hs: Hashes, challenge: string, body: string, c: Client, count: NonceCount): Option<(string, NonceCount)>
    requires count.count < 0x7FFF_FFFF
  {
    if challenge == "" then Some(("", count))
    else match ParsedHeader(challenge)
      case Throws => None
      case Fields(fields) =>
        if "realm" !in fields || "nonce" !in fields then Some(("", count))
        else
          var next := Counted(count, fields["nonce"]);
          var nc := Hex8(next.count as int % 0x1_0000_0000, 8);
          Some(("Digest " + Join(AnswerPieces(hs, fields, body, c, nc), ','), next))
  }

  /** `verify_authorization`; a missing field reads as the empty string. `None` when parsing throws. */
  function Verify(hs: Hashes, header: string, method': string, body: string, user: string, password: string): Option<bool> {
    if header == "" then Some(false)
    else match ParsedHeader(header)
      case Throws => None
      case Fields(fields) =>
        if fields == map[] then Some(false)
        else
          var h := HashOf(hs, Get(fields, "algorithm", "MD5"));
          var qop := Get(fields, "qop", "");
          var a1 := A1(user, Get(fields, "realm", ""), password);
          var a2 := A2(h, method', Get(fields, "uri", ""), qop, body);
          Some(Response(h, a1, a2, Get(fields, "nonce", ""), qop, Get(fields, "nc", ""), Get(fields, "cnonce", ""))
               == Get(fields, "response", ""))
  }

  // ----- pieces of a printed header -----

  lemma {:induction false} PiecesJoin(parts: seq<string>, d: char)
    requires forall i :: 0 <= i < |parts| ==> d !in parts[i] && parts[i] != []
    ensures Pieces(Join(parts, d), d) == parts
  {
    if |parts| == 1 {
      PiecesWhole(parts[0], d);
    } else if |parts| > 1 {
      PiecesFirst(parts[0], Join(parts[1..], d), d);
      PiecesJoin(parts[1..], d);
    }
  }

  lemma DigestAtFront(rest: string)
    ensures ParsedHeader("Digest " + rest) == Fields(AddPieces(map[], Pieces(rest, ',')))
  {
    hide AddPieces, Pieces;
    var s := "Digest " + rest;
    assert s[0..6] == DIGEST;
    assert FindText(s, DIGEST) == 0;
    assert s[7..] == rest;
  }

  predicate PlainKey(key: string) {
    '=' !in key && ',' !in key && key != [] && !IsBlank(key[0]) && !IsBlank(key[|key| - 1])
  }

  /** The blank in front of a key is dropped. */
  lemma PieceAdded(fields: map<string, string>, key: string, v: string)
    requires PlainKey(key)
    ensures AddPiece(fields, Plain(key, v)) == fields[key := Unquote(v)]
    ensures AddPiece(fields, " " + Plain(key, v)) == fields[key := Unquote(v)]
  {
    var p := Plain(key, v);
    var q := " " + p;
    FindAt(p, '=', |key|);
    assert forall k :: 0 < k < |q| ==> q[k] == p[k - 1];
    FindAt(q, '=', |key| + 1);
    assert p[..|key|] == key && p[|key| + 1..] == v;
    assert q[..|key| + 1] == " " + key && q[|key| + 2..] == v;
    assert (" " + key)[1..] == key;
  }

  lemma UnquoteQuoted(v: string)
    ensures Unquote("\"" + v + "\"") == v
  {}

  lemma QuotedAdded(fields: map<string, string>, key: string, v: string)
    requires PlainKey(key)
    ensures AddPiece(fields, Quoted(key, v)) == fields[key := v]
    ensures AddPiece(fields, " " + Quoted(key, v)) == fields[key := v]
  {
    hide AddPiece, Unquote;
    var q := "\"" + v + "\"";
    PieceAdded(fields, key, q);
    UnquoteQuoted(v);
    assert Quoted(key, v) == Plain(key, q);
  }

  lemma AddPiecesCons(fields: map<string, string>, piece: string, rest: seq<string>)
    ensures AddPieces(fields, [piece] + rest) == AddPieces(AddPiece(fields, piece), rest)
  {
    hide AddPiece;
    assert ([piece] + rest)[1..] == rest;
  }

  lemma ChallengeKeys()
    ensures PlainKey("realm") && PlainKey("nonce")
  {}

  /** The challenge parses to its realm and nonce. */
  lemma ChallengeParsed(realm: string, nonce: string)
    requires ',' !in realm && ',' !in nonce
    ensures ParsedHeader(Challenge(realm, nonce)) == Fields(map["realm" := realm, "nonce" := nonce])
  {
    hide Pieces, AddPiece, ParsedHeader, AddPieces, PlainKey;
    var a, b := Quoted("realm", realm), " " + Quoted("nonce", nonce);
    var m: map<string, string> := map[];
    ChallengeText(realm, nonce);
    DigestAtFront(Join([a, b], ','));
    ChallengeKeys();
    QuotedFree("realm", realm);
    QuotedFree("nonce", nonce);
    PiecesJoin([a, b], ',');
    QuotedAdded(m, "realm", realm);
    QuotedAdded(m["realm" := realm], "nonce", nonce);
    assert [a, b] == [a] + [b] && [b] == [b] + [];
    AddPiecesCons(m, a, [b]);
    AddPiecesCons(m["realm" := realm], b, []);
    NoneAdded(m["realm" := realm]["nonce" := nonce]);
  }

  lemma QuotedFree(key: string, v: string)
    requires PlainKey(key) && ',' !in v
    ensures ',' !in Quoted(key, v) && Quoted(key, v) != [] && ',' !in " " + Quoted(key, v)
    ensures ',' !in Plain(key, v) && ',' !in " " + Plain(key, v)
  {}

  lemma ChallengeText(realm: string, nonce: string)
    ensures Challenge(realm, nonce) == "Digest " + Join([Quoted("realm", realm), " " + Quoted("nonce", nonce)], ',')
  {
    hide Quoted;
    var a, b := Quoted("realm", realm), Quoted("nonce", nonce);
    assert [a, " " + b][1..] == [" " + b];
    assert ", " + b == [','] + (" " + b);
  }

  // ----- reading the answer back -----

  lemma UnquoteFree(v: string, c: char)
    requires c !in v
    ensures c !in Unquote(v)
  {}

  predicate ValuesWithout(fields: map<string, string>, c: char) {
    forall key :: key in fields ==> c !in fields[key]
  }

  lemma PieceWithout(fields: map<string, string>, piece: string, c: char)
    requires ValuesWithout(fields, c) && c !in piece
    ensures ValuesWithout(AddPiece(fields, piece), c)
  {
    hide Unquote, TrimLeft, TrimRight;
    var pos := Find(piece, '=');
    if pos < |piece| { UnquoteFree(piece[pos + 1..], c); }
  }

  lemma {:induction false} ValuesFree(fields: map<string, string>, pieces: seq<string>, c: char)
    requires ValuesWithout(fields, c)
    requires forall i :: 0 <= i < |pieces| ==> c !in pieces[i]
    ensures ValuesWithout(AddPieces(fields, pieces), c)
    decreases |pieces|
  {
    hide AddPiece, ValuesWithout;
    if pieces != [] {
      PieceWithout(fields, pieces[0], c);
      ValuesFree(AddPiece(fields, pieces[0]), pieces[1..], c);
    }
  }

  lemma {:induction false} PiecesFree(s: string, d: char)
    ensures forall i :: 0 <= i < |Pieces(s, d)| ==> d !in Pieces(s, d)[i]
    decreases |s|
  {
    if s != [] {
      var i := Find(s, d);
      if i < |s| { PiecesFree(s[i + 1..], d); }
    }
  }

  /** No parsed value holds a comma. */
  lemma ParsedFree(header: string)
    requires ParsedHeader(header).Fields?
    ensures ValuesWithout(ParsedHeader(header).fields, ',')
  {
    hide AddPieces, Pieces;
    var start := FindText(header, DIGEST);
    if start < |header| {
      PiecesFree(header[start + 7..], ',');
      ValuesFree(map[], Pieces(header[start + 7..], ','), ',');
    }
  }

  /** What the printed answer says. */
  function AnswerFields(user: string, realm: string, nonce: string, uri: string, response: string, algorithm: string,
                        qop: string, nc: string, cnonce: string): map<string, string>
  {
    var m := map["username" := user]["realm" := realm]["nonce" := nonce]["uri" := uri]
                ["response" := response]["algorithm" := algorithm];
    if qop == "" then m else m["qop" := qop]["nc" := nc]["cnonce" := cnonce]
  }

  function PrintedAnswer(user: string, realm: string, nonce: string, uri: string, response: string, algorithm: string,
                         qop: string, nc: string, cnonce: string): seq<string>
  {
    [Quoted("username", user), " " + Quoted("realm", realm), " " + Quoted("nonce", nonce), " " + Quoted("uri", uri),
     " " + Quoted("response", response), " " + Plain("algorithm", algorithm)]
    + if qop == "" then [] else [" " + Plain("qop", qop), " " + Plain("nc", nc), " " + Quoted("cnonce", cnonce)]
  }

  lemma FirstKeys()
    ensures PlainKey("username") && PlainKey("uri") && PlainKey("response")
  {}

  lemma LastKeys()
    ensures PlainKey("algorithm") && PlainKey("qop") && PlainKey("nc") && PlainKey("cnonce")
  {}

  predicate Unquoted(v: string) { v == "" || v[0] != '"' }

  lemma PlainAdded(fields: map<string, string>, key: string, v: string)
    requires PlainKey(key) && Unquoted(v)
    ensures AddPiece(fields, " " + Plain(key, v)) == fields[key := v]
  {
    hide AddPiece, PlainKey;
    PieceAdded(fields, key, v);
  }

  lemma SixAdded(user: string, realm: string, nonce: string, uri: string, response: string, algorithm: string, rest: seq<string>)
    requires Unquoted(algorithm)
    ensures AddPieces(map[], PrintedAnswer(user, realm, nonce, uri, response, algorithm, "", "", "") + rest)
         == AddPieces(AnswerFields(user, realm, nonce, uri, response, algorithm, "", "", ""), rest)
  {
    hide AddPieces, AddPiece, PlainKey, Quoted, Plain, Unquoted;
    ChallengeKeys();
    FirstKeys();
    LastKeys();
    var m0: map<string, string> := map[];
    var m1 := m0["username" := user];
    var m2 := m1["realm" := realm];
    var m3 := m2["nonce" := nonce];
    var m4 := m3["uri" := uri];
    var m5 := m4["response" := response];
    var m6 := m5["algorithm" := algorithm];
    var p1, p2, p3 := Quoted("username", user), " " + Quoted("realm", realm), " " + Quoted("nonce", nonce);
    var p4, p5, p6 := " " + Quoted("uri", uri), " " + Quoted("response", response), " " + Plain("algorithm", algorithm);
    QuotedAdded(m0, "username", user);
    QuotedAdded(m1, "realm", realm);
    QuotedAdded(m2, "nonce", nonce);
    QuotedAdded(m3, "uri", uri);
    QuotedAdded(m4, "response", response);
    PlainAdded(m5, "algorithm", algorithm);
    AddPiecesCons(m0, p1, [p2, p3, p4, p5, p6] + rest);
    AddPiecesCons(m1, p2, [p3, p4, p5, p6] + rest);
    AddPiecesCons(m2, p3, [p4, p5, p6] + rest);
    AddPiecesCons(m3, p4, [p5, p6] + rest);
    AddPiecesCons(m4, p5, [p6] + rest);
    AddPiecesCons(m5, p6, rest);
    assert PrintedAnswer(user, realm, nonce, uri, response, algorithm, "", "", "") + rest == [p1] + ([p2, p3, p4, p5, p6] + rest);
    assert [p2, p3, p4, p5, p6] + rest == [p2] + ([p3, p4, p5, p6] + rest);
    assert [p3, p4, p5, p6] + rest == [p3] + ([p4, p5, p6] + rest);
    assert [p4, p5, p6] + rest == [p4] + ([p5, p6] + rest);
    assert [p5, p6] + rest == [p5] + ([p6] + rest);
  }

  lemma ThreeAdded(m: map<string, string>, qop: string, nc: string, cnonce: string)
    requires Unquoted(qop) && Unquoted(nc)
    ensures AddPieces(m, [" " + Plain("qop", qop), " " + Plain("nc", nc), " " + Quoted("cnonce", cnonce)])
         == m["qop" := qop]["nc" := nc]["cnonce" := cnonce]
  {
    hide AddPieces, AddPiece, PlainKey, Quoted, Plain, Unquoted;
    LastKeys();
    var m1 := m["qop" := qop];
    var m2 := m1["nc" := nc];
    var p1, p2, p3 := " " + Plain("qop", qop), " " + Plain("nc", nc), " " + Quoted("cnonce", cnonce);
    PlainAdded(m, "qop", qop);
    PlainAdded(m1, "nc", nc);
    QuotedAdded(m2, "cnonce", cnonce);
    AddPiecesCons(m, p1, [p2, p3]);
    AddPiecesCons(m1, p2, [p3]);
    AddPiecesCons(m2, p3, []);
    NoneAdded(m2["cnonce" := cnonce]);
    assert [p1, p2, p3] == [p1] + [p2, p3] && [p2, p3] == [p2] + [p3] && [p3] == [p3] + [];
  }

  lemma {:induction false} AnswerParsed(user: string, realm: string, nonce: string, uri: string, response: string, algorithm: string,
                     qop: string, nc: string, cnonce: string)
    requires ',' !in user && ',' !in realm && ',' !in nonce && ',' !in uri && ',' !in response && ',' !in algorithm
    requires ',' !in qop && ',' !in nc && ',' !in cnonce
    requires Unquoted(algorithm) && Unquoted(qop) && Unquoted(nc)
    ensures ParsedHeader("Digest " + Join(PrintedAnswer(user, realm, nonce, uri, response, algorithm, qop, nc, cnonce), ','))
         == Fields(AnswerFields(user, realm, nonce, uri, response, algorithm, qop, nc, cnonce))
  {
    hide AddPieces, Pieces, Join, ParsedHeader, PlainKey, Quoted, Plain, Unquoted;
    var pieces := PrintedAnswer(user, realm, nonce, uri, response, algorithm, qop, nc, cnonce);
    ChallengeKeys();
    FirstKeys();
    LastKeys();
    QuotedFree("username", user);
    QuotedFree("realm", realm);
    QuotedFree("nonce", nonce);
    QuotedFree("uri", uri);
    QuotedFree("response", response);
    QuotedFree("algorithm", algorithm);
    QuotedFree("qop", qop);
    QuotedFree("nc", nc);
    QuotedFree("cnonce", cnonce);
    PiecesJoin(pieces, ',');
    DigestAtFront(Join(pieces, ','));
    var tail := if qop == "" then [] else [" " + Plain("qop", qop), " " + Plain("nc", nc), " " + Quoted("cnonce", cnonce)];
    var six := PrintedAnswer(user, realm, nonce, uri, response, algorithm, "", "", "");
    assert pieces == six + tail;
    SixAdded(user, realm, nonce, uri, response, algorithm, tail);
    var m := AnswerFields(user, realm, nonce, uri, response, algorithm, "", "", "");
    if qop == "" { NoneAdded(m); } else { ThreeAdded(m, qop, nc, cnonce); }
  }

  lemma {:induction false} Hex8Plain(n: nat, width: nat)
    ensures |Hex8(n, width)| == width && ',' !in Hex8(n, width) && Unquoted(Hex8(n, width))
  {
    if width > 0 { Hex8Plain(n / 16, width - 1); }
  }

  // ----- end to end -----

  /** Digests are hexadecimal text: no comma. */
  ghost predicate CommaFree(hs: Hashes) {
    forall x :: ',' !in hs.md5(x) && ',' !in hs.sha(x)
  }

  /** What the server makes of the client's answer to any challenge it could parse. */
  lemma AnswerVerified(hs: Hashes, challenge: string, body401: string, c: Client, count: NonceCount,
                       method': string, body: string, user: string, password: string)
    requires count.count < 0x7FFF_FFFF && CommaFree(hs)
    requires ParsedHeader(challenge).Fields?
    requires var f := ParsedHeader(challenge).fields;
             "realm" in f && "nonce" in f && Unquoted(Get(f, "algorithm", "")) && Unquoted(Get(f, "qop", ""))
    requires ',' !in c.user && ',' !in c.uri && ',' !in c.cnonce
    ensures var f := ParsedHeader(challenge).fields;
            var realm, nonce, qop := f["realm"], f["nonce"], Get(f, "qop", "");
            var h := HashOf(hs, Get(f, "algorithm", "MD5"));
            var nc := Hex8(Counted(count, nonce).count as int % 0x1_0000_0000, 8);
            var answer := Answer(hs, challenge, body401, c, count);
            answer.Some? && Verify(hs, answer.value.0, method', body, user, password)
              == Some(Response(h, A1(user, realm, password), A2(h, method', c.uri, qop, body), nonce, qop, nc, c.cnonce)
                   == Response(h, A1(c.user, realm, c.password), A2(h, "REGISTER", c.uri, qop, body401), nonce, qop, nc, c.cnonce))
  {
    hide ParsedHeader, Join, Response, A1, A2, Hex8, Unquoted;
    ParsedFree(challenge);
    EmptyHeader();
    var f := ParsedHeader(challenge).fields;
    var realm, nonce, qop, algorithm := f["realm"], f["nonce"], Get(f, "qop", ""), Get(f, "algorithm", "MD5");
    var h := HashOf(hs, algorithm);
    var nc := Hex8(Counted(count, nonce).count as int % 0x1_0000_0000, 8);
    Hex8Plain(Counted(count, nonce).count as int % 0x1_0000_0000, 8);
    UnquotedWords();
    var response := Response(h, A1(c.user, realm, c.password), A2(h, "REGISTER", c.uri, qop, body401), nonce, qop, nc, c.cnonce);
    ResponseFree(hs, algorithm, A1(c.user, realm, c.password), A2(h, "REGISTER", c.uri, qop, body401), nonce, qop, nc, c.cnonce);
    AnswerParsed(c.user, realm, nonce, c.uri, response, algorithm, qop, nc, c.cnonce);
    var pieces := PrintedAnswer(c.user, realm, nonce, c.uri, response, algorithm, qop, nc, c.cnonce);
    assert AnswerPieces(hs, f, body401, c, nc) == pieces;
    AnswerLookups(c.user, realm, nonce, c.uri, response, algorithm, qop, nc, c.cnonce);
    WithoutQop(h, A1(user, realm, password), A2(h, method', c.uri, qop, body), nonce, qop, nc, c.cnonce);
  }

  /** Without a qop the response uses neither the count nor the client's nonce. */
  lemma WithoutQop(h: string -> string, a1: string, a2: string, nonce: string, qop: string, nc: string, cnonce: string)
    ensures qop == "" ==> Response(h, a1, a2, nonce, qop, nc, cnonce) == Response(h, a1, a2, nonce, qop, "", "")
  {}

  lemma EmptyHeader()
    ensures ParsedHeader("") == Fields(map[])
  {}

  lemma UnquotedWords()
    ensures Unquoted("MD5") && Unquoted("") && ',' !in "MD5"
  {}

  lemma ResponseFree(hs: Hashes, algorithm: string, a1: string, a2: string, nonce: string, qop: string, nc: string, cnonce: string)
    requires CommaFree(hs)
    ensures ',' !in Response(HashOf(hs, algorithm), a1, a2, nonce, qop, nc, cnonce)
  {}

  lemma AnswerLookups(user: string, realm: string, nonce: string, uri: string, response: string, algorithm: string,
                      qop: string, nc: string, cnonce: string)
    ensures var m := AnswerFields(user, realm, nonce, uri, response, algorithm, qop, nc, cnonce);
            && m != map[] && Get(m, "realm", "") == realm && Get(m, "nonce", "") == nonce && Get(m, "uri", "") == uri
            && Get(m, "response", "") == response && Get(m, "algorithm", "MD5") == algorithm && Get(m, "qop", "") == qop
            && Get(m, "nc", "") == (if qop == "" then "" else nc) && Get(m, "cnonce", "") == (if qop == "" then "" else cnonce)
  {
    var m := AnswerFields(user, realm, nonce, uri, response, algorithm, qop, nc, cnonce);
    assert "realm" in m;
  }

  /** The challenge the server sends, answered and verified: accepted for the same user and password. */
  lemma ServerAccepts(hs: Hashes, realm: string, nonce: string, c: Client, count: NonceCount, body401: string, body: string)
    requires count.count < 0x7FFF_FFFF && CommaFree(hs)
    requires ',' !in realm && ',' !in nonce && ',' !in c.user && ',' !in c.uri && ',' !in c.cnonce
    ensures var answer := Answer(hs, Challenge(realm, nonce), body401, c, count);
            answer.Some? && Verify(hs, answer.value.0, "REGISTER", body, c.user, c.password) == Some(true)
  {
    hide ParsedHeader, Response, A1, Answer, Verify, Challenge;
    ChallengeParsed(realm, nonce);
    UnquotedWords();
    AnswerVerified(hs, Challenge(realm, nonce), body401, c, count, "REGISTER", body, c.user, c.password);
  }

  /** Any parsed challenge, whatever its qop and algorithm: the matching REGISTER is accepted, with
      auth-int provided request and challenge carry the same body. */
  lemma {:induction false} MatchingAccepted(hs: Hashes, challenge: string, c: Client, count: NonceCount, body401: string, body: string)
    requires count.count < 0x7FFF_FFFF && CommaFree(hs)
    requires ParsedHeader(challenge).Fields?
    requires var f := ParsedHeader(challenge).fields;
             "realm" in f && "nonce" in f && Unquoted(Get(f, "algorithm", "")) && Unquoted(Get(f, "qop", ""))
             && (Get(f, "qop", "") == "auth-int" ==> body == body401)
    requires ',' !in c.user && ',' !in c.uri && ',' !in c.cnonce
    ensures var answer := Answer(hs, challenge, body401, c, count);
            answer.Some? && Verify(hs, answer.value.0, "REGISTER", body, c.user, c.password) == Some(true)
  {
    hide ParsedHeader, Response, A1, Answer, Verify;
    AnswerVerified(hs, challenge, body401, c, count, "REGISTER", body, c.user, c.password);
  }

  /** No collision of the hash among the strings two computations of a response pass to it. */
  ghost predicate Tells(h: string -> string, x: string, y: string) {
    h(x) == h(y) ==> x == y
  }

  function Outer(h: string -> string, a1: string, a2: string, middle: string): string {
    h(a1) + middle + h(a2)
  }

  function Middle(nonce: string, qop: string, nc: string, cnonce: string): string {
    if qop == "" then ":" + nonce + ":" else ":" + nonce + ":" + nc + ":" + cnonce + ":" + qop + ":"
  }

  lemma ThreeParts(u: string, v: string, nonce: string)
    ensures u + ":" + nonce + ":" + v == u + (":" + nonce + ":") + v
  {}

  lemma SixParts(u: string, v: string, nonce: string, nc: string, cnonce: string, qop: string)
    ensures u + ":" + nonce + ":" + nc + ":" + cnonce + ":" + qop + ":" + v
         == u + (":" + nonce + ":" + nc + ":" + cnonce + ":" + qop + ":") + v
  {
    var m := ":" + nonce + ":" + nc + ":" + cnonce + ":" + qop + ":";
    assert u + ":" + nonce + ":" + nc + ":" + cnonce + ":" + qop + ":" == u + m;
  }

  lemma ResponseIsOuter(h: string -> string, a1: string, a2: string, nonce: string, qop: string, nc: string, cnonce: string)
    ensures Response(h, a1, a2, nonce, qop, nc, cnonce) == h(Outer(h, a1, a2, Middle(nonce, qop, nc, cnonce)))
  {
    ThreeParts(h(a1), h(a2), nonce);
    SixParts(h(a1), h(a2), nonce, nc, cnonce, qop);
  }

  /** Two responses over the same nonces agree exactly when both inputs agree. */
  lemma ResponsesAgree(h: string -> string, a1: string, a2: string, b1: string, b2: string,
                       nonce: string, qop: string, nc: string, cnonce: string)
    requires |h(a1)| == |h(b1)| && Tells(h, a1, b1) && Tells(h, a2, b2)
    requires var m := Middle(nonce, qop, nc, cnonce); Tells(h, Outer(h, a1, a2, m), Outer(h, b1, b2, m))
    ensures Response(h, a1, a2, nonce, qop, nc, cnonce) == Response(h, b1, b2, nonce, qop, nc, cnonce)
       <==> a1 == b1 && a2 == b2
  {
    hide Response, Middle;
    ResponseIsOuter(h, a1, a2, nonce, qop, nc, cnonce);
    ResponseIsOuter(h, b1, b2, nonce, qop, nc, cnonce);
    var m := Middle(nonce, qop, nc, cnonce);
    var x, y := Outer(h, a1, a2, m), Outer(h, b1, b2, m);
    if x == y {
      var n := |h(a1)|;
      assert x[..n] == h(a1) && y[..n] == h(b1);
      assert x[n + |m|..] == h(a2) && y[n + |m|..] == h(b2);
    }
  }

  /** Everything in front of the password. */
  function Prefix(user: string, realm: string): string { user + ":" + realm + ":" }

  /** Two users with suitable passwords give one first hash input exactly when one of them, joined with
      the realm, begins the other. */
  lemma UsersConfused(user: string, other: string, realm: string)
    ensures (exists p, q :: A1(user, realm, p) == A1(other, realm, q))
       <==> Prefix(user, realm) <= Prefix(other, realm) || Prefix(other, realm) <= Prefix(user, realm)
  {
    var u, v := Prefix(user, realm), Prefix(other, realm);
    if u <= v {
      PasswordFor(user, realm, v[|u|..]);
      PasswordFor(other, realm, "");
      assert A1(user, realm, v[|u|..]) == v == A1(other, realm, "");
    } else if v <= u {
      PasswordFor(other, realm, u[|v|..]);
      PasswordFor(user, realm, "");
      assert A1(user, realm, "") == u == A1(other, realm, u[|v|..]);
    } else {
      forall p, q ensures A1(user, realm, p) != A1(other, realm, q) {
        PasswordFor(user, realm, p);
        PasswordFor(other, realm, q);
        Diverge(u, v, p, q);
      }
    }
  }

  lemma Diverge(u: string, v: string, p: string, q: string)
    ensures u + p == v + q ==> u <= v || v <= u
  {
    var x, y := u + p, v + q;
    assert u == x[..|u|] && v == y[..|v|];
  }

  lemma PasswordFor(user: string, realm: string, p: string)
    ensures A1(user, realm, p) == Prefix(user, realm) + p
  {}

  /** So for every user, realm and password there is another user who is accepted in its place. */
  lemma UserAndPasswordShareSeparators(user: string, realm: string, password: string)
    ensures A1(user, realm, realm + ":" + password) == A1(user + ":" + realm, realm, password)
  {}

  /** Users without a colon are told apart, and so are their passwords. */
  lemma SameA1(user: string, other: string, realm: string, p: string, q: string)
    requires user == other || (':' !in user && ':' !in other)
    ensures A1(user, realm, p) == A1(other, realm, q) <==> user == other && p == q
  {
    if A1(user, realm, p) == A1(other, realm, q) {
      if ':' !in user && ':' !in other { SameUser(user, other, realm, p, q); }
      var n := |user| + 1 + |realm| + 1;
      assert A1(user, realm, p)[n..] == p && A1(user, realm, q)[n..] == q;
    }
  }

  lemma SameUser(user: string, other: string, realm: string, p: string, q: string)
    requires ':' !in user && ':' !in other && A1(user, realm, p) == A1(other, realm, q)
    ensures user == other
  {
    FindAt(A1(user, realm, p), ':', |user|);
    FindAt(A1(other, realm, q), ':', |other|);
    assert A1(user, realm, p)[..|user|] == user && A1(other, realm, q)[..|other|] == other;
  }

  /** The second inputs agree exactly for a REGISTER, with auth-int of the same body. */
  lemma SameA2(h: string -> string, m: string, uri: string, qop: string, body: string, other: string)
    requires qop == "auth-int" ==> ':' !in m && Tells(h, body, other) && h(body) != "" && h(other) != ""
    ensures A2(h, m, uri, qop, body) == A2(h, "REGISTER", uri, qop, other)
       <==> m == "REGISTER" && (qop == "auth-int" ==> body == other)
  {
    if qop != "auth-int" {
      var x, y := m + ":" + uri + "", "REGISTER" + ":" + uri + "";
      if x == y {
        assert |m| == |"REGISTER"|;
        assert x[..|m|] == m && y[..|m|] == "REGISTER";
      }
    } else {
      var n := |"REGISTER:"| + |uri| + 1;
      var u, v := if body != "" then h(body) else "", if other != "" then h(other) else "";
      assert ("REGISTER" + ":" + uri + (":" + u))[n..] == u;
      assert ("REGISTER" + ":" + uri + (":" + v))[n..] == v;
      if A2(h, m, uri, qop, body) == A2(h, "REGISTER", uri, qop, other) { MethodAt(m, uri, ":" + u, ":" + v); }
    }
  }

  lemma MethodAt(m: string, uri: string, u: string, v: string)
    requires ':' !in m && m + ":" + uri + u == "REGISTER" + ":" + uri + v
    ensures m == "REGISTER"
  {
    var x, y := m + ":" + uri + u, "REGISTER" + ":" + uri + v;
    FindAt(x, ':', |m|);
    FindAt(y, ':', |"REGISTER"|);
    assert x[..|m|] == m && y[..|"REGISTER"|] == "REGISTER";
  }

  /** What the hash must not confuse: the strings the two computations of a response pass to it. */
  ghost predicate NoCollision(h: string -> string, a1: string, a2: string, b1: string, b2: string, m: string) {
    |h(a1)| == |h(b1)| && Tells(h, a1, b1) && Tells(h, a2, b2) && Tells(h, Outer(h, a1, a2, m), Outer(h, b1, b2, m))
  }

  /** When the hash does not collide on the strings at hand, the answer of `c` to any parsed challenge
      is accepted for any user and password the server tries exactly when the request is a REGISTER,
      the first inputs agree, and with auth-int the bodies agree. Between users without a colon, or
      for the answering user, that means equal users and equal passwords. */
  lemma {:induction false} AcceptedExactly(hs: Hashes, challenge: string, body401: string, c: Client, count: NonceCount,
                        method': string, body: string, user: string, password: string)
    requires count.count < 0x7FFF_FFFF && CommaFree(hs)
    requires ParsedHeader(challenge).Fields?
    requires var f := ParsedHeader(challenge).fields;
             "realm" in f && "nonce" in f && Unquoted(Get(f, "algorithm", "")) && Unquoted(Get(f, "qop", ""))
    requires ',' !in c.user && ',' !in c.uri && ',' !in c.cnonce
    requires var f := ParsedHeader(challenge).fields;
             var h, nonce, qop := HashOf(hs, Get(f, "algorithm", "MD5")), f["nonce"], Get(f, "qop", "");
             && NoCollision(h, A1(user, f["realm"], password), A2(h, method', c.uri, qop, body),
                            A1(c.user, f["realm"], c.password), A2(h, "REGISTER", c.uri, qop, body401),
                            Middle(nonce, qop, Hex8(Counted(count, nonce).count as int % 0x1_0000_0000, 8), c.cnonce))
             && (qop == "auth-int" ==> ':' !in method' && Tells(h, body, body401) && h(body) != "" && h(body401) != "")
    ensures var f := ParsedHeader(challenge).fields;
            var answer := Answer(hs, challenge, body401, c, count);
            answer.Some? && Verify(hs, answer.value.0, method', body, user, password)
              == Some(method' == "REGISTER" && (Get(f, "qop", "") == "auth-int" ==> body == body401)
                      && A1(user, f["realm"], password) == A1(c.user, f["realm"], c.password))
    ensures var f := ParsedHeader(challenge).fields;
            user == c.user || (':' !in user && ':' !in c.user) ==>
              Verify(hs, Answer(hs, challenge, body401, c, count).value.0, method', body, user, password)
                == Some(method' == "REGISTER" && (Get(f, "qop", "") == "auth-int" ==> body == body401)
                        && user == c.user && password == c.password)
  {
    hide ParsedHeader, Response, A1, A2, Answer, Verify, Hex8, Middle, Outer, Tells, Unquoted;
    AnswerVerified(hs, challenge, body401, c, count, method', body, user, password);
    var f := ParsedHeader(challenge).fields;
    var h, realm, nonce, qop := HashOf(hs, Get(f, "algorithm", "MD5")), f["realm"], f["nonce"], Get(f, "qop", "");
    var nc := Hex8(Counted(count, nonce).count as int % 0x1_0000_0000, 8);
    ResponsesAgree(h, A1(user, realm, password), A2(h, method', c.uri, qop, body),
                   A1(c.user, realm, c.password), A2(h, "REGISTER", c.uri, qop, body401), nonce, qop, nc, c.cnonce);
    SameA2(h, method', c.uri, qop, body, body401);
    if user == c.user || (':' !in user && ':' !in c.user) { SameA1(user, c.user, realm, password, c.password); }
  }

  // ----- one more field -----

  ghost predicate Blank(s: string) { forall i :: 0 <= i < |s| ==> IsBlank(s[i]) }

  lemma {:induction false} TrimBlanks(left: string, key: string, right: string)
    requires Blank(left) && Blank(right) && PlainKey(key)
    ensures TrimRight(TrimLeft(left + key + right)) == key
    decreases |left|
  {
    var s := left + key + right;
    if left == "" {
      assert s == key + right && s[0] == key[0];
      TrimEnd(key, right);
    } else {
      assert s[1..] == left[1..] + key + right;
      TrimBlanks(left[1..], key, right);
    }
  }

  lemma {:induction false} TrimEnd(key: string, right: string)
    requires Blank(right) && PlainKey(key)
    ensures TrimRight(key + right) == key
    decreases |right|
  {
    var s := key + right;
    if right == "" {
      assert s == key;
    } else {
      assert s[..|s| - 1] == key + right[..|right| - 1];
      assert s[|s| - 1] == right[|right| - 1];
      TrimEnd(key, right[..|right| - 1]);
    }
  }

  lemma BlanksAround(fields: map<string, string>, left: string, key: string, right: string, v: string)
    requires Blank(left) && Blank(right) && PlainKey(key)
    ensures AddPiece(fields, left + key + right + "=" + v) == fields[key := Unquote(v)]
  {
    hide TrimLeft, TrimRight, Unquote;
    var name := left + key + right;
    var piece := name + "=" + v;
    assert '=' !in name;
    FindAt(piece, '=', |name|);
    assert piece[..|name|] == name && piece[|name| + 1..] == v;
    TrimBlanks(left, key, right);
  }

  lemma {:induction false} LastPiece(fields: map<string, string>, text: string, piece: string)
    requires ',' !in piece
    ensures AddPieces(fields, Pieces(text + "," + piece, ',')) == AddPiece(AddPieces(fields, Pieces(text, ',')), piece)
    decreases |text|
  {
    hide AddPiece;
    var all := text + "," + piece;
    var i := Find(text, ',');
    if i == |text| {
      assert all == text + [','] + piece;
      PiecesFirst(text, piece, ',');
      AddPiecesCons(fields, text, Pieces(piece, ','));
      OnlyPiece(AddPiece(fields, text), piece);
      OnlyPiece(fields, text);
    } else {
      var p, rest := text[..i], text[i + 1..];
      assert text == p + [','] + rest;
      assert all == p + [','] + (rest + "," + piece);
      PiecesFirst(p, rest, ',');
      PiecesFirst(p, rest + "," + piece, ',');
      AddPiecesCons(fields, p, Pieces(rest, ','));
      AddPiecesCons(fields, p, Pieces(rest + "," + piece, ','));
      LastPiece(AddPiece(fields, p), rest, piece);
    }
  }

  lemma OnlyPiece(fields: map<string, string>, piece: string)
    requires ',' !in piece
    ensures AddPieces(fields, Pieces(piece, ',')) == AddPiece(fields, piece)
  {
    if piece == "" {
      assert AddPiece(fields, "") == fields;
      NoPieces(fields);
    } else {
      hide AddPiece;
      PiecesWhole(piece, ',');
      AddPiecesCons(fields, piece, []);
      NoneAdded(AddPiece(fields, piece));
      assert [piece] + [] == [piece];
    }
  }

  /** A field added to a header: blanks around its key are dropped, a quoted value loses its quotes, an
      unquoted one is taken as it is, and the last value of a repeated key counts. A piece without `=`
      adds nothing. */
  lemma FieldAdded(header: string, left: string, key: string, right: string, v: string)
    requires "Digest " <= header && Blank(left) && Blank(right) && PlainKey(key) && ',' !in left && ',' !in right && ',' !in v
    ensures ParsedHeader(header).Fields?
    ensures ParsedHeader(header + "," + (left + key + right + "=\"" + v + "\""))
         == Fields(ParsedHeader(header).fields[key := v])
    ensures v == "" || v[0] != '"' ==>
              ParsedHeader(header + "," + (left + key + right + "=" + v)) == Fields(ParsedHeader(header).fields[key := v])
    ensures '=' !in v ==> ParsedHeader(header + "," + v) == ParsedHeader(header)
  {
    hide AddPiece, AddPieces, Pieces, ParsedHeader, Unquote;
    var rest := header[7..];
    var name := left + key + right;
    assert header == "Digest " + rest;
    DigestAtFront(rest);
    PieceAtEnd(header, name + "=\"" + v + "\"");
    PieceAtEnd(header, name + "=" + v);
    PieceAtEnd(header, v);
    var f := ParsedHeader(header).fields;
    var quoted := "\"" + v + "\"";
    assert name + "=\"" + v + "\"" == name + "=" + quoted;
    BlanksAround(f, left, key, right, quoted);
    UnquoteQuoted(v);
    BlanksAround(f, left, key, right, v);
    if v == "" || v[0] != '"' { UnquotedIsKept(v); }
    if '=' !in v { PieceIgnored(f, v); }
  }

  lemma UnquotedIsKept(v: string)
    requires v == "" || v[0] != '"'
    ensures Unquote(v) == v
  {}

  lemma PieceIgnored(fields: map<string, string>, piece: string)
    requires '=' !in piece
    ensures AddPiece(fields, piece) == fields
  {
    FindAt(piece, '=', |piece|);
  }

  lemma PieceAtEnd(header: string, piece: string)
    requires "Digest " <= header && ',' !in piece
    ensures ParsedHeader(header).Fields?
    ensures ParsedHeader(header + "," + piece) == Fields(AddPiece(ParsedHeader(header).fields, piece))
  {
    hide AddPiece, AddPieces, Pieces, ParsedHeader;
    var rest := header[7..];
    assert header == "Digest " + rest;
    assert header + "," + piece == "Digest " + (rest + "," + piece);
    DigestAtFront(rest);
    DigestAtFront(rest + "," + piece);
    LastPiece(map[], rest, piece);
  }

  // ----- what verification asks of a header -----

  /** The value of a field, empty when it is missing. */
  ghost function Field(fields: map<string, string>, key: string): string {
    if key in fields then fields[key] else ""
  }

  /** MD5 unless the header names another algorithm. */
  ghost function Chosen(hs: Hashes, fields: map<string, string>): string -> string {
    if "algorithm" in fields && fields["algorithm"] != "MD5" then hs.sha else hs.md5
  }

  lemma ChosenHash(hs: Hashes, fields: map<string, string>)
    ensures HashOf(hs, Get(fields, "algorithm", "MD5")) == Chosen(hs, fields)
  {}

  lemma {:induction false} NothingAdded(pieces: seq<string>)
    requires forall i :: 0 <= i < |pieces| ==> '=' !in pieces[i]
    ensures AddPieces(map[], pieces) == map[]
  {
    if pieces != [] {
      NoField(pieces[0]);
      NothingAdded(pieces[1..]);
    }
  }

  lemma NoField(piece: string)
    requires '=' !in piece
    ensures AddPiece(map[], piece) == map[]
  {
    FindAt(piece, '=', |piece|);
  }

  lemma {:induction false} PiecesKeepOut(s: string, d: char, c: char)
    requires c !in s
    ensures forall i :: 0 <= i < |Pieces(s, d)| ==> c !in Pieces(s, d)[i]
    decreases |s|
  {
    if s != [] {
      var i := Find(s, d);
      if i < |s| { PiecesKeepOut(s[i + 1..], d, c); }
    }
  }

  /** A request without usable credentials is never let in, whoever asks: the header is missing, the
      word `Digest` is nowhere in it, or no `=` follows that word. Verification says so, except that it
      throws when the header ends with the word. */
  lemma NoCredentials(hs: Hashes, header: string, method': string, body: string, user: string, password: string)
    requires || header == ""
             || (forall k :: !OccursAt(header, "Digest", k))
             || (FindText(header, "Digest") + 7 <= |header| && '=' !in header[FindText(header, "Digest") + 7..])
             || (FindText(header, "Digest") + 6 == |header|)
    ensures Verify(hs, header, method', body, user, password)
         == if FindText(header, "Digest") + 6 == |header| then None else Some(false)
  {
    hide Pieces, AddPieces;
    var start := FindText(header, "Digest");
    if header != "" && start + 7 <= |header| {
      var rest := header[start + 7..];
      PiecesKeepOut(rest, ',', '=');
      NothingAdded(Pieces(rest, ','));
    }
  }

  /** Hashes whose digests are never empty. */
  ghost predicate NonEmptyDigests(hs: Hashes) {
    forall x :: hs.md5(x) != "" && hs.sha(x) != ""
  }

  /** The request digest of sections 3.2.2.1 to 3.2.2.3 of RFC 2617, written out from the hash. */
  ghost function RequestDigest(h: string -> string, user: string, realm: string, password: string, method': string,
                               uri: string, body: string, nonce: string, qop: string, nc: string, cnonce: string): string
  {
    var first := h(user + ":" + realm + ":" + password);
    var second := if qop != "auth-int" then h(method' + ":" + uri)
                  else if body == "" then h(method' + ":" + uri + ":") else h(method' + ":" + uri + ":" + h(body));
    if qop == "" then h(first + ":" + nonce + ":" + second)
    else h(first + ":" + nonce + ":" + nc + ":" + cnonce + ":" + qop + ":" + second)
  }

  lemma SecondInput(h: string -> string, method': string, uri: string, qop: string, body: string)
    ensures A2(h, method', uri, qop, body)
         == if qop != "auth-int" then method' + ":" + uri
            else if body == "" then method' + ":" + uri + ":" else method' + ":" + uri + ":" + h(body)
  {
    var m := method' + ":" + uri;
    assert m + "" == m;
    assert m + (":" + "") == m + ":";
    assert m + (":" + h(body)) == m + ":" + h(body);
  }

  lemma ResponseIsDigest(h: string -> string, user: string, realm: string, password: string, method': string,
                         uri: string, body: string, nonce: string, qop: string, nc: string, cnonce: string)
    ensures Response(h, A1(user, realm, password), A2(h, method', uri, qop, body), nonce, qop, nc, cnonce)
         == RequestDigest(h, user, realm, password, method', uri, body, nonce, qop, nc, cnonce)
  {
    hide A2;
    SecondInput(h, method', uri, qop, body);
  }

  lemma DigestNotEmpty(hs: Hashes, fields: map<string, string>, user: string, realm: string, password: string, method': string,
                       uri: string, body: string, nonce: string, qop: string, nc: string, cnonce: string)
    requires NonEmptyDigests(hs)
    ensures RequestDigest(Chosen(hs, fields), user, realm, password, method', uri, body, nonce, qop, nc, cnonce) != ""
  {}

  /** Who is let in: exactly the request whose header has a `response` field that is the digest of the
      server's user and password, and of the method, body and fields of the request. */
  lemma VerifiedExactly(hs: Hashes, header: string, method': string, body: string, user: string, password: string)
    requires NonEmptyDigests(hs)
    ensures Verify(hs, header, method', body, user, password) == Some(true)
       <==> && ParsedHeader(header).Fields?
            && var f := ParsedHeader(header).fields;
               && "response" in f
               && f["response"] == RequestDigest(Chosen(hs, f), user, Field(f, "realm"), password, method', Field(f, "uri"), body,
                                                 Field(f, "nonce"), Field(f, "qop"), Field(f, "nc"), Field(f, "cnonce"))
  {
    hide ParsedHeader, Response, A1, A2, RequestDigest, Chosen, NonEmptyDigests;
    EmptyHeader();
    if ParsedHeader(header).Fields? {
      var f := ParsedHeader(header).fields;
      ChosenHash(hs, f);
      ResponseIsDigest(Chosen(hs, f), user, Field(f, "realm"), password, method', Field(f, "uri"), body,
                       Field(f, "nonce"), Field(f, "qop"), Field(f, "nc"), Field(f, "cnonce"));
      DigestNotEmpty(hs, f, user, Field(f, "realm"), password, method', Field(f, "uri"), body,
                     Field(f, "nonce"), Field(f, "qop"), Field(f, "nc"), Field(f, "cnonce"));
    }
  }

  /** The answer to any challenge the client could parse, field by field: the digest is that of the
      client's user and password for a REGISTER, by MD5 unless the challenge names another algorithm. */
  lemma AnswerSays(hs: Hashes, challenge: string, body: string, c: Client, count: NonceCount)
    requires count.count < 0x7FFF_FFFF && CommaFree(hs)
    requires ParsedHeader(challenge).Fields?
    requires var f := ParsedHeader(challenge).fields;
             "realm" in f && "nonce" in f && Unquoted(Field(f, "algorithm")) && Unquoted(Field(f, "qop"))
    requires ',' !in c.user && ',' !in c.uri && ',' !in c.cnonce
    ensures Answer(hs, challenge, body, c, count).Some?
    ensures var f, g := ParsedHeader(challenge), ParsedHeader(Answer(hs, challenge, body, c, count).value.0);
            g.Fields? && Says(hs, f.fields, g.fields, body, c)
  {
    hide ParsedHeader, Join, Response, A1, A2, Hex8, Unquoted, RequestDigest, CommaFree;
    ParsedFree(challenge);
    EmptyHeader();
    var f := ParsedHeader(challenge).fields;
    var realm, nonce, qop, algorithm := f["realm"], f["nonce"], Get(f, "qop", ""), Get(f, "algorithm", "MD5");
    var h := HashOf(hs, algorithm);
    var nc := Hex8(Counted(count, nonce).count as int % 0x1_0000_0000, 8);
    Hex8Plain(Counted(count, nonce).count as int % 0x1_0000_0000, 8);
    UnquotedWords();
    var response := Response(h, A1(c.user, realm, c.password), A2(h, "REGISTER", c.uri, qop, body), nonce, qop, nc, c.cnonce);
    ResponseFree(hs, algorithm, A1(c.user, realm, c.password), A2(h, "REGISTER", c.uri, qop, body), nonce, qop, nc, c.cnonce);
    AnswerParsed(c.user, realm, nonce, c.uri, response, algorithm, qop, nc, c.cnonce);
    var pieces := PrintedAnswer(c.user, realm, nonce, c.uri, response, algorithm, qop, nc, c.cnonce);
    assert AnswerPieces(hs, f, body, c, nc) == pieces;
    ResponseIsDigest(h, c.user, realm, c.password, "REGISTER", c.uri, body, nonce, qop, nc, c.cnonce);
    ChosenHash(hs, f);
    FieldsSay(hs, f, c, body, response, algorithm, nc);
  }

  /** What the answer with fields `g` says to the challenge with fields `f`. */
  ghost predicate Says(hs: Hashes, f: map<string, string>, g: map<string, string>, body: string, c: Client)
    requires "realm" in f && "nonce" in f
  {
    && Field(g, "username") == c.user && Field(g, "realm") == f["realm"] && Field(g, "nonce") == f["nonce"]
    && Field(g, "uri") == c.uri && Field(g, "qop") == Field(f, "qop") && Chosen(hs, g) == Chosen(hs, f)
    && (Field(f, "qop") != "" ==> Field(g, "cnonce") == c.cnonce)
    && Field(g, "response") == RequestDigest(Chosen(hs, f), c.user, f["realm"], c.password, "REGISTER", c.uri, body,
                                             f["nonce"], Field(f, "qop"), Field(g, "nc"), c.cnonce)
  }

  lemma FieldsSay(hs: Hashes, f: map<string, string>, c: Client, body: string, response: string, algorithm: string, nc: string)
    requires "realm" in f && "nonce" in f && algorithm == Get(f, "algorithm", "MD5")
    requires response == RequestDigest(Chosen(hs, f), c.user, f["realm"], c.password, "REGISTER", c.uri, body,
                                       f["nonce"], Get(f, "qop", ""), nc, c.cnonce)
    ensures Says(hs, f, AnswerFields(c.user, f["realm"], f["nonce"], c.uri, response, algorithm, Get(f, "qop", ""), nc, c.cnonce), body, c)
  {
    hide RequestDigest;
    var qop := Get(f, "qop", "");
    AnswerLookups(c.user, f["realm"], f["nonce"], c.uri, response, algorithm, qop, nc, c.cnonce);
    if qop == "" { CountUnused(Chosen(hs, f), c, f["realm"], body, f["nonce"], nc); }
  }

  lemma CountUnused(h: string -> string, c: Client, realm: string, body: string, nonce: string, nc: string)
    ensures RequestDigest(h, c.user, realm, c.password, "REGISTER", c.uri, body, nonce, "", nc, c.cnonce)
         == RequestDigest(h, c.user, realm, c.password, "REGISTER", c.uri, body, nonce, "", "", c.cnonce)
  {}

  /** Without a challenge, or with one that lacks realm or nonce, no answer is made and nothing is counted. */
  lemma NoAnswer(hs: Hashes, challenge: string, body: string, c: Client, count: NonceCount)
    requires count.count < 0x7FFF_FFFF && ParsedHeader(challenge).Fields?
    requires var f := ParsedHeader(challenge).fields; challenge == "" || "realm" !in f || "nonce" !in f
    ensures Answer(hs, challenge, body, c, count) == Some(("", count))
  {
    hide ParsedHeader;
  }

  /** The server's own challenge names no algorithm and no qop: the answer is the MD5 digest of the first
      form of the RFC. */
  lemma OwnChallenge(hs: Hashes, realm: string, nonce: string, body: string, c: Client, count: NonceCount)
    requires count.count < 0x7FFF_FFFF && CommaFree(hs)
    requires ',' !in realm && ',' !in nonce && ',' !in c.user && ',' !in c.uri && ',' !in c.cnonce
    ensures Challenge(realm, nonce) == "Digest realm=\"" + realm + "\", nonce=\"" + nonce + "\""
    ensures Answer(hs, Challenge(realm, nonce), body, c, count).Some?
    ensures var g := ParsedHeader(Answer(hs, Challenge(realm, nonce), body, c, count).value.0);
            g.Fields? && Field(g.fields, "response")
              == hs.md5(hs.md5(c.user + ":" + realm + ":" + c.password) + ":" + nonce + ":" + hs.md5("REGISTER:" + c.uri))
  {
    hide ParsedHeader, Challenge, Answer, RequestDigest;
    PrintedChallenge(realm, nonce);
    ChallengeParsed(realm, nonce);
    UnquotedWords();
    AnswerSays(hs, Challenge(realm, nonce), body, c, count);
    var g := ParsedHeader(Answer(hs, Challenge(realm, nonce), body, c, count).value.0);
    OwnDigest(hs, realm, nonce, body, c, Field(g.fields, "nc"));
  }

  lemma PrintedChallenge(realm: string, nonce: string)
    ensures Challenge(realm, nonce) == "Digest realm=\"" + realm + "\", nonce=\"" + nonce + "\""
  {}

  lemma OwnDigest(hs: Hashes, realm: string, nonce: string, body: string, c: Client, nc: string)
    ensures RequestDigest(hs.md5, c.user, realm, c.password, "REGISTER", c.uri, body, nonce, "", nc, c.cnonce)
         == hs.md5(hs.md5(c.user + ":" + realm + ":" + c.password) + ":" + nonce + ":" + hs.md5("REGISTER:" + c.uri))
  {
    assert "REGISTER" + ":" + c.uri == "REGISTER:" + c.uri;
  }

  /** The counts are printed in lower-case hexadecimal, most significant digit first. */
  lemma HexNotation(n: nat, width: nat)
    ensures Hex8(n, width + 1) == Hex8(n / 16, width) + ["0123456789abcdef"[n % 16]]
    ensures Hex8(n, 0) == ""
  {
    var s, d := "0123456789abcdef", n % 16;
    assert s[0] == '0' && s[1] == '1' && s[2] == '2' && s[3] == '3' && s[4] == '4' && s[5] == '5' && s[6] == '6' && s[7] == '7';
    assert s[8] == '8' && s[9] == '9' && s[10] == 'a' && s[11] == 'b' && s[12] == 'c' && s[13] == 'd' && s[14] == 'e' && s[15] == 'f';
    assert HexDigit(d) == s[d];
  }

  /** `verify_authorization`; `thrown` when parsing the header throws. */
  method VerifyAuthorization(hs: Hashes, header: string, method': string, body: string, user: string, password: string)
    returns (thrown: bool, ok: bool)
    ensures thrown <==> Verify(hs, header, method', body, user, password) == None
    ensures !thrown ==> Verify(hs, header, method', body, user, password) == Some(ok)
  {
    hide ParsedHeader, A2;
    thrown, ok := false, false;
    if header == "" { return; }
    var parsed := ParseAuthorizationHeader(header);
    if parsed.Throws? { return true, false; }
    var fields := parsed.fields;
    if fields == map[] { return; }
    var h: string -> string := if Get(fields, "algorithm", "MD5") == "MD5" then hs.md5 else hs.sha;
    var a1 := user + ":" + Get(fields, "realm", "") + ":" + password;
    var a2 := method' + ":" + Get(fields, "uri", "");
    var qop := Get(fields, "qop", "");
    if qop == "auth-int" {
      if body != "" { a2 := a2 + ":" + h(body); } else { a2 := a2 + ":"; }
    }
    SecondInput(h, method', Get(fields, "uri", ""), qop, body);
    assert a2 == A2(h, method', Get(fields, "uri", ""), qop, body);
    assert h == HashOf(hs, Get(fields, "algorithm", "MD5"));
    var response;
    if qop == "" {
      response := h(h(a1) + ":" + Get(fields, "nonce", "") + ":" + h(a2));
    } else {
      response := h(h(a1) + ":" + Get(fields, "nonce", "") + ":" + Get(fields, "nc", "") + ":"
                    + Get(fields, "cnonce", "") + ":" + qop + ":" + h(a2));
    }
    ok := response == Get(fields, "response", "");
  }

  // ----- the counter of a nonce -----

  function CountedTimes(c: NonceCount, nonce: string, k: nat): NonceCount
    requires c.nonce != nonce && c.count < 0x7FFF_FFFF && k < 0x7FFF_FFFF
    ensures k > 0 ==> CountedTimes(c, nonce, k) == NonceCount(nonce, k)
  {
    if k == 0 then c else Counted(CountedTimes(c, nonce, k - 1), nonce)
  }

  function Pow16(k: nat): nat {
    if k == 0 then 1 else 16 * Pow16(k - 1)
  }

  lemma {:induction false} Hex8Injective(m: nat, n: nat, width: nat)
    requires m < Pow16(width) && n < Pow16(width) && Hex8(m, width) == Hex8(n, width)
    ensures m == n
  {
    if width > 0 {
      var a, b := Hex8(m, width), Hex8(n, width);
      assert a[..|a| - 1] == Hex8(m / 16, width - 1) && b[..|b| - 1] == Hex8(n / 16, width - 1);
      assert a[|a| - 1] == HexDigit(m % 16) && b[|b| - 1] == HexDigit(n % 16);
      Hex8Injective(m / 16, n / 16, width - 1);
    }
  }

  lemma EightDigits()
    ensures Pow16(8) == 0x1_0000_0000
  {
    assert Pow16(2) == 0x100;
    assert Pow16(4) == 0x1_0000;
    assert Pow16(6) == 0x100_0000;
  }

  /** Answers to one nonce carry the counts 1, 2, 3, ..., printed as different eight-digit numbers. */
  lemma {:induction false} CountsDiffer(c: NonceCount, nonce: string, j: nat, k: nat)
    requires c.nonce != nonce && c.count < 0x7FFF_FFFF && 0 < j < k < 0x7FFF_FFFF
    ensures CountedTimes(c, nonce, k).count == k
    ensures Hex8(CountedTimes(c, nonce, j).count, 8) != Hex8(CountedTimes(c, nonce, k).count, 8)
  {
    hide Hex8, Pow16;
    EightDigits();
    if Hex8(j, 8) == Hex8(k, 8) { Hex8Injective(j, k, 8); }
  }

  /** The client's side keeps the counter; answering updates it in place. */
  class Authorizer {
    var counted: NonceCount

    constructor ()
      ensures counted == NonceCount("", 0)
    {
      counted := NonceCount("", 0);
    }

    /** `ok` is false when parsing the challenge throws. */
    method GenerateAuthorization(hs: Hashes, challenge: string, body: string, c: Client) returns (ok: bool, header: string)
      requires counted.count < 0x7FFF_FFFF
      modifies this
      ensures match Answer(hs, challenge, body, c, old(counted))
              case Some((text, next)) => ok && header == text && counted == next
              case None => !ok && counted == old(counted)
    {
      hide AnswerPieces, Join, ParsedHeader;
      ok, header := true, "";
      if challenge == "" { return; }
      var parsed := ParseAuthorizationHeader(challenge);
      if parsed.Throws? { return false, ""; }
      var fields := parsed.fields;
      if "realm" !in fields || "nonce" !in fields { return; }
      var nonce := fields["nonce"];
      if counted.nonce == nonce {
        counted := counted.(count := counted.count + 1);
        if counted.count == -1 { counted := counted.(count := 1); }
      } else {
        counted := NonceCount(nonce, 1);
      }
      var nc := Hex8(counted.count as int % 0x1_0000_0000, 8);
      header := "Digest " + Join(AnswerPieces(hs, fields, body, c, nc), ',');
    }
  }
}
