/** The string facilities the library leans on: finding a character, `std::getline`,
    `toolkit::split`, and printing and scanning of decimal numbers. */
module Text {

  datatype Option<+T> = None | Some(value: T)

  type u8 = x: int | 0 <= x < 0x100
  type u16 = x: int | 0 <= x < 0x1_0000
  type u32 = x: int | 0 <= x < 0x1_0000_0000
  type u64 = x: int | 0 <= x < 0x1_0000_0000_0000_0000
  type i32 = x: int | -0x8000_0000 <= x < 0x8000_0000

  /** `find(c)`: the first position of `c`, or the length when there is none (`npos`). */
  function Find(s: string, c: char): (i: nat)
    ensures i <= |s|
    ensures i < |s| ==> s[i] == c
    ensures forall k :: 0 <= k < i ==> s[k] != c
  {
    if s == [] then 0 else if s[0] == c then 0 else 1 + Find(s[1..], c)
  }

  lemma FindAt(s: string, c: char, i: nat)
    requires i <= |s| && (i < |s| ==> s[i] == c)
    requires forall k :: 0 <= k < i ==> s[k] != c
    ensures Find(s, c) == i
  {
  }

  /** `rfind(c)`: the last position of `c`, or the length when there is none. */
  function FindLast(s: string, c: char): (i: nat)
    ensures i <= |s|
    ensures i < |s| ==> s[i] == c && forall k :: i < k < |s| ==> s[k] != c
    ensures i == |s| ==> c !in s
  {
    if s == [] then 0
    else
      var n := |s| - 1;
      if s[n] == c then n
      else
        var i := FindLast(s[..n], c);
        if i == n then |s| else i
  }

  // ----- lines and pieces -----

  /** The strings a `while (std::getline(in, piece, d))` loop yields. */
  function Pieces(s: string, d: char): seq<string>
    decreases |s|
  {
    if s == [] then []
    else
      var i := Find(s, d);
      if i == |s| then [s] else [s[..i]] + Pieces(s[i + 1..], d)
  }

  lemma PiecesFirst(p: string, rest: string, d: char)
    requires d !in p
    ensures Pieces(p + [d] + rest, d) == [p] + Pieces(rest, d)
  {
    var s := p + [d] + rest;
    FindAt(s, d, |p|);
    assert s[..|p|] == p && s[|p| + 1..] == rest;
  }

  lemma PiecesWhole(p: string, d: char)
    requires d !in p && p != []
    ensures Pieces(p, d) == [p]
  {
    FindAt(p, d, |p|);
  }

  /** Every line followed by the given terminator. */
  function Terminated(lines: seq<string>, end: string): string {
    if lines == [] then "" else lines[0] + end + Terminated(lines[1..], end)
  }

  lemma {:induction false} TerminatedAppend(a: seq<string>, b: seq<string>, end: string)
    ensures Terminated(a + b, end) == Terminated(a, end) + Terminated(b, end)
  {
    if a == [] {
      assert a + b == b;
    } else {
      assert (a + b)[1..] == a[1..] + b;
      TerminatedAppend(a[1..], b, end);
    }
  }

  lemma TerminatedOne(line: string, end: string)
    ensures Terminated([line], end) == line + end
  {
    assert Terminated([line][1..], end) == "";
  }

  /** `if (line.back() == '\r') line.pop_back()` */
  function StripCr(line: string): string {
    if line != [] && line[|line| - 1] == '\r' then line[..|line| - 1] else line
  }

  function StripCrs(lines: seq<string>): (r: seq<string>)
    ensures |r| == |lines| && forall i :: 0 <= i < |lines| ==> r[i] == StripCr(lines[i])
  {
    if lines == [] then [] else [StripCr(lines[0])] + StripCrs(lines[1..])
  }

  /** The lines the description parser sees. */
  function Lines(text: string): seq<string> {
    StripCrs(Pieces(text, '\n'))
  }

  ghost predicate NoLf(lines: seq<string>) {
    forall i :: 0 <= i < |lines| ==> '\n' !in lines[i]
  }

  /** Lines written with CR LF are read back exactly, carriage returns inside them included. */
  lemma {:induction false} LinesOfCrLf(lines: seq<string>)
    requires NoLf(lines)
    ensures Lines(Terminated(lines, "\r\n")) == lines
  {
    if lines != [] {
      var rest := Terminated(lines[1..], "\r\n");
      var first := lines[0] + "\r";
      assert Terminated(lines, "\r\n") == first + ['\n'] + rest;
      PiecesFirst(first, rest, '\n');
      assert StripCr(first) == lines[0];
      assert ([first] + Pieces(rest, '\n'))[1..] == Pieces(rest, '\n');
      LinesOfCrLf(lines[1..]);
    }
  }

  /** Lines written with a bare LF come back with at most one trailing CR removed. */
  lemma {:induction false} LinesOfLf(lines: seq<string>)
    requires NoLf(lines)
    ensures Lines(Terminated(lines, "\n")) == StripCrs(lines)
  {
    if lines != [] {
      var rest := Terminated(lines[1..], "\n");
      assert Terminated(lines, "\n") == lines[0] + ['\n'] + rest;
      PiecesFirst(lines[0], rest, '\n');
      assert ([lines[0]] + Pieces(rest, '\n'))[1..] == Pieces(rest, '\n');
      LinesOfLf(lines[1..]);
    }
  }

  // ----- toolkit::split -----

  /** `toolkit::split` on a one-character delimiter: empty pieces are dropped. */
  function Split(s: string, d: char): seq<string>
    decreases |s|
  {
    if s == [] then []
    else
      var i := Find(s, d);
      (if i > 0 then [s[..i]] else []) + (if i == |s| then [] else Split(s[i + 1..], d))
  }

  function Join(parts: seq<string>, d: char): string {
    if parts == [] then ""
    else if |parts| == 1 then parts[0]
    else parts[0] + [d] + Join(parts[1..], d)
  }

  /** A non-empty piece free of the delimiter. */
  predicate Token(t: string, d: char) {
    t != [] && d !in t
  }

  lemma {:induction false} SplitJoin(parts: seq<string>, d: char)
    requires forall i :: 0 <= i < |parts| ==> Token(parts[i], d)
    ensures Split(Join(parts, d), d) == parts
  {
    if |parts| == 1 {
      FindAt(parts[0], d, |parts[0]|);
      assert parts[0][..|parts[0]|] == parts[0];
    } else if |parts| > 1 {
      var t, rest := parts[0], Join(parts[1..], d);
      var s := t + [d] + rest;
      FindAt(s, d, |t|);
      assert s[..|t|] == t && s[|t| + 1..] == rest;
      SplitJoin(parts[1..], d);
    }
  }

  lemma {:induction false} JoinFree(parts: seq<string>, d: char, c: char)
    requires c != d
    requires forall i :: 0 <= i < |parts| ==> c !in parts[i]
    ensures c !in Join(parts, d)
  {
    if |parts| > 1 { JoinFree(parts[1..], d, c); }
  }

  // ----- decimal numbers -----

  predicate IsDigit(c: char) { '0' <= c <= '9' }

  function DigitChar(n: nat): (c: char)
    requires n < 10
    ensures IsDigit(c) && DigitValue(c) == n
  {
    ('0' as int + n) as char
  }

  function DigitValue(c: char): nat
    requires IsDigit(c)
  {
    c as int - '0' as int
  }

  /** Decimal printing of an unsigned number. */
  function Dec(n: nat): (s: string)
    ensures s != []
    ensures forall i :: 0 <= i < |s| ==> IsDigit(s[i])
  {
    if n < 10 then [DigitChar(n)] else Dec(n / 10) + [DigitChar(n % 10)]
  }

  function DecInt(i: int): string {
    if i < 0 then "-" + Dec(-i) else Dec(i)
  }

  /** Number of leading digits. */
  function DigitRun(s: string): (n: nat)
    ensures n <= |s|
    ensures forall i :: 0 <= i < n ==> IsDigit(s[i])
    ensures n < |s| ==> !IsDigit(s[n])
  {
    if s == [] || !IsDigit(s[0]) then 0 else 1 + DigitRun(s[1..])
  }

  lemma DigitRunAt(s: string, n: nat)
    requires n <= |s| && (n < |s| ==> !IsDigit(s[n]))
    requires forall i :: 0 <= i < n ==> IsDigit(s[i])
    ensures DigitRun(s) == n
  {
  }

  function Value(s: string): nat
    requires forall i :: 0 <= i < |s| ==> IsDigit(s[i])
  {
    if s == [] then 0
    else 10 * Value(s[..|s| - 1]) + DigitValue(s[|s| - 1])
  }

  lemma {:induction false} ValueOfDec(n: nat)
    ensures Value(Dec(n)) == n
  {
    if n < 10 {
      assert Dec(n)[..0] == "";
    } else {
      ValueOfDec(n / 10);
      assert Dec(n)[..|Dec(n)| - 1] == Dec(n / 10);
    }
  }

  function Zeros(k: nat): (s: string)
    ensures |s| == k && forall i :: 0 <= i < k ==> s[i] == '0'
  {
    if k == 0 then "" else Zeros(k - 1) + "0"
  }

  lemma {:induction false} ValueOfZeros(k: nat, s: string)
    requires forall i :: 0 <= i < |s| ==> IsDigit(s[i])
    ensures Value(Zeros(k) + s) == Value(s)
    decreases |s|, k
  {
    var t := Zeros(k) + s;
    if s != [] {
      assert t[..|t| - 1] == Zeros(k) + s[..|s| - 1];
      ValueOfZeros(k, s[..|s| - 1]);
    } else if k > 0 {
      assert t[..|t| - 1] == Zeros(k - 1) + s;
      ValueOfZeros(k - 1, s);
    }
  }

  /** `std::setw(w) << std::setfill('0')` */
  function Padded(n: nat, w: nat): string {
    var s := Dec(n);
    if |s| < w then Zeros(w - |s|) + s else s
  }

  predicate IsSpace(c: char) {
    c == ' ' || c == '\t' || c == '\n' || c == '\r' || c == 11 as char || c == 12 as char
  }

  function SkipSpaces(s: string): (t: string)
    ensures |t| <= |s| && (t != [] ==> !IsSpace(t[0]))
  {
    if s != [] && IsSpace(s[0]) then SkipSpaces(s[1..]) else s
  }

  function ScanNat(s: string): Option<nat> {
    var n := DigitRun(s);
    if n == 0 then None else Some(Value(s[..n]))
  }

  /** `sscanf` of one decimal integer: leading spaces, an optional sign, then digits. */
  function ScanInt(s: string): Option<int> {
    var t := SkipSpaces(s);
    if t != [] && t[0] == '-' then
      match ScanNat(t[1..]) case Some(n) => Some(0 - n) case None => None
    else
      match ScanNat(if t != [] && t[0] == '+' then t[1..] else t)
      case Some(n) => Some(n)
      case None => None
  }

  /** `XMLUtil::ToUnsigned`, `ToUnsigned64` and `ToInt`, at the width of their targets. */
  function ToUnsigned(s: string): Option<u32> {
    match ScanInt(s) case Some(n) => Some(n % 0x1_0000_0000) case None => None
  }

  function ToUnsigned64(s: string): Option<u64> {
    match ScanInt(s) case Some(n) => Some(n % 0x1_0000_0000_0000_0000) case None => None
  }

  function ToInt(s: string): Option<i32> {
    match ScanInt(s)
    case Some(n) => Some((n + 0x8000_0000) % 0x1_0000_0000 - 0x8000_0000)
    case None => None
  }

  lemma ScanNatOf(s: string, n: nat, rest: string)
    requires s != [] && forall i :: 0 <= i < |s| ==> IsDigit(s[i])
    requires Value(s) == n
    requires rest != [] ==> !IsDigit(rest[0])
    ensures ScanNat(s + rest) == Some(n)
  {
    DigitRunAt(s + rest, |s|);
    assert (s + rest)[..|s|] == s;
  }

  /** A printed number is scanned back, whatever non-digit text follows it. */
  lemma ScanDec(n: nat, rest: string)
    requires rest != [] ==> !IsDigit(rest[0])
    ensures ScanNat(Dec(n) + rest) == Some(n) && ScanInt(Dec(n) + rest) == Some(n)
  {
    ValueOfDec(n);
    ScanNatOf(Dec(n), n, rest);
    assert SkipSpaces(Dec(n) + rest) == Dec(n) + rest;
  }

  lemma ScanPadded(n: nat, w: nat)
    ensures ScanInt(Padded(n, w)) == Some(n)
  {
    ValueOfDec(n);
    var s := Padded(n, w);
    if |Dec(n)| < w { ValueOfZeros(w - |Dec(n)|, Dec(n)); }
    ScanNatOf(s, n, "");
    assert s + "" == s;
    assert SkipSpaces(s) == s;
  }

  lemma ScanDecInt(i: int)
    ensures ScanInt(DecInt(i)) == Some(i)
  {
    if i < 0 {
      ScanDec(-i, "");
      assert Dec(-i) + "" == Dec(-i);
      assert DecInt(i)[1..] == Dec(-i);
      assert SkipSpaces(DecInt(i)) == DecInt(i);
    } else {
      ScanDec(i, "");
      assert Dec(i) + "" == Dec(i);
    }
  }

  /** The decimal notation: the last digit is that of the rest by ten, the ones before it are those
      of the tenth. */
  lemma DecimalNotation(n: nat, i: int)
    ensures Dec(n) == (if n < 10 then "" else Dec(n / 10)) + ["0123456789"[n % 10]]
    ensures DecInt(i) == if i < 0 then "-" + Dec(-i) else Dec(i)
  {
    Digits(n % 10);
    if n < 10 { assert Dec(n) == "" + [DigitChar(n)]; }
  }

  lemma Digits(d: nat)
    requires d < 10
    ensures DigitChar(d) == "0123456789"[d]
  {
    var s := "0123456789";
    assert s[0] == '0' && s[1] == '1' && s[2] == '2' && s[3] == '3' && s[4] == '4';
    assert s[5] == '5' && s[6] == '6' && s[7] == '7' && s[8] == '8' && s[9] == '9';
  }

  lemma DecFree(n: nat, c: char)
    requires !IsDigit(c)
    ensures c !in Dec(n)
  {}
}
