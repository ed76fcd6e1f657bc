/** Device configuration types: a set of flags, printed as a list of names and read back, and the
    download of the types that were asked for (`RequestConfigDownloadImpl`). */
module ConfigFlags {
  import opened Text
  import Request

  // ----- flags -----

  type Flags = bv32

  const INVALID: Flags := 0

  function Or(a: Flags, b: Flags): Flags { a | b }

  function And(a: Flags, b: Flags): Flags { a & b }

  predicate Single(b: Flags) { b != 0 && b & (b - 1) == 0 }

  predicate Meets(a: Flags, b: Flags) { And(a, b) != 0 }

  predicate Within(a: Flags, b: Flags) { And(a, !b) == 0 }

  lemma SingleMeets(b: Flags, val: Flags)
    requires Single(b)
    ensures And(b, val) == if Meets(b, val) then b else 0
  {}

  lemma SinglesMeet(a: Flags, b: Flags)
    requires Single(a) && Single(b)
    ensures Meets(a, b) <==> a == b
  {}

  lemma Distribute(val: Flags, a: Flags, b: Flags)
    ensures And(val, Or(a, b)) == Or(And(a, val), And(val, b))
  {}

  lemma OrAssociative(a: Flags, b: Flags, c: Flags)
    ensures Or(Or(a, b), c) == Or(a, Or(b, c))
  {}

  lemma OrZero(a: Flags)
    ensures Or(a, 0) == a && Or(0, a) == a && And(a, 0) == 0
  {}

  lemma OrAnd(a: Flags, b: Flags, c: Flags)
    ensures And(Or(a, b), c) == Or(And(a, c), And(b, c))
  {}

  lemma OrIsZero(a: Flags, b: Flags)
    ensures Or(a, b) == 0 <==> a == 0 && b == 0
  {}

  lemma MeetsOr(a: Flags, b: Flags, c: Flags)
    ensures Meets(Or(a, b), c) <==> Meets(a, c) || Meets(b, c)
  {
    hide Or, And;
    OrAnd(a, b, c);
    OrIsZero(And(a, c), And(b, c));
  }

  lemma WithinOr(a: Flags, b: Flags, c: Flags)
    ensures Within(Or(a, b), c) <==> Within(a, c) && Within(b, c)
  {
    hide Or, And;
    OrAnd(a, b, !c);
    OrIsZero(And(a, !c), And(b, !c));
  }

  lemma NothingMeets(b: Flags)
    ensures !Meets(0, b) && Within(0, b)
  {}

  // ----- names -----

  datatype Row = Row(bit: Flags, name: string)

  function Lower(c: char): char {
    if 'A' <= c <= 'Z' then (c as int + 32) as char else c
  }

  /** Only the letters A to Z change, each to its small letter. */
  lemma LowerLetters(c: char, i: nat)
    requires i < 26
    ensures Lower("ABCDEFGHIJKLMNOPQRSTUVWXYZ"[i]) == "abcdefghijklmnopqrstuvwxyz"[i]
    ensures c < 'A' || c > 'Z' ==> Lower(c) == c
  {
    Letters(i);
  }

  lemma Letters(i: nat)
    requires i < 26
    ensures "ABCDEFGHIJKLMNOPQRSTUVWXYZ"[i] as int == 'A' as int + i && "abcdefghijklmnopqrstuvwxyz"[i] as int == 'a' as int + i
  {}

  /** `strcasecmp` finds no difference. */
  predicate SameName(a: string, b: string) {
    |a| == |b| && forall i :: 0 <= i < |a| ==> Lower(a[i]) == Lower(b[i])
  }

  predicate Distinct(r: Row, q: Row) { r.bit != q.bit && !SameName(r.name, q.name) }

  /** Any table of single flags with names that survive the list; its order is that of the iteration
      over the source's hash map. */
  ghost predicate Table(rows: seq<Row>) {
    && (forall i :: 0 <= i < |rows| ==> Single(rows[i].bit) && Token(rows[i].name, '/'))
    && (forall i, j :: 0 <= i < j < |rows| ==> Distinct(rows[i], rows[j]))
  }

  function Selected(rows: seq<Row>, val: Flags): seq<Row> {
    if rows == [] then []
    else (if Meets(rows[0].bit, val) then [rows[0]] else []) + Selected(rows[1..], val)
  }

  function Names(rows: seq<Row>): (names: seq<string>)
    ensures |names| == |rows| && forall i :: 0 <= i < |rows| ==> names[i] == rows[i].name
  {
    if rows == [] then [] else [rows[0].name] + Names(rows[1..])
  }

  /** The element's text, when one is written. */
  function Printed(rows: seq<Row>, val: Flags): Option<string> {
    if val == INVALID || Selected(rows, val) == [] then None
    else Some(Join(Names(Selected(rows, val)), '/'))
  }

  /** The first row of that name. */
  function Lookup(rows: seq<Row>, name: string): Option<Row> {
    if rows == [] then None
    else if SameName(rows[0].name, name) then Some(rows[0])
    else Lookup(rows[1..], name)
  }

  function Bit(rows: seq<Row>, name: string): Flags {
    match Lookup(rows, name) case Some(row) => row.bit case None => 0
  }

  function Added(rows: seq<Row>, names: seq<string>, val: Flags): Flags {
    if names == [] then val
    else Or(Added(rows, names[..|names| - 1], val), Bit(rows, names[|names| - 1]))
  }

  function Parsed(rows: seq<Row>, text: string, val: Flags): Flags { Added(rows, Split(text, '/'), val) }

  function Mask(rows: seq<Row>): Flags {
    if rows == [] then 0 else Or(rows[0].bit, Mask(rows[1..]))
  }

  function Bits(rows: seq<Row>): Flags {
    if rows == [] then 0 else Or(Bits(rows[..|rows| - 1]), rows[|rows| - 1].bit)
  }

  lemma {:induction false} LookupOwn(rows: seq<Row>, i: nat)
    requires Table(rows) && i < |rows|
    ensures Lookup(rows, rows[i].name) == Some(rows[i])
  {
    hide Single, Token;
    if i > 0 {
      assert Distinct(rows[0], rows[i]);
      assert Table(rows[1..]) by {
        forall j, k | 0 <= j < k < |rows[1..]| ensures Distinct(rows[1..][j], rows[1..][k]) {
          assert Distinct(rows[j + 1], rows[k + 1]);
        }
      }
      LookupOwn(rows[1..], i - 1);
    }
  }

  lemma {:induction false} SelectedIn(rows: seq<Row>, val: Flags)
    ensures forall r :: r in Selected(rows, val) ==> r in rows
  {
    if rows != [] { SelectedIn(rows[1..], val); }
  }

  lemma {:induction false} BitsFirst(row: Row, rest: seq<Row>)
    ensures Bits([row] + rest) == Or(row.bit, Bits(rest))
  {
    hide Or;
    OrZero(row.bit);
    var all := [row] + rest;
    if rest == [] {
      assert all[..|all| - 1] == [];
    } else {
      var front, last := rest[..|rest| - 1], rest[|rest| - 1];
      assert all[..|all| - 1] == [row] + front;
      BitsFirst(row, front);
      OrAssociative(row.bit, Bits(front), last.bit);
    }
  }

  lemma {:induction false} SelectedBits(rows: seq<Row>, val: Flags)
    requires forall i :: 0 <= i < |rows| ==> Single(rows[i].bit)
    ensures Bits(Selected(rows, val)) == And(val, Mask(rows))
  {
    hide Or, And, Single, Meets;
    OrZero(val);
    if rows != [] {
      SelectedBits(rows[1..], val);
      SingleMeets(rows[0].bit, val);
      Distribute(val, rows[0].bit, Mask(rows[1..]));
      OrZero(And(val, Mask(rows[1..])));
      if Meets(rows[0].bit, val) {
        BitsFirst(rows[0], Selected(rows[1..], val));
      } else {
        assert Selected(rows, val) == Selected(rows[1..], val);
      }
    }
  }

  lemma {:induction false} AddedNames(table: seq<Row>, rows: seq<Row>)
    requires Table(table) && forall r :: r in rows ==> r in table
    ensures Added(table, Names(rows), 0) == Bits(rows)
  {
    hide Or, Table, Lookup;
    if rows != [] {
      var front, last := rows[..|rows| - 1], rows[|rows| - 1];
      assert Names(rows)[..|rows| - 1] == Names(front);
      AddedNames(table, front);
      assert last in rows && last in table;
      var i :| 0 <= i < |table| && table[i] == last;
      LookupOwn(table, i);
    }
  }

  ghost predicate SameRows(rows: seq<Row>, others: seq<Row>) { forall r :: r in rows <==> r in others }

  /** What is printed from one table, whatever its order, and read with the same rows in any other
      order gives back exactly the known flags; nothing is printed exactly when there are none. */
  lemma FlagsRoundTrip(rows: seq<Row>, others: seq<Row>, val: Flags)
    requires Table(rows) && Table(others) && SameRows(rows, others)
    ensures Printed(rows, val) == None <==> And(val, Mask(rows)) == 0
    ensures Printed(rows, val).Some? ==> Parsed(others, Printed(rows, val).value, INVALID) == And(val, Mask(rows))
  {
    hide Or, And, Selected, Added, Split, Join, Mask, Names, Table;
    var chosen := Selected(rows, val);
    SelectedIn(rows, val);
    TableTokens(rows, chosen);
    SelectedBits(rows, val);
    SplitJoin(Names(chosen), '/');
    AddedNames(others, chosen);
    if chosen == [] {
      assert Bits([]) == 0;
    } else if val == INVALID {
      ZeroAnd(Mask(rows));
      BitsNotZero(chosen);
    } else {
      BitsNotZero(chosen);
    }
  }

  lemma TableTokens(rows: seq<Row>, chosen: seq<Row>)
    requires Table(rows) && forall r :: r in chosen ==> r in rows
    ensures forall i :: 0 <= i < |rows| ==> Single(rows[i].bit)
    ensures forall i :: 0 <= i < |chosen| ==> Single(chosen[i].bit) && Token(Names(chosen)[i], '/')
  {
    hide Single, Token;
    forall i | 0 <= i < |chosen| ensures Single(chosen[i].bit) && Token(chosen[i].name, '/') {
      assert chosen[i] in rows;
    }
  }

  lemma ZeroAnd(b: Flags)
    ensures And(0, b) == 0
  {}

  lemma BitsNotZero(rows: seq<Row>)
    requires rows != [] && Single(rows[|rows| - 1].bit)
    ensures Bits(rows) != 0
  {
    OrNotZero(Bits(rows[..|rows| - 1]), rows[|rows| - 1].bit);
    hide Or, Single;
  }

  lemma OrNotZero(a: Flags, b: Flags)
    requires Single(b)
    ensures Or(a, b) != 0
  {}

  ghost predicate Named(names: seq<string>, name: string) {
    exists k :: 0 <= k < |names| && SameName(name, names[k])
  }

  /** Reading any text: a row's flag is in the result if and only if it was there before or one of the
      pieces between slashes is the row's name, in any case; other pieces are ignored. */
  lemma ParsedExactly(rows: seq<Row>, text: string, val: Flags, i: nat)
    requires Table(rows) && i < |rows|
    ensures Meets(Parsed(rows, text, val), rows[i].bit) <==>
              Meets(val, rows[i].bit) || Named(Split(text, '/'), rows[i].name)
  {
    hide Split, Added, Meets, Named, Table;
    AddedExactly(rows, Split(text, '/'), val, i);
  }

  lemma {:induction false} LookupIs(rows: seq<Row>, name: string, i: nat)
    requires Table(rows) && i < |rows|
    ensures Meets(Bit(rows, name), rows[i].bit) <==> SameName(rows[i].name, name)
  {
    hide Single, Meets, Token;
    NothingMeets(rows[i].bit);
    if i == 0 {
      if !SameName(rows[0].name, name) && Lookup(rows[1..], name).Some? {
        var j := LookupAt(rows[1..], name);
        assert Distinct(rows[0], rows[j + 1]);
        SinglesMeet(rows[j + 1].bit, rows[0].bit);
      } else {
        SinglesMeet(rows[0].bit, rows[0].bit);
      }
    } else {
      assert Distinct(rows[0], rows[i]);
      if SameName(rows[0].name, name) {
        SinglesMeet(rows[0].bit, rows[i].bit);
        if SameName(rows[i].name, name) { NameTransfer(rows[0].name, rows[i].name, name); }
      } else {
        assert Table(rows[1..]) by {
          forall j, k | 0 <= j < k < |rows[1..]| ensures Distinct(rows[1..][j], rows[1..][k]) {
            assert Distinct(rows[j + 1], rows[k + 1]);
          }
        }
        LookupIs(rows[1..], name, i - 1);
      }
    }
  }

  lemma NameTransfer(a: string, b: string, name: string)
    requires SameName(a, name) && SameName(b, name)
    ensures SameName(a, b)
  {}

  lemma {:induction false} LookupAt(rows: seq<Row>, name: string) returns (j: nat)
    requires Lookup(rows, name).Some?
    ensures j < |rows| && Lookup(rows, name) == Some(rows[j]) && SameName(rows[j].name, name)
  {
    if SameName(rows[0].name, name) {
      j := 0;
    } else {
      j := LookupAt(rows[1..], name);
      j := j + 1;
    }
  }

  lemma {:induction false} AddedExactly(rows: seq<Row>, names: seq<string>, val: Flags, i: nat)
    requires Table(rows) && i < |rows|
    ensures Meets(Added(rows, names, val), rows[i].bit) <==>
              Meets(val, rows[i].bit) || Named(names, rows[i].name)
  {
    hide Or, Table, Meets, SameName, Bit;
    if names != [] {
      var front, last := names[..|names| - 1], names[|names| - 1];
      AddedExactly(rows, front, val, i);
      LookupIs(rows, last, i);
      MeetsOr(Added(rows, front, val), Bit(rows, last), rows[i].bit);
      if k :| 0 <= k < |names| && SameName(rows[i].name, names[k]) {
        assert k == |names| - 1 || SameName(rows[i].name, front[k]);
      }
      if k :| 0 <= k < |front| && SameName(rows[i].name, front[k]) {
        assert SameName(rows[i].name, names[k]);
      }
    }
  }

  /** The configuration types of the standard. */
  const TYPES: seq<Row> := [
    Row(1, "BasicParam"), Row(2, "VideoParamOpt"), Row(4, "SVACEncodeConfig"), Row(8, "SVACDecodeConfig"),
    Row(16, "VideoParamAttribute"), Row(32, "VideoRecordPlan"), Row(64, "VideoAlarmRecord"), Row(128, "PictureMask"),
    Row(256, "FrameMirror"), Row(512, "AlarmReport"), Row(1024, "OSDConfig"), Row(2048, "SnapShotConfig")]

  /** A mark that tells the names apart, whatever their case. */
  function Mark(name: string): (int, char, char) {
    (|name|, if |name| > 0 then Lower(name[0]) else '/', if |name| > 4 then Lower(name[4]) else '/')
  }

  lemma MarksDiffer(a: string, b: string)
    requires Mark(a) != Mark(b)
    ensures !SameName(a, b)
  {}

  function TypeMark(i: nat): (int, char, char)
    requires i < 12
  {
    [(10, 'b', 'c'), (13, 'v', 'o'), (16, 's', 'e'), (16, 's', 'd'), (19, 'v', 'o'), (15, 'v', 'o'),
     (16, 'v', 'o'), (11, 'p', 'u'), (11, 'f', 'e'), (11, 'a', 'm'), (9, 'o', 'o'), (14, 's', 's')][i]
  }

  lemma TypeMarks(i: nat)
    requires i < 12
    ensures Mark(TYPES[i].name) == TypeMark(i)
  {}

  lemma FirstTokens(i: nat)
    requires i < 4
    ensures Token(TYPES[i].name, '/')
  {}

  lemma MiddleTokens(i: nat)
    requires 4 <= i < 8
    ensures Token(TYPES[i].name, '/')
  {}

  lemma LastTokens(i: nat)
    requires 8 <= i < 12
    ensures Token(TYPES[i].name, '/')
  {}

  lemma TypeBits(i: nat)
    requires i < 12
    ensures Single(TYPES[i].bit) && TYPES[i].bit == 1 << i
  {}

  lemma MarksDistinct(i: nat, j: nat)
    requires i < j < 12
    ensures TypeMark(i) != TypeMark(j) && TYPES[i].bit != TYPES[j].bit
  {}

  /** The round trip holds for the twelve types. */
  lemma TypesTable()
    ensures Table(TYPES)
  {
    hide Single, Token, TypeMark, Mark;
    forall i | 0 <= i < |TYPES| ensures Single(TYPES[i].bit) && Token(TYPES[i].name, '/') {
      if i < 4 { FirstTokens(i); } else if i < 8 { MiddleTokens(i); } else { LastTokens(i); }
      TypeBits(i);
    }
    forall i, j | 0 <= i < j < |TYPES| ensures Distinct(TYPES[i], TYPES[j]) {
      TypeMarks(i);
      TypeMarks(j);
      MarksDistinct(i, j);
      MarksDiffer(TYPES[i].name, TYPES[j].name);
    }
  }

  // ----- the loops -----

  /** `new_xml_element`: the text of the element, when one is inserted. */
  method Print(rows: seq<Row>, val: Flags) returns (text: Option<string>)
    ensures text == Printed(rows, val)
  {
    hide Or, And, Meets;
    if val == INVALID { return None; }
    var out := "";
    ghost var chosen: seq<Row> := [];
    for i := 0 to |rows|
      invariant out == Terminated(Names(chosen), "/")
      invariant Selected(rows, val) == chosen + Selected(rows[i..], val)
    {
      if Meets(rows[i].bit, val) {
        out := out + (rows[i].name + "/");
        NamesAppend(chosen, rows[i]);
        TerminatedAppend(Names(chosen), [rows[i].name], "/");
        TerminatedOne(rows[i].name, "/");
        assert chosen + Selected(rows[i..], val) == (chosen + [rows[i]]) + Selected(rows[i + 1..], val);
        chosen := chosen + [rows[i]];
      }
    }
    assert chosen == Selected(rows, val);
    if out == "" {
      if chosen != [] { TerminatedIsJoin(Names(chosen)); }
      return None;
    }
    TerminatedIsJoin(Names(chosen));
    return Some(out[..|out| - 1]);
  }

  lemma {:induction false} NamesAppend(rows: seq<Row>, row: Row)
    ensures Names(rows + [row]) == Names(rows) + [row.name]
  {}

  lemma {:induction false} TerminatedIsJoin(names: seq<string>)
    requires names != []
    ensures Terminated(names, "/") == Join(names, '/') + "/"
  {
    if |names| > 1 { TerminatedIsJoin(names[1..]); }
  }

  /** `from_xml_element` on the text of the element. */
  method Parse(rows: seq<Row>, text: string, before: Flags) returns (val: Flags, known: bool)
    ensures val == Parsed(rows, text, before)
    ensures known <==> val != INVALID
  {
    hide Or;
    val := before;
    var list := Split(text, '/');
    for i := 0 to |list|
      invariant val == Added(rows, list[..i], before)
    {
      var j := 0;
      while j < |rows| && !SameName(rows[j].name, list[i])
        invariant 0 <= j <= |rows| && Lookup(rows, list[i]) == Lookup(rows[j..], list[i])
      {
        j := j + 1;
      }
      OrZero(val);
      if j < |rows| {
        val := Or(val, rows[j].bit);
      }
      assert list[..i + 1][..i] == list[..i];
    }
    assert list[..|list|] == list;
    known := val != INVALID;
  }

  // ----- config download -----

  /** A response: the types of the configurations in it, and whether its result is OK. */
  datatype Response = Response(types: Flags, ok: bool)

  datatype Download = Download(received: Flags, status: Request.Status, completed: bool)

  predicate Refusal(r: Response) { r.types == INVALID && !r.ok }

  function OnResponse(requested: Flags, d: Download, r: Response): Download {
    if d.completed then d
    else
      var n := d.(received := Or(d.received, r.types));
      if Refusal(r) then n.(status := Request.Failed, completed := true)
      else if n.received == requested then n.(status := Request.Succeeded, completed := true)
      else n
  }

  function Handled(requested: Flags, rs: seq<Response>): Download {
    if rs == [] then Download(INVALID, Request.Replied, false)
    else OnResponse(requested, Handled(requested, rs[..|rs| - 1]), rs[|rs| - 1])
  }

  function Union(rs: seq<Response>): Flags {
    if rs == [] then 0 else Or(Union(rs[..|rs| - 1]), rs[|rs| - 1].types)
  }

  ghost predicate Arrived(rs: seq<Response>, b: Flags) {
    exists k :: 0 <= k < |rs| && Meets(rs[k].types, b)
  }

  lemma {:induction false} UnionMeets(rs: seq<Response>, b: Flags)
    ensures Meets(Union(rs), b) <==> Arrived(rs, b)
  {
    hide Meets, Or;
    NothingMeets(b);
    if rs != [] {
      var front := rs[..|rs| - 1];
      UnionMeets(front, b);
      MeetsOr(Union(front), rs[|rs| - 1].types, b);
      if Arrived(front, b) {
        var k :| 0 <= k < |front| && Meets(front[k].types, b);
        assert Meets(rs[k].types, b);
      }
      if Arrived(rs, b) {
        var k :| 0 <= k < |rs| && Meets(rs[k].types, b);
        assert k == |rs| - 1 || Meets(front[k].types, b);
      }
    }
  }

  ghost predicate OnlyRequested(requested: Flags, rs: seq<Response>) {
    forall k :: 0 <= k < |rs| ==> Within(rs[k].types, requested)
  }

  lemma {:induction false} UnionWithin(requested: Flags, rs: seq<Response>)
    ensures Within(Union(rs), requested) <==> OnlyRequested(requested, rs)
  {
    hide Within, Or;
    NothingMeets(requested);
    if rs != [] {
      var front := rs[..|rs| - 1];
      UnionWithin(requested, front);
      WithinOr(Union(front), rs[|rs| - 1].types, requested);
      assert OnlyRequested(requested, rs) ==> OnlyRequested(requested, front) by {
        if OnlyRequested(requested, rs) {
          forall k | 0 <= k < |front| ensures Within(front[k].types, requested) { assert Within(rs[k].types, requested); }
        }
      }
    }
  }

  ghost predicate AllArrived(requested: Flags, rs: seq<Response>) {
    forall b :: Single(b) && Meets(requested, b) ==> Arrived(rs, b)
  }

  function Missing(a: Flags, b: Flags): Flags { b & !a }

  function Lowest(d: Flags): Flags { d & (!d + 1) }

  lemma LowestSingle(d: Flags)
    requires d != 0
    ensures Lowest(d) != 0 && Lowest(d) & (Lowest(d) - 1) == 0 && Lowest(d) & !d == 0
  {}

  /** A flag that is in `b` and not in `a`. */
  lemma MissingFlag(a: Flags, b: Flags) returns (c: Flags)
    requires Within(a, b) && a != b
    ensures Single(c) && Meets(b, c) && !Meets(a, c)
  {
    c := Lowest(Missing(a, b));
    MissingNotZero(a, b);
    LowestSingle(Missing(a, b));
    LowestMeets(a, b, c);
    hide Lowest, Missing, Meets;
  }

  lemma MissingNotZero(a: Flags, b: Flags)
    requires Within(a, b) && a != b
    ensures Missing(a, b) != 0
  {}

  lemma LowestMeets(a: Flags, b: Flags, c: Flags)
    requires c != 0 && c & !Missing(a, b) == 0
    ensures Meets(b, c) && !Meets(a, c)
  {}

  /** What has been received is what was requested if and only if nothing else came and every requested
      flag came. */
  lemma Complete(requested: Flags, rs: seq<Response>)
    ensures Union(rs) == requested <==> OnlyRequested(requested, rs) && AllArrived(requested, rs)
  {
    hide Union, Meets, Single, Within, Arrived, OnlyRequested;
    UnionWithin(requested, rs);
    SelfWithin(requested);
    forall b | Single(b) ensures Meets(Union(rs), b) <==> Arrived(rs, b) { UnionMeets(rs, b); }
    if OnlyRequested(requested, rs) && Union(rs) != requested {
      var c := MissingFlag(Union(rs), requested);
      assert !Arrived(rs, c);
    }
  }

  lemma SelfWithin(a: Flags)
    ensures Within(a, a)
  {}

  ghost predicate NoRefusal(rs: seq<Response>) { forall k :: 0 <= k < |rs| ==> !Refusal(rs[k]) }

  lemma {:induction false} HandledUnion(requested: Flags, rs: seq<Response>)
    requires NoRefusal(rs)
    ensures var d := Handled(requested, rs);
            && (!d.completed ==> d.received == Union(rs) && d.status == Request.Replied)
            && (d.completed ==> d.status == Request.Succeeded && d.received == requested)
    ensures rs != [] && !Handled(requested, rs[..|rs| - 1]).completed ==>
              (Handled(requested, rs).completed <==> Union(rs) == requested)
  {
    hide Or;
    if rs != [] { HandledUnion(requested, rs[..|rs| - 1]); }
  }

  /** When each response carries only requested types, in any order and any grouping: the download has
      ended exactly when every requested flag has arrived. */
  lemma {:induction false} DownloadEnds(requested: Flags, rs: seq<Response>)
    requires NoRefusal(rs) && OnlyRequested(requested, rs)
    ensures Handled(requested, rs).completed <==> rs != [] && AllArrived(requested, rs)
    ensures Handled(requested, rs).completed ==> Handled(requested, rs).status == Request.Succeeded
  {
    hide Union, Arrived, Single, Meets, Within;
    HandledUnion(requested, rs);
    if rs != [] {
      var front := rs[..|rs| - 1];
      DownloadEnds(requested, front);
      Complete(requested, rs);
      if Handled(requested, front).completed {
        forall b | Single(b) && Meets(requested, b) ensures Arrived(rs, b) { ArrivedEarlier(front, rs, b); }
      }
    }
  }

  lemma ArrivedEarlier(front: seq<Response>, rs: seq<Response>, b: Flags)
    requires front <= rs && Arrived(front, b)
    ensures Arrived(rs, b)
  {
    var k :| 0 <= k < |front| && Meets(front[k].types, b);
    assert Meets(rs[k].types, b);
  }

  /** A type that was not asked for, before the download has ended, keeps it from ever ending by its
      responses. */
  lemma {:induction false} StrayNeverEnds(requested: Flags, rs: seq<Response>, later: seq<Response>, stray: nat)
    requires NoRefusal(rs + later) && stray < |rs| && !Within(rs[stray].types, requested)
    requires !Handled(requested, rs).completed
    ensures !Handled(requested, rs + later).completed
    decreases |later|
  {
    hide Union, Within, Refusal, AllArrived;
    var all := rs + later;
    if later == [] {
      assert all == rs;
    } else {
      var front := all[..|all| - 1];
      assert front == rs + later[..|later| - 1];
      StrayNeverEnds(requested, rs, later[..|later| - 1], stray);
      HandledUnion(requested, all);
      Complete(requested, all);
      assert all[stray] == rs[stray];
    }
  }

  /** Response `k` refuses the download, and what came before it was never what was requested. */
  ghost predicate RefusedAt(requested: Flags, rs: seq<Response>, k: nat)
    requires k < |rs|
  {
    rs[k].types == 0 && !rs[k].ok && forall j :: 0 < j <= k ==> !Reached(requested, rs, j)
  }

  ghost predicate Refused(requested: Flags, rs: seq<Response>) {
    exists k :: 0 <= k < |rs| && RefusedAt(requested, rs, k)
  }

  /** The first `j` responses carry exactly what was requested. */
  ghost predicate Reached(requested: Flags, rs: seq<Response>, j: nat)
    requires j <= |rs|
  {
    Union(rs[..j]) == requested
  }

  ghost predicate EverReached(requested: Flags, rs: seq<Response>) {
    exists j :: 0 < j <= |rs| && Reached(requested, rs, j)
  }

  lemma RefusedLonger(requested: Flags, rs: seq<Response>)
    requires rs != []
    ensures var n := |rs| - 1;
            Refused(requested, rs) <==> Refused(requested, rs[..n]) || RefusedAt(requested, rs, n)
    ensures var n := |rs| - 1;
            EverReached(requested, rs) <==> EverReached(requested, rs[..n]) || Reached(requested, rs, n + 1)
  {
    hide Union;
    var n := |rs| - 1;
    var front := rs[..n];
    assert forall j {:trigger Reached(requested, rs, j)} {:trigger Reached(requested, front, j)} ::
        0 <= j <= n ==> (Reached(requested, rs, j) <==> Reached(requested, front, j)) by {
      forall j | 0 <= j <= n ensures rs[..j] == front[..j] {}
    }
    forall k | 0 <= k < n ensures RefusedAt(requested, rs, k) <==> RefusedAt(requested, front, k) {}
    if Refused(requested, front) {
      var k :| 0 <= k < n && RefusedAt(requested, front, k);
      assert RefusedAt(requested, rs, k);
    }
    if EverReached(requested, front) {
      var j :| 0 < j <= n && Reached(requested, front, j);
      assert Reached(requested, rs, j);
    }
  }

  /** The status of a download after any responses: failed exactly when it was refused before all that
      was requested, and nothing else, had come; succeeded exactly when that had come first. */
  lemma {:induction false} DownloadStatus(requested: Flags, rs: seq<Response>)
    ensures Handled(requested, rs).status == Request.Failed <==> Refused(requested, rs)
    ensures Handled(requested, rs).status == Request.Succeeded <==> EverReached(requested, rs) && !Refused(requested, rs)
    ensures Handled(requested, rs).completed <==> EverReached(requested, rs) || Refused(requested, rs)
    ensures !Handled(requested, rs).completed ==>
              && Handled(requested, rs).status == Request.Replied && Handled(requested, rs).received == Union(rs)
              && !EverReached(requested, rs)
  {
    hide Or, RefusedAt, Reached, EverReached, Refused;
    if rs == [] {
      NothingReached(requested);
    } else {
      var n := |rs| - 1;
      DownloadStatus(requested, rs[..n]);
      RefusedLonger(requested, rs);
      LastRefused(requested, rs);
      assert rs[..n + 1] == rs;
      assert Reached(requested, rs, n + 1) <==> Union(rs) == requested by { WholeReached(requested, rs); }
    }
  }

  lemma NothingReached(requested: Flags)
    ensures !Refused(requested, []) && !EverReached(requested, [])
  {}

  lemma WholeReached(requested: Flags, rs: seq<Response>)
    ensures Reached(requested, rs, |rs|) <==> Union(rs) == requested
  {
    assert rs[..|rs|] == rs;
  }

  lemma LastRefused(requested: Flags, rs: seq<Response>)
    requires rs != []
    ensures var n := |rs| - 1;
            RefusedAt(requested, rs, n) <==> rs[n].types == 0 && !rs[n].ok && !EverReached(requested, rs[..n])
  {
    hide Union;
    var n := |rs| - 1;
    forall j | 0 < j <= n ensures rs[..n][..j] == rs[..j] {}
    forall j | 0 < j <= n ensures Reached(requested, rs, j) <==> Reached(requested, rs[..n], j) {}
  }

  class RequestConfigDownload {
    const requested: Flags
    var received: Flags
    var status: Request.Status
    ghost var completed: bool

    ghost function Model(): Download
      reads this
    {
      Download(received, status, completed)
    }

    constructor (requested: Flags)
      ensures Model() == Handled(requested, []) && this.requested == requested
    {
      this.requested, received, status, completed := requested, INVALID, Request.Replied, false;
    }

    method Receive(r: Response) returns (isEnd: bool)
      requires !completed
      modifies this
      ensures Model() == OnResponse(requested, old(Model()), r)
      ensures completed <==> isEnd || Refusal(r)
      ensures isEnd <==> received == requested
    {
      hide Or;
      received := Or(received, r.types);
      isEnd := received == requested;
      if isEnd { status := Request.Succeeded; }
      if r.types == INVALID && !r.ok {
        status := Request.Failed;
        completed := true;
        return;
      }
      if isEnd { completed := true; }
    }
  }
}
