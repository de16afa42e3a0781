/**
  The lines of a checkpoint file, spelled out: how each kind of cell is written, how cells make up a line and lines a section.
  The reader takes exactly such lines.
 */
module CheckpointGrammar {
  import opened Types
  import opened CheckpointSpec
  import opened CheckpointReadLaws

  // ---------- Cells ----------

  predicate Digits(t: string) {
    t != "" && forall c <- t :: '0' <= c <= '9'
  }

  /** The value of digits, read from the left. */
  function Decimal(t: string, read: nat): nat
    requires forall c <- t :: '0' <= c <= '9'
  {
    if t == "" then read else
      assert t[0] in t;
      assert forall c <- t[1..] :: c in t;
      Decimal(t[1..], 10 * read + (t[0] as nat - '0' as nat))
  }

  predicate NatSpelled(t: string, n: nat) {
    Digits(t) && Decimal(t, 0) == n
  }

  predicate IntSpelled(t: string, n: int) {
    (n >= 0 && NatSpelled(t, n)) || (n <= 0 && t != "" && t[0] == '-' && NatSpelled(t[1..], -n))
  }

  /** A byte of a text field: itself, a named escape, or two hex digits. */
  datatype Piece = Raw(c: char) | Named(c: char) | Hex(high: char, low: char)

  predicate IsHex(c: char) {
    '0' <= c <= '9' || 'A' <= c <= 'F' || 'a' <= c <= 'f'
  }

  function Sixteenth(c: char): nat
    requires IsHex(c)
  {
    if c <= '9' then c as nat - '0' as nat else if c <= 'F' then c as nat - 'A' as nat + 10 else c as nat - 'a' as nat + 10
  }

  predicate PieceOk(p: Piece) {
    match p
    case Raw(c) => c != '\\'
    case Named(c) => c == '\\' || c == 'n' || c == 'r' || c == 't'
    case Hex(h, l) => IsHex(h) && IsHex(l)
  }

  function PieceText(p: Piece): string {
    match p
    case Raw(c) => [c]
    case Named(c) => ['\\', c]
    case Hex(h, l) => ['\\', 'x', h, l]
  }

  function PieceByte(p: Piece): char
    requires PieceOk(p)
  {
    match p
    case Raw(c) => c
    case Named(c) => if c == 'n' then 10 as char else if c == 'r' then 13 as char else if c == 't' then 9 as char else '\\'
    case Hex(h, l) => (16 * Sixteenth(h) + Sixteenth(l)) as char
  }

  function PiecesText(ps: seq<Piece>): string {
    if ps == [] then "" else PieceText(ps[0]) + PiecesText(ps[1..])
  }

  predicate PiecesOk(ps: seq<Piece>) {
    forall p <- ps :: PieceOk(p)
  }

  function PiecesBytes(ps: seq<Piece>): string
    requires PiecesOk(ps)
  {
    if ps == [] then "" else [PieceByte(ps[0])] + PiecesBytes(ps[1..])
  }

  ghost predicate TextSpelled(t: string, s: string) {
    exists ps: seq<Piece> :: PiecesOk(ps) && t == PiecesText(ps) && s == PiecesBytes(ps)
  }

  /** How many fields a kind of cell takes: a flag and a value for an optional one. */
  function Fields(k: Kind): nat {
    match k
    case MaybeNat => 2
    case MaybeText => 2
    case MaybeEnum(_) => 2
    case _ => 1
  }

  ghost predicate CellSpelled(k: Kind, fields: seq<string>, c: Cell) {
    && |fields| == Fields(k)
    && match k
       case IntKind => c.IntCell? && IntSpelled(fields[0], c.i)
       case NatKind => c.NatCell? && NatSpelled(fields[0], c.n)
       case TextKind => c.TextCell? && TextSpelled(fields[0], c.text)
       case FlagKind => c.FlagCell? && fields[0] == if c.flag then "1" else "0"
       case EnumKind(size) => c.EnumCell? && c.ordinal < size && IntSpelled(fields[0], c.ordinal)
       case MaybeNat =>
         c.MaybeNatCell? && if c.maybeNat.None? then fields[0] == "0" else fields[0] == "1" && NatSpelled(fields[1], c.maybeNat.value)
       case MaybeText =>
         c.MaybeTextCell? && if c.maybeText.None? then fields[0] == "0" else fields[0] == "1" && TextSpelled(fields[1], c.maybeText.value)
       case MaybeEnum(size) =>
         && c.MaybeEnumCell?
         && if c.maybeOrdinal.None? then fields[0] == "0"
            else fields[0] == "1" && c.maybeOrdinal.value < size && IntSpelled(fields[1], c.maybeOrdinal.value)
  }

  // ---------- Numbers and texts are read as spelled ----------

  lemma {:induction false} DecimalSnoc(t: string, read: nat)
    requires t != "" && forall c <- t :: '0' <= c <= '9'
    ensures var front := t[..|t| - 1];
            && (forall c <- front :: '0' <= c <= '9') && '0' <= t[|t| - 1] <= '9'
            && Decimal(t, read) == 10 * Decimal(front, read) + (t[|t| - 1] as nat - '0' as nat)
    decreases |t|
  {
    var front := t[..|t| - 1];
    assert t[|t| - 1] in t;
    assert forall c <- front :: c in t;
    if |t| > 1 {
      assert t[0] in t;
      assert forall c <- t[1..] :: c in t;
      assert front[1..] == t[1..][..|t| - 2];
      DecimalSnoc(t[1..], 10 * read + (t[0] as nat - '0' as nat));
    }
  }

  lemma {:induction false} ValueIs(t: string)
    ensures NatValue(t).Some? <==> forall c <- t :: '0' <= c <= '9'
    ensures NatValue(t).Some? ==> NatValue(t).value == Decimal(t, 0)
    decreases |t|
  {
    if t != "" {
      var front, last := t[..|t| - 1], t[|t| - 1];
      ValueIs(front);
      assert t == front + [last];
      if forall c <- t :: '0' <= c <= '9' {
        assert last in t;
        assert forall c <- front :: c in t;
        DecimalSnoc(t, 0);
      } else if IsDigit(last) {
        var c :| c in t && !('0' <= c <= '9');
        assert c in front;
      }
    }
  }

  lemma NatIs(t: string)
    ensures forall n: nat :: ParseNat(t) == Some(n) <==> NatSpelled(t, n)
  {
    ValueIs(t);
  }

  lemma IntIs(t: string)
    ensures forall n: int :: ParseInt(t) == Some(n) <==> IntSpelled(t, n)
  {
    hide NatSpelled;
    NatIs(t);
    if t != "" && t[0] == '-' {
      NatIs(t[1..]);
      NoSign(t);
    }
    forall n: int ensures ParseInt(t) == Some(n) <==> IntSpelled(t, n) {
      if t != "" && t[0] == '-' && n <= 0 { assert ParseNat(t[1..]) == Some(-n) <==> NatSpelled(t[1..], -n); }
      if n >= 0 { assert ParseNat(t) == Some(n) <==> NatSpelled(t, n); }
    }
  }

  lemma NoSign(t: string)
    requires t != "" && t[0] == '-'
    ensures forall n: nat :: !NatSpelled(t, n)
  {
    assert t[0] in t;
  }

  lemma EnumIs(t: string, size: nat)
    ensures forall n: nat :: ParseEnum(t, size) == Some(n) <==> n < size && IntSpelled(t, n)
  {
    hide IntSpelled, ParseInt;
    IntIs(t);
  }

  lemma HexIs(c: char)
    ensures HexOf(c) == if IsHex(c) then Some(Sixteenth(c)) else None
  {
  }

  lemma ByteExact(p: Piece, t: string)
    requires PieceOk(p)
    ensures UnescapeByte(PieceText(p) + t) == Some((PieceByte(p), t))
  {
    hide HexOf, IsHex, Sixteenth;
    var u := PieceText(p) + t;
    match p
    case Raw(_) => assert u[1..] == t;
    case Named(_) => assert u[2..] == t;
    case Hex(h, l) =>
      HexIs(h);
      HexIs(l);
      assert u[4..] == t;
  }

  lemma ByteSplit(t: string) returns (p: Piece)
    requires t != "" && UnescapeByte(t).Some?
    ensures PieceOk(p) && t == PieceText(p) + UnescapeByte(t).value.1 && PieceByte(p) == UnescapeByte(t).value.0
  {
    hide HexOf, IsHex, Sixteenth;
    if t[0] != '\\' {
      p := Raw(t[0]);
    } else if t[1] == 'x' {
      HexIs(t[2]);
      HexIs(t[3]);
      p := Hex(t[2], t[3]);
    } else {
      p := Named(t[1]);
    }
  }

  lemma {:induction false} TextExact(ps: seq<Piece>)
    requires PiecesOk(ps)
    ensures UnescapeField(PiecesText(ps)) == Some(PiecesBytes(ps))
  {
    hide UnescapeByte, PieceOk, PieceByte;
    if ps != [] {
      assert ps[0] in ps;
      ByteExact(ps[0], PiecesText(ps[1..]));
      TextExact(ps[1..]);
    }
  }

  lemma {:induction false} TextSplit(t: string) returns (ps: seq<Piece>)
    requires UnescapeField(t).Some?
    ensures PiecesOk(ps) && t == PiecesText(ps) && UnescapeField(t).value == PiecesBytes(ps)
    decreases |t|
  {
    hide UnescapeByte, PieceOk, PieceByte, PieceText;
    ps := [];
    if t != "" {
      var p := ByteSplit(t);
      PieceLong(p);
      var more := TextSplit(UnescapeByte(t).value.1);
      ps := [p] + more;
      assert ps[1..] == more;
    }
  }

  lemma PieceLong(p: Piece)
    ensures PieceText(p) != ""
  {
  }

  lemma TextIs(t: string)
    ensures forall s: string :: UnescapeField(t) == Some(s) <==> TextSpelled(t, s)
  {
    hide PieceOk, PieceByte, PieceText, UnescapeField;
    forall s: string ensures UnescapeField(t) == Some(s) <==> TextSpelled(t, s) {
      if UnescapeField(t) == Some(s) { var ps := TextSplit(t); }
      if TextSpelled(t, s) {
        var ps: seq<Piece> :| PiecesOk(ps) && t == PiecesText(ps) && s == PiecesBytes(ps);
        TextExact(ps);
      }
    }
  }

  // ---------- Cells, rows and lines ----------

  lemma FieldsIs(k: Kind)
    ensures Fields(k) == Width(k)
  {
  }

  lemma OneField(k: Kind, fields: seq<string>)
    requires |fields| >= 1 && !k.MaybeNat? && !k.MaybeText? && !k.MaybeEnum?
    ensures forall c: Cell :: ParseCell(k, fields) == Some(c) <==> CellSpelled(k, fields[..1], c)
  {
    hide IntSpelled, NatSpelled, TextSpelled, ParseInt, ParseNat, ParseEnum, UnescapeField;
    IntIs(fields[0]);
    NatIs(fields[0]);
    TextIs(fields[0]);
    match k
    case EnumKind(size) => EnumIs(fields[0], size);
    case _ =>
  }

  lemma TwoFields(k: Kind, fields: seq<string>)
    requires |fields| >= 2 && (k.MaybeNat? || k.MaybeText? || k.MaybeEnum?)
    ensures forall c: Cell :: ParseCell(k, fields) == Some(c) <==> CellSpelled(k, fields[..2], c)
  {
    hide IntSpelled, NatSpelled, TextSpelled, ParseInt, ParseNat, ParseEnum, UnescapeField;
    NatIs(fields[1]);
    TextIs(fields[1]);
    match k
    case MaybeEnum(size) => EnumIs(fields[1], size);
    case _ =>
  }

  /** A cell is read exactly from the fields that spell it. */
  lemma CellIs(k: Kind, fields: seq<string>)
    requires |fields| >= Width(k)
    ensures forall c: Cell :: ParseCell(k, fields) == Some(c) <==> CellSpelled(k, fields[..Width(k)], c)
  {
    if k.MaybeNat? || k.MaybeText? || k.MaybeEnum? { TwoFields(k, fields); } else { OneField(k, fields); }
  }

  /** Where the fields of the i-th cell begin. */
  function Offset(schema: seq<Kind>, i: nat): nat
    requires i <= |schema|
  {
    if i == 0 then 0 else Fields(schema[0]) + Offset(schema[1..], i - 1)
  }

  /** The i-th cell is spelled by its fields. */
  ghost predicate SpelledAt(schema: seq<Kind>, fields: seq<string>, row: Row, i: nat)
    requires i < |schema| == |row|
  {
    && Offset(schema, i) + Fields(schema[i]) <= |fields|
    && CellSpelled(schema[i], fields[Offset(schema, i)..Offset(schema, i) + Fields(schema[i])], row[i])
  }

  /** A row is spelled cell by cell, and nothing is left over. */
  ghost predicate RowSpelled(schema: seq<Kind>, fields: seq<string>, row: Row) {
    && |row| == |schema| && |fields| == Offset(schema, |schema|)
    && forall i: nat :: i < |schema| ==> SpelledAt(schema, fields, row, i)
  }

  lemma OffsetNext(schema: seq<Kind>, i: nat)
    requires i < |schema|
    ensures Offset(schema, i + 1) == Fields(schema[0]) + Offset(schema[1..], i)
  {
  }

  lemma SpelledShift(schema: seq<Kind>, fields: seq<string>, row: Row, i: nat)
    requires i + 1 < |schema| == |row| && |fields| >= Fields(schema[0])
    ensures SpelledAt(schema, fields, row, i + 1) <==> SpelledAt(schema[1..], fields[Fields(schema[0])..], row[1..], i)
  {
    hide CellSpelled, Fields, Offset;
    OffsetNext(schema, i);
    var rest, at, n := fields[Fields(schema[0])..], Offset(schema[1..], i), Fields(schema[i + 1]);
    assert schema[1..][i] == schema[i + 1] && row[1..][i] == row[i + 1];
    if at + n <= |rest| { assert rest[at..at + n] == fields[Fields(schema[0]) + at..Fields(schema[0]) + at + n]; }
  }

  lemma SpelledCons(schema: seq<Kind>, fields: seq<string>, row: Row)
    requires schema != []
    ensures RowSpelled(schema, fields, row) <==>
              && row != [] && |fields| >= Fields(schema[0]) && CellSpelled(schema[0], fields[..Fields(schema[0])], row[0])
              && RowSpelled(schema[1..], fields[Fields(schema[0])..], row[1..])
  {
    hide CellSpelled, Fields, SpelledAt, Offset;
    OffsetNext(schema, |schema| - 1);
    if row != [] && |fields| >= Fields(schema[0]) && |row| == |schema| {
      FirstAt(schema, fields, row);
      forall i: nat | i < |schema| - 1
        ensures SpelledAt(schema, fields, row, i + 1) <==> SpelledAt(schema[1..], fields[Fields(schema[0])..], row[1..], i)
      {
        SpelledShift(schema, fields, row, i);
      }
      forall i: nat | 0 < i < |schema| && SpelledAt(schema[1..], fields[Fields(schema[0])..], row[1..], i - 1)
        ensures SpelledAt(schema, fields, row, i)
      {
        SpelledShift(schema, fields, row, i - 1);
      }
    }
  }

  lemma FirstAt(schema: seq<Kind>, fields: seq<string>, row: Row)
    requires schema != [] && |row| == |schema| && |fields| >= Fields(schema[0])
    ensures SpelledAt(schema, fields, row, 0) <==> CellSpelled(schema[0], fields[..Fields(schema[0])], row[0])
  {
    hide CellSpelled, Fields;
  }

  /** A row is read exactly from the fields that spell it. */
  lemma {:induction false} RowIs(schema: seq<Kind>, fields: seq<string>, row: Row)
    ensures ParseRow(schema, fields) == Some(row) <==> RowSpelled(schema, fields, row)
    decreases |schema|
  {
    hide ParseCell, CellSpelled;
    if schema != [] {
      hide RowSpelled;
      SpelledCons(schema, fields, row);
      FieldsIs(schema[0]);
      if |fields| >= Width(schema[0]) {
        CellIs(schema[0], fields);
        if row != [] { RowIs(schema[1..], fields[Width(schema[0])..], row[1..]); }
        var more := ParseRow(schema[1..], fields[Width(schema[0])..]);
        if row != [] { assert row == [row[0]] + row[1..]; }
      }
    }
  }

  /** The first n lines of a text, and what follows them. */
  function Lines(t: string, n: nat): Option<(seq<seq<string>>, string)>
    decreases n
  {
    if n == 0 then Some(([], t))
    else
      var first := NextLine(t);
      if first.None? then None
      else
        var more := Lines(first.value.1, n - 1);
        if more.None? then None else Some(([first.value.0] + more.value.0, more.value.1))
  }

  ghost predicate LineSpelled(tag: string, schema: seq<Kind>, line: seq<string>, row: Row) {
    line != [] && line[0] == tag && RowSpelled(schema, line[1..], row)
  }

  ghost predicate LinesSpelled(s: Section, lines: seq<seq<string>>, rows: seq<Row>) {
    |lines| == |rows| && forall i :: 0 <= i < |rows| ==> LineSpelled(s.entry, s.schema, lines[i], rows[i])
  }

  /** No two entries share their key, the first `width` cells. */
  ghost predicate KeysApart(rows: seq<Row>, width: nat) {
    width > 0 ==> forall i, j :: 0 <= i < j < |rows| ==> KeyOf(rows[i], width) != KeyOf(rows[j], width)
  }

  /** A section's lines: its tag and the number of its entries, in digits; then the entries, each tagged and spelled. */
  ghost predicate SectionSpelled(s: Section, lines: seq<seq<string>>, rows: seq<Row>) {
    && lines != [] && |lines[0]| == 2 && lines[0][0] == s.tag && NatSpelled(lines[0][1], |rows|)
    && LinesSpelled(s, lines[1..], rows) && KeysApart(rows, s.width)
  }

  lemma TaggedIs(tag: string, schema: seq<Kind>, t: string, row: Row, rest: string)
    ensures TaggedRow(tag, schema, t) == Some((row, rest))
            <==> NextLine(t).Some? && NextLine(t).value.1 == rest && LineSpelled(tag, schema, NextLine(t).value.0, row)
  {
    hide NextLine, ParseRow, RowSpelled;
    if NextLine(t).Some? && NextLine(t).value.0 != [] { RowIs(schema, NextLine(t).value.0[1..], row); }
  }

  /** Entries read after others: the next lines spell them, and no key is repeated. */
  lemma {:induction false} RowsAre(s: Section, n: nat, t: string, done: seq<Row>, rows: seq<Row>, rest: string)
    requires |rows| == n && KeysApart(done, s.width)
    ensures ReadRows(s.entry, s.schema, s.width, n, t, done) == Some((done + rows, rest))
            <==> Lines(t, n).Some? && Lines(t, n).value.1 == rest && LinesSpelled(s, Lines(t, n).value.0, rows) && KeysApart(done + rows, s.width)
    decreases n
  {
    hide TaggedRow, NextLine, LineSpelled, KeyOf, HasKey;
    if n == 0 {
      assert done + rows == done;
    } else {
      var more := done + [rows[0]];
      assert rows == [rows[0]] + rows[1..] && more + rows[1..] == done + rows;
      RowsFirst(s, n, t, done, rows, rest);
      TaggedRest(s, t);
      if NextLine(t).Some? {
        TaggedIs(s.entry, s.schema, t, rows[0], NextLine(t).value.1);
        NextKey(done, rows, s.width);
        if KeysApart(more, s.width) { RowsAre(s, n - 1, NextLine(t).value.1, more, rows[1..], rest); }
        HeaderLine(t, n - 1);
        if Lines(t, n).Some? { LinesCons(s, t, n, rows); }
      }
    }
  }

  lemma TaggedRest(s: Section, t: string)
    ensures TaggedRow(s.entry, s.schema, t).Some? ==> NextLine(t).Some? && TaggedRow(s.entry, s.schema, t).value.1 == NextLine(t).value.1
  {
    hide NextLine, ParseRow;
  }

  lemma LinesCons(s: Section, t: string, n: nat, rows: seq<Row>)
    requires n > 0 && |rows| == n && NextLine(t).Some? && Lines(t, n).Some?
    ensures Lines(NextLine(t).value.1, n - 1).Some? && Lines(t, n).value.1 == Lines(NextLine(t).value.1, n - 1).value.1
    ensures LinesSpelled(s, Lines(t, n).value.0, rows)
            <==> LineSpelled(s.entry, s.schema, NextLine(t).value.0, rows[0])
                 && LinesSpelled(s, Lines(NextLine(t).value.1, n - 1).value.0, rows[1..])
  {
    hide NextLine, LineSpelled;
  }

  /** Adding entries one by one. */
  lemma NextKey(done: seq<Row>, rows: seq<Row>, width: nat)
    requires rows != [] && KeysApart(done, width)
    ensures KeysApart(done + rows, width) ==> KeysApart(done + [rows[0]], width)
    ensures KeysApart(done + [rows[0]], width) <==> !(width > 0 && HasKey(done, width, KeyOf(rows[0], width)))
  {
    hide KeyOf;
    if KeysApart(done + rows, width) && width > 0 {
      forall i, j | 0 <= i < j < |done + [rows[0]]| ensures KeyOf((done + [rows[0]])[i], width) != KeyOf((done + [rows[0]])[j], width) {
        assert (done + rows)[i] == (done + [rows[0]])[i] && (done + rows)[j] == (done + [rows[0]])[j];
      }
    }
    if width > 0 && KeysApart(done + [rows[0]], width) {
      forall i | 0 <= i < |done| ensures KeyOf(done[i], width) != KeyOf(rows[0], width) {
        assert (done + [rows[0]])[i] == done[i] && (done + [rows[0]])[|done|] == rows[0];
      }
    }
  }

  /** What reading the first entry has to do with reading them all. */
  lemma RowsFirst(s: Section, n: nat, t: string, done: seq<Row>, rows: seq<Row>, rest: string)
    requires n > 0 && |rows| == n
    ensures ReadRows(s.entry, s.schema, s.width, n, t, done) == Some((done + rows, rest))
            <==> && TaggedRow(s.entry, s.schema, t).Some? && TaggedRow(s.entry, s.schema, t).value.0 == rows[0]
                 && !(s.width > 0 && HasKey(done, s.width, KeyOf(rows[0], s.width)))
                 && ReadRows(s.entry, s.schema, s.width, n - 1, TaggedRow(s.entry, s.schema, t).value.1, done + [rows[0]])
                    == Some((done + rows, rest))
  {
    hide TaggedRow, HasKey, KeyOf;
    var row := TaggedRow(s.entry, s.schema, t);
    if row.Some? && row.value.0 != rows[0] && !(s.width > 0 && HasKey(done, s.width, KeyOf(row.value.0, s.width))) {
      RowsPrefix(s, n - 1, row.value.1, done + [row.value.0]);
      assert (done + rows)[|done|] == rows[0];
    }
  }

  /** Reading entries keeps those read before in front. */
  lemma {:induction false} RowsPrefix(s: Section, n: nat, t: string, done: seq<Row>)
    ensures var r := ReadRows(s.entry, s.schema, s.width, n, t, done);
            r.Some? ==> |r.value.0| == |done| + n && forall i :: 0 <= i < |done| ==> r.value.0[i] == done[i]
    decreases n
  {
    hide TaggedRow, HasKey, KeyOf;
    if n > 0 && TaggedRow(s.entry, s.schema, t).Some? {
      var row := TaggedRow(s.entry, s.schema, t).value;
      RowsPrefix(s, n - 1, row.1, done + [row.0]);
    }
  }

  lemma CountIs(fields: seq<string>, tag: string, n: nat)
    ensures CountOf(fields, tag) == Some(n) <==> |fields| == 2 && fields[0] == tag && NatSpelled(fields[1], n)
  {
    hide NatSpelled, ParseNat;
    if |fields| == 2 { NatIs(fields[1]); }
  }

  /** A section is read exactly from the lines that spell it: its header with the count, its tagged entries, no key twice. */
  lemma SectionExact(s: Section, t: string, rows: seq<Row>, rest: string)
    ensures ReadSection(s, t) == Some((rows, rest))
            <==> var lines := Lines(t, 1 + |rows|);
                 lines.Some? && lines.value.1 == rest && SectionSpelled(s, lines.value.0, rows)
  {
    hide NextLine, ReadRows, LinesSpelled, NatSpelled, CountOf, KeyOf;
    if NextLine(t).Some? {
      var (header, after) := NextLine(t).value;
      CountIs(header, s.tag, |rows|);
      assert [] + rows == rows;
      RowsAre(s, |rows|, after, [], rows, rest);
      if ReadSection(s, t) == Some((rows, rest)) {
        EntriesListed(s, header, after);
      }
      HeaderLine(t, |rows|);
    }
  }

  lemma HeaderLine(t: string, n: nat)
    requires NextLine(t).Some?
    ensures Lines(t, 1 + n).Some? <==> Lines(NextLine(t).value.1, n).Some?
    ensures Lines(t, 1 + n).Some? ==>
              && Lines(t, 1 + n).value.0 == [NextLine(t).value.0] + Lines(NextLine(t).value.1, n).value.0
              && Lines(t, 1 + n).value.1 == Lines(NextLine(t).value.1, n).value.1
              && Lines(t, 1 + n).value.0[1..] == Lines(NextLine(t).value.1, n).value.0
  {
    hide NextLine;
  }

  // ---------- Price levels ----------

  ghost predicate NatsSpelled(ts: seq<string>, ns: seq<nat>) {
    |ts| == |ns| && forall i :: 0 <= i < |ns| ==> NatSpelled(ts[i], ns[i])
  }

  lemma {:induction false} NatsAre(ts: seq<string>, ns: seq<nat>)
    ensures ParseNats(ts) == Some(ns) <==> NatsSpelled(ts, ns)
    decreases |ts|
  {
    hide NatSpelled, ParseNat;
    if ts != [] {
      NatIs(ts[0]);
      if ns != [] {
        NatsAre(ts[1..], ns[1..]);
        assert ns == [ns[0]] + ns[1..];
        assert NatsSpelled(ts, ns) <==> NatSpelled(ts[0], ns[0]) && NatsSpelled(ts[1..], ns[1..]) by { NatsCons(ts, ns); }
      }
    }
  }

  lemma NatsCons(ts: seq<string>, ns: seq<nat>)
    requires ts != [] && ns != []
    ensures NatsSpelled(ts, ns) <==> NatSpelled(ts[0], ns[0]) && NatsSpelled(ts[1..], ns[1..])
  {
    hide NatSpelled;
    if NatSpelled(ts[0], ns[0]) && NatsSpelled(ts[1..], ns[1..]) {
      forall i | 0 <= i < |ns| ensures NatSpelled(ts[i], ns[i]) {
        if i > 0 { assert ts[i] == ts[1..][i - 1] && ns[i] == ns[1..][i - 1]; }
      }
    }
  }

  /** A price level's line: its tag, price, total, the number of its orders, and their ids; nothing more. */
  lemma LevelExact(tag: string, fields: seq<string>, l: Level)
    ensures ParseLevel(tag, fields) == Some(l)
            <==> && |fields| >= 4 && fields[0] == tag && IntSpelled(fields[1], l.price) && NatSpelled(fields[2], l.total)
                 && NatSpelled(fields[3], |l.orderIds|) && NatsSpelled(fields[4..], l.orderIds)
  {
    hide IntSpelled, NatSpelled, ParseInt, ParseNat, ParseNats;
    if |fields| >= 4 {
      IntIs(fields[1]);
      NatIs(fields[2]);
      NatIs(fields[3]);
      NatsAre(fields[4..], l.orderIds);
    }
  }
}
