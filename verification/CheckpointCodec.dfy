/** The loops that write and read a checkpoint text. */
module CheckpointCodec {
  import opened Types
  import opened CheckpointSpec
  import opened CheckpointLaws

  method EscapeText(value: string) returns (escaped: string)
    ensures escaped == EscapeField(value)
  {
    hide EscapeByte;
    escaped := "";
    assert value[0..] == value;
    for i := 0 to |value|
      invariant escaped + EscapeField(value[i..]) == EscapeField(value)
    {
      assert value[i..][1..] == value[i + 1..];
      escaped := escaped + EscapeByte(value[i]);
    }
    assert escaped + "" == escaped;
  }

  /** `rest` is what is left of `goal` once `done` has been read. */
  ghost predicate ReadSoFar(goal: Option<string>, done: string, rest: Option<string>) {
    if rest.None? then goal.None? else goal == Some(done + rest.value)
  }

  lemma UnescapeStep(goal: Option<string>, done: string, t: string)
    requires t != "" && ReadSoFar(goal, done, UnescapeField(t))
    ensures var first := UnescapeByte(t);
            if first.None? then goal.None? else ReadSoFar(goal, done + [first.value.0], UnescapeField(first.value.1))
  {
    hide UnescapeByte;
    var first := UnescapeByte(t);
    if first.Some? && UnescapeField(first.value.1).Some? {
      var more := UnescapeField(first.value.1).value;
      assert done + ([first.value.0] + more) == (done + [first.value.0]) + more;
    }
  }

  /** Undo the escapes of a field; None if one is malformed. */
  method UnescapeText(value: string) returns (r: Option<string>)
    ensures r == UnescapeField(value)
  {
    hide UnescapeField;
    ghost var goal := UnescapeField(value);
    var done, index := "", 0;
    assert value[0..] == value;
    StartReading(goal);
    while index < |value|
      invariant 0 <= index <= |value| && ReadSoFar(goal, done, UnescapeField(value[index..]))
      decreases |value| - index
    {
      ghost var t := value[index..];
      UnescapeStep(goal, done, t);
      if value[index] != '\\' {
        assert t[1..] == value[index + 1..];
        done := done + [value[index]];
        index := index + 1;
      } else {
        if index + 1 >= |value| { return None; }
        var width: nat, byte: char := 2, '\\';
        match value[index + 1] {
        case '\\' => byte := '\\';
        case 'n' => byte := '\n';
        case 'r' => byte := '\r';
        case 't' => byte := '\t';
        case 'x' =>
          if index + 3 >= |value| { return None; }
          var high, low := HexOf(value[index + 2]), HexOf(value[index + 3]);
          if high.None? || low.None? { return None; }
          width, byte := 4, (high.value * 16 + low.value) as char;
        case _ => return None;
        }
        assert width >= 2 && t[width..] == value[index + width..];
        done := done + [byte];
        index := index + width;
      }
    }
    DoneReading(goal, done, value[index..]);
    return Some(done);
  }

  lemma StartReading(goal: Option<string>)
    ensures ReadSoFar(goal, "", goal)
  {
    if goal.Some? { assert "" + goal.value == goal.value; }
  }

  lemma DoneReading(goal: Option<string>, done: string, rest: string)
    requires rest == "" && ReadSoFar(goal, done, UnescapeField(rest))
    ensures goal == Some(done)
  {
    assert done + "" == done;
  }

  /** The index of a byte at or after a start, or the length if there is none. */
  method Find(t: string, c: char, start: nat) returns (i: nat)
    requires start <= |t|
    ensures start <= i <= |t|
    ensures Until(t[start..], c) == (t[start..i], if i < |t| then Some(t[i + 1..]) else None)
  {
    i := start;
    while i < |t| && t[i] != c
      invariant start <= i <= |t| && c !in t[start..i]
    {
      assert t[start..i + 1] == t[start..i] + [t[i]];
      i := i + 1;
    }
    if i < |t| {
      assert t[start..] == t[start..i] + [c] + t[i + 1..];
      UntilClean(t[start..i], c, t[i + 1..]);
    } else {
      assert t[start..] == t[start..i];
      UntilNever(t[start..i], c);
    }
  }

  /** The fields of a line, empty trailing ones too. */
  method SplitLine(line: string) returns (fields: seq<string>)
    ensures fields == Split(line)
  {
    hide Until;
    fields := [];
    var start := 0;
    assert line[0..] == line;
    while start <= |line|
      invariant 0 <= start <= |line| && fields + Split(line[start..]) == Split(line)
      decreases |line| - start
    {
      var end := Find(line, '\t', start);
      fields := fields + [line[start..end]];
      if end == |line| { return; }
      start := end + 1;
    }
  }

  method WriteLine(out: string, fields: seq<string>) returns (written: string)
    ensures written == out + LineText(fields)
  {
    written := out;
    var first := true;
    assert fields[0..] == fields;
    for i := 0 to |fields|
      invariant first == (i == 0)
      invariant written + FieldsLeft(fields, i) == out + Joined(fields)
    {
      LeftStep(fields, i);
      if !first { written := written + "\t"; }
      first := false;
      written := written + fields[i];
    }
    assert written + "" == written;
    written := written + "\n";
    assert (out + Joined(fields)) + "\n" == out + (Joined(fields) + "\n");
  }

  ghost function FieldsLeft(fields: seq<string>, i: nat): string
    requires i <= |fields|
  {
    (if 0 < i < |fields| then "\t" else "") + Joined(fields[i..])
  }

  lemma LeftStep(fields: seq<string>, i: nat)
    requires i < |fields|
    ensures FieldsLeft(fields, i) == (if i > 0 then "\t" else "") + fields[i] + FieldsLeft(fields, i + 1)
  {
    assert fields[i..][1..] == fields[i + 1..];
  }

  /** Digits to a number, left to right. */
  method ParseDigits(t: string) returns (r: Option<nat>)
    ensures r == ParseNat(t)
  {
    if t == "" { return None; }
    var value: nat := 0;
    for i := 0 to |t|
      invariant NatValue(t[..i]) == Some(value)
    {
      assert t[..i + 1][..i] == t[..i];
      if !IsDigit(t[i]) {
        NotDigits(t, i);
        return None;
      }
      value := 10 * value + (t[i] - '0') as nat;
    }
    assert t[..|t|] == t;
    return Some(value);
  }

  lemma {:induction false} NotDigits(t: string, i: nat)
    requires i < |t| && !IsDigit(t[i])
    ensures NatValue(t).None?
    decreases |t|
  {
    if i < |t| - 1 { NotDigits(t[..|t| - 1], i); }
  }

  function OrderIdsOf(orders: seq<Row>): set<nat> {
    set o | o in orders :: FirstNat(o)
  }

  lemma OrderIdsStep(orders: seq<Row>, j: nat)
    requires j < |orders|
    ensures OrderIdsOf(orders[j..]) == {FirstNat(orders[j])} + OrderIdsOf(orders[j + 1..])
  {
    assert orders[j..] == [orders[j]] + orders[j + 1..];
  }

  method AddOrderIds(ids: set<nat>, orders: seq<Row>) returns (more: set<nat>)
    ensures more == ids + OrderIdsOf(orders)
  {
    hide OrderIdsOf;
    more := ids;
    assert orders[0..] == orders;
    for j := 0 to |orders|
      invariant more + OrderIdsOf(orders[j..]) == ids + OrderIdsOf(orders)
    {
      OrderIdsStep(orders, j);
      more := more + {FirstNat(orders[j])};
    }
    NoOrderIds(orders);
  }

  lemma NoOrderIds(orders: seq<Row>)
    ensures OrderIdsOf(orders[|orders|..]) == {}
  {
  }

  /** The ids of all active orders. */
  method ActiveOrderIds(symbols: seq<Symbol>) returns (ids: set<nat>)
    ensures ids == ActiveIds(symbols)
  {
    ids := {};
    assert symbols[0..] == symbols;
    for i := 0 to |symbols|
      invariant ids + ActiveIds(symbols[i..]) == ActiveIds(symbols)
    {
      assert symbols[i..][1..] == symbols[i + 1..];
      ids := AddOrderIds(ids, symbols[i].orders);
    }
  }

  /** The metadata of active orders. */
  method MetadataEntriesOf(c: Checkpoint) returns (entries: seq<Row>)
    ensures entries == ActiveMetadata(c.metadata, ActiveIds(c.symbols))
  {
    hide ActiveIds;
    var ids := ActiveOrderIds(c.symbols);
    entries := [];
    assert c.metadata[0..] == c.metadata;
    for i := 0 to |c.metadata|
      invariant entries + ActiveMetadata(c.metadata[i..], ids) == ActiveMetadata(c.metadata, ids)
    {
      assert c.metadata[i..][1..] == c.metadata[i + 1..];
      if FirstNat(c.metadata[i]) in ids { entries := entries + [c.metadata[i]]; }
    }
  }

  /** The reader: a stream consumed line by line.  A method that returns None has met a malformed checkpoint. */
  class CheckpointReader {
    var rest: string

    constructor (text: string)
      ensures rest == text
    {
      rest := text;
    }

    method ReadFields() returns (r: Option<seq<string>>)
      modifies this
      ensures r.Some? == NextLine(old(rest)).Some?
      ensures r.Some? ==> (r.value, rest) == NextLine(old(rest)).value
    {
      hide Until, Split;
      if rest == "" { return None; }
      var end := Find(rest, '\n', 0);
      assert rest[0..] == rest;
      var line := rest[..end];
      rest := if end < |rest| then rest[end + 1..] else "";
      if line != "" && line[|line| - 1] == '\r' { line := line[..|line| - 1]; }
      var fields := SplitLine(line);
      return Some(fields);
    }

    method ReadTagged(tag: string, schema: seq<Kind>) returns (r: Option<Row>)
      modifies this
      ensures r.Some? == TaggedRow(tag, schema, old(rest)).Some?
      ensures r.Some? ==> (r.value, rest) == TaggedRow(tag, schema, old(rest)).value
    {
      hide NextLine, ParseRow;
      var fields := ReadFields();
      if fields.None? || fields.value == [] || fields.value[0] != tag { return None; }
      r := ParseRow(schema, fields.value[1..]);
    }

    /** Read the entries of a section whose header has been read; a repeated key is an error. */
    method ReadEntriesOf(s: Section, header: seq<string>) returns (r: Option<seq<Row>>)
      modifies this
      ensures r.Some? == ReadEntries(s, header, old(rest)).Some?
      ensures r.Some? ==> (r.value, rest) == ReadEntries(s, header, old(rest)).value
    {
      hide TaggedRow, ReadRows, HasKey;
      if |header| != 2 || header[0] != s.tag { return None; }
      var count := ParseDigits(header[1]);
      if count.None? { return None; }
      ghost var goal := ReadRows(s.entry, s.schema, s.width, count.value, rest, []);
      var rows: seq<Row> := [];
      for i := 0 to count.value
        invariant ReadRows(s.entry, s.schema, s.width, count.value - i, rest, rows) == goal
      {
        RowsStep(s, count.value - i, rest, rows);
        var row := ReadTagged(s.entry, s.schema);
        if row.None? || (s.width > 0 && HasKey(rows, s.width, KeyOf(row.value, s.width))) { return None; }
        rows := rows + [row.value];
      }
      RowsEnd(s, rest, rows);
      return Some(rows);
    }

    method ReadSectionOf(s: Section) returns (r: Option<seq<Row>>)
      modifies this
      ensures r.Some? == ReadSection(s, old(rest)).Some?
      ensures r.Some? ==> (r.value, rest) == ReadSection(s, old(rest)).value
    {
      hide NextLine, ReadEntries;
      var header := ReadFields();
      if header.None? { return None; }
      r := ReadEntriesOf(s, header.value);
    }

    method ReadLevelsOf(countTag: string, tag: string) returns (r: Option<seq<Level>>)
      modifies this
      ensures r.Some? == ReadLevelSection(countTag, tag, old(rest)).Some?
      ensures r.Some? ==> (r.value, rest) == ReadLevelSection(countTag, tag, old(rest)).value
    {
      hide NextLine, ParseLevel, ReadLevels;
      var header := ReadFields();
      if header.None? || |header.value| != 2 || header.value[0] != countTag { return None; }
      var count := ParseDigits(header.value[1]);
      if count.None? { return None; }
      ghost var goal := ReadLevels(tag, count.value, rest, []);
      var levels: seq<Level> := [];
      for i := 0 to count.value
        invariant ReadLevels(tag, count.value - i, rest, levels) == goal
      {
        LevelsStep(tag, count.value - i, rest, levels);
        var fields := ReadFields();
        if fields.None? { return None; }
        var level := ParseLevel(tag, fields.value);
        if level.None? { return None; }
        levels := levels + [level.value];
      }
      LevelsEnd(tag, rest, levels);
      return Some(levels);
    }

    method ReadOneSymbol() returns (r: Option<Symbol>)
      modifies this
      ensures r.Some? == ReadSymbol(old(rest)).Some?
      ensures r.Some? ==> (r.value, rest) == ReadSymbol(old(rest)).value
    {
      hide TaggedRow, ReadLevelSection, ReadSection;
      var config := ReadTagged("symbol", SymbolSchema);
      if config.None? { return None; }
      var bids := ReadLevelsOf("bid_levels", "bid_level");
      if bids.None? { return None; }
      var asks := ReadLevelsOf("ask_levels", "ask_level");
      if asks.None? { return None; }
      var orders := ReadSectionOf(Orders);
      if orders.None? { return None; }
      var clients := ReadSectionOf(ClientOrders);
      if clients.None? { return None; }
      return Some(Symbol(config.value, bids.value, asks.value, orders.value, clients.value));
    }

    method ReadAllSymbols(count: nat) returns (r: Option<seq<Symbol>>)
      modifies this
      ensures r.Some? == ReadSymbols(count, old(rest), []).Some?
      ensures r.Some? ==> (r.value, rest) == ReadSymbols(count, old(rest), []).value
    {
      hide ReadSymbol, ReadSymbols;
      ghost var goal := ReadSymbols(count, rest, []);
      var symbols: seq<Symbol> := [];
      for i := 0 to count
        invariant ReadSymbols(count - i, rest, symbols) == goal
      {
        SymbolsStep(count - i, rest, symbols);
        var s := ReadOneSymbol();
        if s.None? { return None; }
        symbols := symbols + [s.value];
      }
      SymbolsEnd(rest, symbols);
      return Some(symbols);
    }

    method ReadAllTables(sections: seq<Section>) returns (r: Option<seq<seq<Row>>>)
      modifies this
      ensures r.Some? == ReadTables(sections, old(rest)).Some?
      ensures r.Some? ==> (r.value, rest) == ReadTables(sections, old(rest)).value
    {
      hide ReadSection, ReadTables;
      ghost var goal := ReadTables(sections, rest);
      var tables: seq<seq<Row>> := [];
      assert sections[0..] == sections;
      StartTables(goal);
      for i := 0 to |sections|
        invariant TablesSoFar(goal, tables, ReadTables(sections[i..], rest))
      {
        TablesStep(goal, tables, sections, i, rest);
        var rows := ReadSectionOf(sections[i]);
        if rows.None? { return None; }
        tables := tables + [rows.value];
      }
      assert sections[|sections|..] == [];
      TablesEnd(goal, tables, rest);
      return Some(tables);
    }

    /** Read tables that may be missing; the header read last is handed on. */
    method ReadOptionalTables(sections: seq<Section>, header: seq<string>)
      returns (r: Option<(seq<seq<Row>>, seq<string>)>)
      modifies this
      ensures var spec := ReadOptional(sections, header, old(rest));
              r.Some? == spec.Some? && (r.Some? ==> spec.value == Ahead(r.value.0, r.value.1, rest))
    {
      hide ReadEntries, NextLine, ReadOptional;
      ghost var goal := ReadOptional(sections, header, rest);
      var tables: seq<seq<Row>>, ahead := [], header;
      assert sections[0..] == sections;
      StartAhead(goal);
      for i := 0 to |sections|
        invariant AheadSoFar(goal, tables, ReadOptional(sections[i..], ahead, rest))
      {
        AheadStep(goal, tables, sections, i, ahead, rest);
        if ahead != [] && ahead[0] == sections[i].tag {
          var rows := ReadEntriesOf(sections[i], ahead);
          if rows.None? { return None; }
          tables := tables + [rows.value];
          var line := ReadFields();
          if line.None? { return None; }
          ahead := line.value;
        } else {
          tables := tables + [[]];
        }
      }
      assert sections[|sections|..] == [];
      AheadEnd(goal, tables, ahead, rest);
      return Some((tables, ahead));
    }

    method ReadHeaderRows() returns (r: Option<seq<Row>>)
      modifies this
      ensures var spec := ReadHeader(HeaderTags, HeaderSchemas, old(rest));
              r.Some? == spec.Some? && (r.Some? ==> (r.value, rest) == spec.value)
    {
      hide TaggedRow, FitsAll;
      HeaderSteps(rest);
      var version := ReadTagged("schema_version", [NatKind]);
      if version.None? { return None; }
      var id := ReadTagged("checkpoint_id", [TextKind]);
      if id.None? { return None; }
      var source := ReadTagged("source_position", [TextKind, IntKind, IntKind]);
      if source.None? { return None; }
      var sequences := ReadTagged("sequence_state", SequenceSchema);
      if sequences.None? { return None; }
      return Some([version.value, id.value, source.value, sequences.value]);
    }

    method ReadTail() returns (r: Option<(seq<seq<Row>>, seq<seq<Row>>, seq<Row>, seq<seq<Row>>)>)
      modifies this
      ensures r == ReadBody(old(rest))
    {
      hide ReadTables, ReadOptional, ReadEntries, NextLine;
      var core := ReadAllTables(CoreTables);
      if core.None? { return None; }
      var line := ReadFields();
      if line.None? { return None; }
      var ledger := ReadOptionalTables(LedgerTables, line.value);
      if ledger.None? { return None; }
      var metadata := ReadEntriesOf(MetadataEntries, ledger.value.1);
      if metadata.None? { return None; }
      var requests := ReadAllTables(RequestTables);
      if requests.None? { return None; }
      var end := ReadFields();
      if end.None? || end.value != ["end"] { return None; }
      return Some((core.value, ledger.value.0, metadata.value, requests.value));
    }

    /** Read a whole checkpoint. */
    method ReadCheckpoint() returns (r: Option<Checkpoint>)
      modifies this
      ensures r == Deserialize(old(rest))
    {
      hide ReadBody, ReadHeader, ReadSymbols, NextLine, FitsAll;
      var magic := ReadFields();
      if magic.None? || magic.value != [Magic] { return None; }
      var h := ReadHeaderRows();
      if h.None? { return None; }
      var line := ReadFields();
      if line.None? || |line.value| != 2 || line.value[0] != "symbols" { return None; }
      var count := ParseDigits(line.value[1]);
      if count.None? { return None; }
      var symbols := ReadAllSymbols(count.value);
      if symbols.None? { return None; }
      var body := ReadTail();
      if body.None? { return None; }
      var (core, ledger, metadata, requests) := body.value;
      if |core| != 4 || |ledger| != 5 || |requests| != 2 { return None; }
      var version, id, source := h.value[0], h.value[1], h.value[2];
      return Some(Checkpoint(FirstNat(version), FirstText(id), FirstText(source), IntAt(source, 1), IntAt(source, 2),
                             h.value[3], symbols.value, core[0], core[1], core[2], core[3], ledger[0], ledger[1], ledger[2],
                             ledger[3], ledger[4], metadata, requests[0], requests[1]));
    }
  }

  // ---------- One step of the reference ----------

  lemma RowsStep(s: Section, n: nat, t: string, rows: seq<Row>)
    requires n > 0
    ensures var row := TaggedRow(s.entry, s.schema, t);
            ReadRows(s.entry, s.schema, s.width, n, t, rows)
            == if row.None? || (s.width > 0 && HasKey(rows, s.width, KeyOf(row.value.0, s.width))) then None
               else ReadRows(s.entry, s.schema, s.width, n - 1, row.value.1, rows + [row.value.0])
  {
    hide TaggedRow, HasKey;
  }

  lemma RowsEnd(s: Section, t: string, rows: seq<Row>)
    ensures ReadRows(s.entry, s.schema, s.width, 0, t, rows) == Some((rows, t))
  {
  }

  lemma LevelsStep(tag: string, n: nat, t: string, levels: seq<Level>)
    requires n > 0
    ensures var line := NextLine(t);
            ReadLevels(tag, n, t, levels)
            == if line.None? || ParseLevel(tag, line.value.0).None? then None
               else ReadLevels(tag, n - 1, line.value.1, levels + [ParseLevel(tag, line.value.0).value])
  {
    hide NextLine, ParseLevel;
  }

  lemma LevelsEnd(tag: string, t: string, levels: seq<Level>)
    ensures ReadLevels(tag, 0, t, levels) == Some((levels, t))
  {
  }

  lemma SymbolsStep(n: nat, t: string, symbols: seq<Symbol>)
    requires n > 0
    ensures var s := ReadSymbol(t);
            ReadSymbols(n, t, symbols) == if s.None? then None else ReadSymbols(n - 1, s.value.1, symbols + [s.value.0])
  {
    hide ReadSymbol;
  }

  lemma SymbolsEnd(t: string, symbols: seq<Symbol>)
    ensures ReadSymbols(0, t, symbols) == Some((symbols, t))
  {
  }

  ghost predicate TablesSoFar(goal: Option<(seq<seq<Row>>, string)>, tables: seq<seq<Row>>,
                              more: Option<(seq<seq<Row>>, string)>)
  {
    if more.None? then goal.None? else goal == Some((tables + more.value.0, more.value.1))
  }

  lemma StartTables(goal: Option<(seq<seq<Row>>, string)>)
    ensures TablesSoFar(goal, [], goal)
  {
    if goal.Some? { assert [] + goal.value.0 == goal.value.0; }
  }

  lemma TablesStep(goal: Option<(seq<seq<Row>>, string)>, tables: seq<seq<Row>>, sections: seq<Section>, i: nat, t: string)
    requires i < |sections| && TablesSoFar(goal, tables, ReadTables(sections[i..], t))
    ensures var first := ReadSection(sections[i], t);
            if first.None? then goal.None?
            else TablesSoFar(goal, tables + [first.value.0], ReadTables(sections[i + 1..], first.value.1))
  {
    hide ReadSection;
    assert sections[i..][1..] == sections[i + 1..];
    var first := ReadSection(sections[i], t);
    if first.Some? && ReadTables(sections[i + 1..], first.value.1).Some? {
      var more := ReadTables(sections[i + 1..], first.value.1).value.0;
      assert tables + ([first.value.0] + more) == (tables + [first.value.0]) + more;
    }
  }

  lemma TablesEnd(goal: Option<(seq<seq<Row>>, string)>, tables: seq<seq<Row>>, t: string)
    requires TablesSoFar(goal, tables, ReadTables([], t))
    ensures goal == Some((tables, t))
  {
    assert tables + [] == tables;
  }

  ghost predicate AheadSoFar(goal: Option<Ahead>, tables: seq<seq<Row>>, more: Option<Ahead>) {
    if more.None? then goal.None? else goal == Some(more.value.(tables := tables + more.value.tables))
  }

  lemma StartAhead(goal: Option<Ahead>)
    ensures AheadSoFar(goal, [], goal)
  {
    if goal.Some? { assert [] + goal.value.tables == goal.value.tables; }
  }

  lemma AheadStep(goal: Option<Ahead>, tables: seq<seq<Row>>, sections: seq<Section>, i: nat, header: seq<string>, t: string)
    requires i < |sections| && AheadSoFar(goal, tables, ReadOptional(sections[i..], header, t))
    ensures if header == [] || header[0] != sections[i].tag then
              AheadSoFar(goal, tables + [[]], ReadOptional(sections[i + 1..], header, t))
            else
              var first := ReadEntries(sections[i], header, t);
              if first.None? then goal.None?
              else
                var line := NextLine(first.value.1);
                if line.None? then goal.None?
                else AheadSoFar(goal, tables + [first.value.0], ReadOptional(sections[i + 1..], line.value.0, line.value.1))
  {
    hide ReadEntries, NextLine;
    assert sections[i..][1..] == sections[i + 1..];
    if header == [] || header[0] != sections[i].tag {
      AheadMore(goal, tables, [], ReadOptional(sections[i + 1..], header, t));
    } else {
      var first := ReadEntries(sections[i], header, t);
      if first.Some? && NextLine(first.value.1).Some? {
        var line := NextLine(first.value.1).value;
        AheadMore(goal, tables, first.value.0, ReadOptional(sections[i + 1..], line.0, line.1));
      }
    }
  }

  lemma AheadMore(goal: Option<Ahead>, tables: seq<seq<Row>>, rows: seq<Row>, more: Option<Ahead>)
    requires AheadSoFar(goal, tables, if more.None? then None else Some(more.value.(tables := [rows] + more.value.tables)))
    ensures AheadSoFar(goal, tables + [rows], more)
  {
    if more.Some? { assert tables + ([rows] + more.value.tables) == (tables + [rows]) + more.value.tables; }
  }

  lemma AheadEnd(goal: Option<Ahead>, tables: seq<seq<Row>>, header: seq<string>, t: string)
    requires AheadSoFar(goal, tables, ReadOptional([], header, t))
    ensures goal == Some(Ahead(tables, header, t))
  {
    assert tables + [] == tables;
  }

  /** The four header lines, one after the other. */
  lemma HeaderSteps(t: string)
    ensures var spec := ReadHeader(HeaderTags, HeaderSchemas, t);
            var a := TaggedRow("schema_version", [NatKind], t);
            if a.None? then spec.None?
            else
              var b := TaggedRow("checkpoint_id", [TextKind], a.value.1);
              if b.None? then spec.None?
              else
                var c := TaggedRow("source_position", [TextKind, IntKind, IntKind], b.value.1);
                if c.None? then spec.None?
                else
                  var d := TaggedRow("sequence_state", SequenceSchema, c.value.1);
                  if d.None? then spec.None?
                  else spec == Some(([a.value.0, b.value.0, c.value.0, d.value.0], d.value.1))
  {
    hide TaggedRow, FitsAll;
    var t1, s1 := HeaderTags[1..], HeaderSchemas[1..];
    var t2, s2 := t1[1..], s1[1..];
    var t3, s3 := t2[1..], s2[1..];
    assert t1 == ["checkpoint_id", "source_position", "sequence_state"];
    assert t2 == ["source_position", "sequence_state"];
    assert t3 == ["sequence_state"];
    assert t3[1..] == [] && s3[1..] == [];
    forall a: Row, b: Row, c: Row, d: Row ensures [a] + ([b] + ([c] + ([d] + []))) == [a, b, c, d] { }
  }
}
