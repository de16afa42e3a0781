/** Whatever is written to a checkpoint is read back. */
module CheckpointLaws {
  import opened Types
  import opened CheckpointSpec

  // ---------- Escaping ----------

  lemma HexUpperLaw(n: nat)
    requires n < 16
    ensures HexOf(HexUpper(n)) == Some(n)
  {
  }

  lemma ByteRoundTrip(c: char, t: string)
    ensures EscapeByte(c) + t != "" && UnescapeByte(EscapeByte(c) + t) == Some((c, t))
  {
    var e := EscapeByte(c) + t;
    if EscapeByte(c) == [c] {
      assert e[1..] == t;
    } else if |EscapeByte(c)| == 2 {
      assert e[2..] == t;
    } else {
      HexUpperLaw(c as nat / 16);
      HexUpperLaw(c as nat % 16);
      assert e[4..] == t;
    }
  }

  /** Any byte string survives escaping. */
  lemma {:induction false} FieldRoundTrip(s: string)
    ensures UnescapeField(EscapeField(s)) == Some(s)
  {
    hide EscapeByte, UnescapeByte;
    if s != "" {
      FieldRoundTrip(s[1..]);
      ByteRoundTrip(s[0], EscapeField(s[1..]));
      assert s == [s[0]] + s[1..];
    }
  }

  /** A field holds no byte that ends a field or a line. */
  ghost predicate Clean(t: string) {
    forall c <- t :: c != '\t' && c != '\n' && c != '\r'
  }

  lemma CleanByte(c: char)
    ensures Clean(EscapeByte(c))
  {
  }

  lemma {:induction false} CleanField(s: string)
    ensures Clean(EscapeField(s))
  {
    hide EscapeByte;
    if s != "" {
      CleanByte(s[0]);
      CleanField(s[1..]);
    }
  }

  // ---------- Integers ----------

  lemma {:induction false} NatRoundTrip(n: nat)
    ensures NatText(n) != "" && NatValue(NatText(n)) == Some(n) && ParseNat(NatText(n)) == Some(n)
    ensures forall c <- NatText(n) :: IsDigit(c)
  {
    var t := NatText(n);
    if n < 10 {
      assert t[..0] == "";
    } else {
      NatRoundTrip(n / 10);
      assert t[..|t| - 1] == NatText(n / 10);
    }
  }

  lemma IntRoundTrip(n: int)
    ensures ParseInt(IntText(n)) == Some(n) && Clean(IntText(n))
  {
    hide NatText, NatValue;
    NatRoundTrip(if n < 0 then -n else n);
    if n < 0 { assert IntText(n)[1..] == NatText(-n); } else { assert IntText(n)[0] in IntText(n); }
  }

  lemma CleanNat(n: nat)
    ensures Clean(NatText(n)) && ParseInt(NatText(n)) == Some(n)
  {
    hide NatText, NatValue;
    NatRoundTrip(n);
    assert NatText(n)[0] in NatText(n);
  }

  // ---------- Rows ----------

  ghost predicate AllClean(fields: seq<string>) {
    forall f <- fields :: Clean(f)
  }

  lemma CellRoundTrip(k: Kind, c: Cell, more: seq<string>)
    requires Fits(k, c)
    ensures |CellFields(c)| == Width(k) && AllClean(CellFields(c))
    ensures ParseCell(k, CellFields(c) + more) == Some(c)
  {
    hide NatText, NatValue, EscapeField, UnescapeField, ParseNat, ParseInt, IntText;
    match c
    case IntCell(n) => IntRoundTrip(n);
    case NatCell(n) => NatRoundTrip(n); CleanNat(n);
    case TextCell(s) => FieldRoundTrip(s); CleanField(s);
    case FlagCell(b) =>
    case EnumCell(n) => CleanNat(n);
    case MaybeNatCell(m) => if m.Some? { NatRoundTrip(m.value); CleanNat(m.value); }
    case MaybeTextCell(m) => if m.Some? { FieldRoundTrip(m.value); CleanField(m.value); }
    case MaybeEnumCell(m) => if m.Some? { CleanNat(m.value); }
  }

  /** A row that fits its schema is read back from its fields. */
  lemma {:induction false} RowRoundTrip(schema: seq<Kind>, row: Row)
    requires FitsAll(schema, row)
    ensures ParseRow(schema, RowFields(row)) == Some(row) && AllClean(RowFields(row))
  {
    hide CellFields, ParseCell, Fits, Clean;
    if row != [] {
      var more := RowFields(row[1..]);
      CellRoundTrip(schema[0], row[0], more);
      RowRoundTrip(schema[1..], row[1..]);
      assert (CellFields(row[0]) + more)[Width(schema[0])..] == more;
      assert row == [row[0]] + row[1..];
    }
  }

  // ---------- Lines ----------

  lemma {:induction false} UntilClean(a: string, c: char, rest: string)
    requires c !in a
    ensures Until(a + [c] + rest, c) == (a, Some(rest))
  {
    var t := a + [c] + rest;
    if a == "" {
      assert t[1..] == rest;
    } else {
      assert a == [a[0]] + a[1..];
      assert t[1..] == a[1..] + [c] + rest;
      UntilClean(a[1..], c, rest);
    }
  }

  lemma {:induction false} UntilNever(a: string, c: char)
    requires c !in a
    ensures Until(a, c) == (a, None)
  {
    if a != "" {
      assert a == [a[0]] + a[1..];
      UntilNever(a[1..], c);
    }
  }

  /** Joined fields split again, empty ones and all. */
  lemma {:induction false} SplitJoined(fields: seq<string>)
    requires fields != [] && AllClean(fields)
    ensures Split(Joined(fields)) == fields
  {
    hide Until;
    assert fields[0] in fields;
    if |fields| == 1 {
      UntilNever(fields[0], '\t');
    } else {
      UntilClean(fields[0], '\t', Joined(fields[1..]));
      SplitJoined(fields[1..]);
      assert fields == [fields[0]] + fields[1..];
    }
  }

  lemma {:induction false} JoinedClean(fields: seq<string>)
    requires AllClean(fields)
    ensures forall c <- Joined(fields) :: c != '\n' && c != '\r'
  {
    if fields != [] {
      assert fields[0] in fields;
      JoinedClean(fields[1..]);
    }
  }

  /** A written line is read back as its fields. */
  lemma LineRoundTrip(fields: seq<string>, rest: string)
    requires fields != [] && AllClean(fields)
    ensures NextLine(LineText(fields) + rest) == Some((fields, rest))
  {
    hide Joined, Split, Until, AllClean;
    var line := Joined(fields);
    JoinedClean(fields);
    SplitJoined(fields);
    assert LineText(fields) + rest == line + ['\n'] + rest;
    UntilClean(line, '\n', rest);
    if line != "" { assert line[|line| - 1] in line; }
  }

  lemma TaggedRoundTrip(tag: string, schema: seq<Kind>, row: Row, rest: string)
    requires Clean(tag) && FitsAll(schema, row)
    ensures TaggedRow(tag, schema, RowLine(tag, row) + rest) == Some((row, rest))
  {
    hide NextLine, ParseRow, RowFields, FitsAll, Clean, LineText;
    RowRoundTrip(schema, row);
    var fields := [tag] + RowFields(row);
    assert AllClean(fields);
    LineRoundTrip(fields, rest);
    assert fields[1..] == RowFields(row);
  }

  // ---------- Sections ----------

  /** Entries of a section: each fits the schema, and no two share a key. */
  ghost predicate Lists(s: Section, rows: seq<Row>) {
    && (forall r <- rows :: FitsAll(s.schema, r))
    && (s.width > 0 ==> forall i, j :: 0 <= i < j < |rows| ==> KeyOf(rows[i], s.width) != KeyOf(rows[j], s.width))
  }

  lemma {:induction false} RowsRoundTrip(s: Section, done: seq<Row>, rows: seq<Row>, rest: string)
    requires Clean(s.entry) && Lists(s, done + rows)
    ensures ReadRows(s.entry, s.schema, s.width, |rows|, RowLines(s.entry, rows) + rest, done) == Some((done + rows, rest))
    decreases |rows|
  {
    hide TaggedRow, RowLine, FitsAll, Clean, KeyOf;
    if rows == [] {
      assert RowLines(s.entry, rows) + rest == rest && done + rows == done;
    } else {
      var more := RowLines(s.entry, rows[1..]) + rest;
      assert rows[0] in done + rows;
      TaggedRoundTrip(s.entry, s.schema, rows[0], more);
      assert RowLines(s.entry, rows) + rest == RowLine(s.entry, rows[0]) + more;
      FreshKey(s, done, rows);
      assert (done + [rows[0]]) + rows[1..] == done + rows;
      RowsRoundTrip(s, done + [rows[0]], rows[1..], rest);
    }
  }

  lemma FreshKey(s: Section, done: seq<Row>, rows: seq<Row>)
    requires Lists(s, done + rows) && rows != []
    ensures s.width > 0 ==> !HasKey(done, s.width, KeyOf(rows[0], s.width))
  {
    hide FitsAll, KeyOf;
    if s.width > 0 {
      forall i | 0 <= i < |done| ensures KeyOf(done[i], s.width) != KeyOf(rows[0], s.width) {
        assert (done + rows)[i] == done[i] && (done + rows)[|done|] == rows[0];
      }
    }
  }

  lemma CountRoundTrip(tag: string, n: nat, rest: string)
    requires Clean(tag)
    ensures NextLine(CountLine(tag, n) + rest) == Some(([tag, NatText(n)], rest))
    ensures CountOf([tag, NatText(n)], tag) == Some(n)
  {
    hide NextLine, NatText, LineText, Clean, NatValue, ParseNat;
    NatRoundTrip(n);
    CleanNat(n);
    LineRoundTrip([tag, NatText(n)], rest);
  }

  /** A section is read back from its text, after its header and as a whole. */
  lemma SectionRoundTrip(s: Section, rows: seq<Row>, rest: string)
    requires Tagged(s) && Lists(s, rows)
    ensures ReadSection(s, SectionText(s, rows) + rest) == Some((rows, rest))
    ensures var line := NextLine(SectionText(s, rows) + rest);
            line.Some? && line.value.0 == [s.tag, NatText(|rows|)]
            && ReadEntries(s, line.value.0, line.value.1) == Some((rows, rest))
  {
    hide NextLine, NatText, ReadRows, RowLines, Lists, Clean, CountOf;
    assert [] + rows == rows;
    RowsRoundTrip(s, [], rows, rest);
    CountRoundTrip(s.tag, |rows|, RowLines(s.entry, rows) + rest);
    assert SectionText(s, rows) + rest == CountLine(s.tag, |rows|) + (RowLines(s.entry, rows) + rest);
  }

  // ---------- Price levels ----------

  lemma {:induction false} NatsRoundTrip(ns: seq<nat>)
    ensures ParseNats(NatTexts(ns)) == Some(ns) && AllClean(NatTexts(ns)) && |NatTexts(ns)| == |ns|
  {
    hide NatText, ParseNat, Clean;
    if ns != [] {
      NatRoundTrip(ns[0]);
      CleanNat(ns[0]);
      NatsRoundTrip(ns[1..]);
      assert ns == [ns[0]] + ns[1..];
    }
  }

  lemma LevelRoundTrip(tag: string, l: Level, rest: string)
    requires Clean(tag)
    ensures var line := NextLine(LevelLine(tag, l) + rest);
            line.Some? && line.value.1 == rest && ParseLevel(tag, line.value.0) == Some(l)
  {
    hide NatText, IntText, ParseNat, ParseInt, Clean, NextLine, LineText, NatTexts, ParseNats;
    var head := [tag, IntText(l.price), NatText(l.total), NatText(|l.orderIds|)];
    NatsRoundTrip(l.orderIds);
    IntRoundTrip(l.price);
    NatRoundTrip(l.total);
    CleanNat(l.total);
    NatRoundTrip(|l.orderIds|);
    CleanNat(|l.orderIds|);
    var fields := head + NatTexts(l.orderIds);
    assert AllClean(head);
    assert fields[4..] == NatTexts(l.orderIds);
    LineRoundTrip(fields, rest);
  }

  lemma {:induction false} LevelsRoundTrip(tag: string, done: seq<Level>, levels: seq<Level>, rest: string)
    requires Clean(tag)
    ensures ReadLevels(tag, |levels|, LevelLines(tag, levels) + rest, done) == Some((done + levels, rest))
    decreases |levels|
  {
    hide Clean, NextLine, LevelLine, ParseLevel;
    if levels == [] {
      assert LevelLines(tag, levels) + rest == rest && done + levels == done;
    } else {
      var more := LevelLines(tag, levels[1..]) + rest;
      LevelRoundTrip(tag, levels[0], more);
      assert LevelLines(tag, levels) + rest == LevelLine(tag, levels[0]) + more;
      LevelsRoundTrip(tag, done + [levels[0]], levels[1..], rest);
      assert (done + [levels[0]]) + levels[1..] == done + levels;
    }
  }

  lemma LevelSectionRoundTrip(countTag: string, tag: string, levels: seq<Level>, rest: string)
    requires Clean(countTag) && Clean(tag)
    ensures ReadLevelSection(countTag, tag, LevelsText(countTag, tag, levels) + rest) == Some((levels, rest))
  {
    hide Clean, NextLine, LevelLines, ReadLevels, CountOf, NatText;
    assert [] + levels == levels;
    LevelsRoundTrip(tag, [], levels, rest);
    CountRoundTrip(countTag, |levels|, LevelLines(tag, levels) + rest);
    assert LevelsText(countTag, tag, levels) + rest == CountLine(countTag, |levels|) + (LevelLines(tag, levels) + rest);
  }

  // ---------- Symbols ----------

  ghost predicate GoodSymbol(s: Symbol) {
    FitsAll(SymbolSchema, s.config) && Lists(Orders, s.orders) && Lists(ClientOrders, s.clientOrders)
  }

  lemma {:induction false} InsertRowMember(rows: seq<Row>, row: Row, x: Row)
    ensures x in InsertRow(rows, row) <==> x in rows || x == row
  {
    if rows != [] && FirstNat(row) > FirstNat(rows[0]) {
      InsertRowMember(rows[1..], row, x);
      assert rows == [rows[0]] + rows[1..];
    }
  }

  lemma {:induction false} SortRowsMember(rows: seq<Row>, x: Row)
    ensures x in SortRows(rows) <==> x in rows
  {
    if rows != [] {
      SortRowsMember(rows[1..], x);
      InsertRowMember(SortRows(rows[1..]), rows[0], x);
      assert rows == [rows[0]] + rows[1..];
    }
  }

  ghost predicate ById(rows: seq<Row>) {
    forall i, j :: 0 <= i < j < |rows| ==> FirstNat(rows[i]) <= FirstNat(rows[j])
  }

  /** Rows already in id order stay as they are. */
  lemma {:induction false} SortRowsSame(rows: seq<Row>)
    requires ById(rows)
    ensures SortRows(rows) == rows
  {
    if rows != [] {
      SortRowsSame(rows[1..]);
      assert rows == [rows[0]] + rows[1..];
    }
  }

  lemma OrdersList(orders: seq<Row>)
    requires Lists(Orders, orders)
    ensures Lists(Orders, SortRows(orders))
  {
    hide FitsAll, KeyOf;
    forall r <- SortRows(orders) ensures FitsAll(Orders.schema, r) { SortRowsMember(orders, r); }
  }

  /** A symbol as it is read back: its orders by id. */
  function InIdOrder(s: Symbol): Symbol {
    s.(orders := SortRows(s.orders))
  }

  // ---------- Tags ----------

  predicate Plain(t: string) {
    forall i :: 0 <= i < |t| ==> t[i] > ' '
  }

  lemma PlainClean(t: string)
    requires Plain(t)
    ensures Clean(t)
  {
  }

  ghost predicate Tagged(s: Section) {
    Clean(s.tag) && Clean(s.entry)
  }

  lemma BookTags()
    ensures Clean("symbol") && Clean("bid_levels") && Clean("bid_level") && Clean("ask_levels") && Clean("ask_level")
  {
    hide Clean;
    PlainClean("symbol");
    PlainClean("bid_levels");
    PlainClean("bid_level");
    PlainClean("ask_levels");
    PlainClean("ask_level");
  }

  lemma OrderTags()
    ensures Tagged(Orders)
  {
    hide Clean;
    PlainClean("active_orders");
    PlainClean("order");
  }

  lemma ClientOrderTags()
    ensures Tagged(ClientOrders)
  {
    hide Clean;
    PlainClean("client_order_map");
    PlainClean("client_order");
  }

  lemma CommandTags()
    ensures Tagged(Commands)
  {
    hide Clean;
    PlainClean("idempotency_processed_commands");
    PlainClean("processed_command");
  }

  lemma ClientIdTags()
    ensures Tagged(UsedClientIds)
  {
    hide Clean;
    ClientIdTag();
    PlainClean("idempotency_client_order");
  }

  lemma ClientIdTag()
    ensures Clean("idempotency_client_orders")
  {
    hide Clean;
    PlainClean("idempotency_client_orders");
  }

  lemma OrderIdTags()
    ensures Tagged(UsedOrderIds)
  {
    hide Clean;
    OrderIdTag();
    PlainClean("idempotency_order_id");
  }

  lemma OrderIdTag()
    ensures Clean("idempotency_order_ids")
  {
    hide Clean;
    PlainClean("idempotency_order_ids");
  }

  lemma SequenceTags()
    ensures Tagged(PublicSequences)
  {
    hide Clean;
    PlainClean("public_sequences");
    PlainClean("public_sequence");
  }

  lemma MarketTags()
    ensures Tagged(MarkPrices) && Tagged(FundingRates)
  {
    hide Clean;
    RateTags();
    PlainClean("mark_prices");
    PlainClean("mark_price_state");
  }

  lemma RateTags()
    ensures Tagged(FundingRates)
  {
    hide Clean;
    PlainClean("funding_rates");
    PlainClean("funding_rate_state");
  }

  lemma SettledTags()
    ensures Tagged(Settled)
  {
    hide Clean;
    PlainClean("settled_funding_intervals");
    PlainClean("settled_funding_interval");
  }

  lemma PositionTags()
    ensures Tagged(Positions) && Tagged(Risks) && Tagged(MetadataEntries)
  {
    hide Clean;
    RiskTags();
    PlainClean("positions");
    PlainClean("position_state");
    PlainClean("metadata");
    PlainClean("metadata_entry");
  }

  lemma RiskTags()
    ensures Tagged(Risks)
  {
    hide Clean;
    PlainClean("risk_states");
    PlainClean("risk_state");
  }

  lemma InputTags()
    ensures Tagged(InputIds)
  {
    hide Clean;
    PlainClean("processed_input_ids");
    PlainClean("processed_request");
  }

  lemma RequestTags()
    ensures Tagged(RequestKeys)
  {
    hide Clean;
    PlainClean("processed_idempotency_keys");
    PlainClean("processed_request");
  }

  lemma HeadTags()
    ensures Clean("symbols") && Clean("schema_version") && Clean("checkpoint_id") && Clean("source_position") && Clean("sequence_state") && Clean("end")
  {
    hide Clean;
    PlainClean("symbols");
    PlainClean("schema_version");
    PlainClean("checkpoint_id");
    PlainClean("source_position");
    PlainClean("sequence_state");
    PlainClean("end");
  }

  lemma SymbolRoundTrip(s: Symbol, rest: string)
    requires GoodSymbol(s)
    ensures ReadSymbol(SymbolText(s) + rest) == Some((InIdOrder(s), rest))
  {
    hide Clean, TaggedRow, ReadLevelSection, ReadSection, LevelsText, SectionText, RowLine, Lists, FitsAll, SortRows;
    BookTags();
    OrderTags();
    ClientOrderTags();
    OrdersList(s.orders);
    var e := SectionText(ClientOrders, s.clientOrders);
    var d := SectionText(Orders, SortRows(s.orders));
    var c := LevelsText("ask_levels", "ask_level", s.asks);
    var b := LevelsText("bid_levels", "bid_level", s.bids);
    var a := RowLine("symbol", s.config);
    SectionRoundTrip(ClientOrders, s.clientOrders, rest);
    SectionRoundTrip(Orders, SortRows(s.orders), e + rest);
    LevelSectionRoundTrip("ask_levels", "ask_level", s.asks, d + (e + rest));
    LevelSectionRoundTrip("bid_levels", "bid_level", s.bids, c + (d + (e + rest)));
    TaggedRoundTrip("symbol", SymbolSchema, s.config, b + (c + (d + (e + rest))));
    FiveParts(a, b, c, d, e, rest);
  }

  lemma FiveParts(a: string, b: string, c: string, d: string, e: string, rest: string)
    ensures a + b + c + d + e + rest == a + (b + (c + (d + (e + rest))))
  {
  }

  function AllInIdOrder(symbols: seq<Symbol>): seq<Symbol> {
    if symbols == [] then [] else [InIdOrder(symbols[0])] + AllInIdOrder(symbols[1..])
  }

  lemma {:induction false} SymbolsRoundTrip(symbols: seq<Symbol>, rest: string, done: seq<Symbol>)
    requires forall s <- symbols :: GoodSymbol(s)
    ensures ReadSymbols(|symbols|, SymbolTexts(symbols) + rest, done) == Some((done + AllInIdOrder(symbols), rest))
    decreases |symbols|
  {
    hide GoodSymbol, ReadSymbol, SymbolText, InIdOrder;
    if symbols == [] {
      assert SymbolTexts(symbols) + rest == rest && done + AllInIdOrder(symbols) == done;
    } else {
      var s, more := InIdOrder(symbols[0]), SymbolTexts(symbols[1..]) + rest;
      SymbolRoundTrip(symbols[0], more);
      assert SymbolTexts(symbols) + rest == SymbolText(symbols[0]) + more;
      SymbolsRoundTrip(symbols[1..], rest, done + [s]);
      assert (done + [s]) + AllInIdOrder(symbols[1..]) == done + AllInIdOrder(symbols);
    }
  }

  // ---------- Tables ----------

  ghost predicate AllTagged(sections: seq<Section>) {
    forall s <- sections :: Tagged(s)
  }

  ghost predicate AllList(sections: seq<Section>, tables: seq<seq<Row>>) {
    |tables| == |sections| && forall i :: 0 <= i < |tables| ==> Lists(sections[i], tables[i])
  }

  lemma SameLength(sections: seq<Section>, tables: seq<seq<Row>>)
    requires AllList(sections, tables)
    ensures |tables| == |sections|
  {
    hide Lists;
  }

  lemma HeadAndTail(sections: seq<Section>, tables: seq<seq<Row>>)
    requires AllTagged(sections) && AllList(sections, tables) && sections != []
    ensures Tagged(sections[0]) && Lists(sections[0], tables[0])
    ensures AllTagged(sections[1..]) && AllList(sections[1..], tables[1..])
    ensures [tables[0]] + tables[1..] == tables
  {
    hide Tagged, Lists;
    assert sections[0] in sections;
  }

  lemma Regroup(a: string, b: string, c: string)
    ensures (a + b) + c == a + (b + c)
  {
  }

  lemma {:induction false} TablesRoundTrip(sections: seq<Section>, tables: seq<seq<Row>>, rest: string)
    requires AllTagged(sections) && AllList(sections, tables)
    ensures ReadTables(sections, TablesText(sections, tables) + rest) == Some((tables, rest))
    decreases |sections|
  {
    hide Tagged, Lists, ReadSection, SectionText, AllTagged, AllList;
    SameLength(sections, tables);
    if sections == [] {
      assert TablesText(sections, tables) + rest == rest;
    } else {
      var more := TablesText(sections[1..], tables[1..]) + rest;
      HeadAndTail(sections, tables);
      SectionRoundTrip(sections[0], tables[0], more);
      Regroup(SectionText(sections[0], tables[0]), TablesText(sections[1..], tables[1..]), rest);
      TablesRoundTrip(sections[1..], tables[1..], rest);
    }
  }

  /** Tables that may be missing, all there, followed by another line. */
  lemma {:induction false} OptionalRoundTrip(sections: seq<Section>, tables: seq<seq<Row>>, after: seq<string>, rest: string)
    requires AllTagged(sections) && AllList(sections, tables) && after != [] && AllClean(after)
    ensures var line := NextLine(TablesText(sections, tables) + (LineText(after) + rest));
            line.Some? && ReadOptional(sections, line.value.0, line.value.1) == Some(Ahead(tables, after, rest))
    decreases |sections|
  {
    hide Tagged, Lists, ReadEntries, SectionText, AllClean, NextLine, LineText, NatText, AllTagged, AllList;
    SameLength(sections, tables);
    var last := LineText(after) + rest;
    if sections == [] {
      assert TablesText(sections, tables) + last == last;
      LineRoundTrip(after, rest);
    } else {
      var more := TablesText(sections[1..], tables[1..]) + last;
      HeadAndTail(sections, tables);
      SectionRoundTrip(sections[0], tables[0], more);
      Regroup(SectionText(sections[0], tables[0]), TablesText(sections[1..], tables[1..]), last);
      OptionalRoundTrip(sections[1..], tables[1..], after, rest);
    }
  }

  lemma {:induction false} HeaderRoundTrip(tags: seq<string>, schemas: seq<seq<Kind>>, rows: seq<Row>, rest: string)
    requires |tags| == |schemas| == |rows| && (forall t <- tags :: Clean(t))
    requires forall i :: 0 <= i < |rows| ==> FitsAll(schemas[i], rows[i])
    ensures ReadHeader(tags, schemas, HeaderLines(tags, rows) + rest) == Some((rows, rest))
    decreases |tags|
  {
    hide Clean, FitsAll, TaggedRow, RowLine;
    if tags == [] {
      assert HeaderLines(tags, rows) + rest == rest;
    } else {
      var more := HeaderLines(tags[1..], rows[1..]) + rest;
      assert tags[0] in tags;
      TaggedRoundTrip(tags[0], schemas[0], rows[0], more);
      assert HeaderLines(tags, rows) + rest == RowLine(tags[0], rows[0]) + more;
      HeaderRoundTrip(tags[1..], schemas[1..], rows[1..], rest);
      assert rows == [rows[0]] + rows[1..];
    }
  }

  // ---------- The checkpoint ----------

  /** Every structure fits its schema and every map lists each key once. */
  ghost predicate Consistent(c: Checkpoint) {
    && FitsAll(SequenceSchema, c.sequences)
    && (forall s <- c.symbols :: GoodSymbol(s))
    && AllList(CoreTables, CoreRows(c)) && AllList(LedgerTables, LedgerRows(c)) && AllList(RequestTables, RequestRows(c))
    && Lists(MetadataEntries, c.metadata)
  }

  /** What is read back: symbols and orders in id order, and metadata for active orders only. */
  function Canonical(c: Checkpoint): Checkpoint {
    c.(symbols := AllInIdOrder(SortSymbols(c.symbols)), metadata := ActiveMetadata(c.metadata, ActiveIds(c.symbols)))
  }

  lemma {:induction false} ActiveMember(metadata: seq<Row>, ids: set<nat>, x: Row)
    ensures x in ActiveMetadata(metadata, ids) <==> x in metadata && FirstNat(x) in ids
  {
    if metadata != [] {
      ActiveMember(metadata[1..], ids, x);
      assert metadata == [metadata[0]] + metadata[1..];
    }
  }

  lemma {:induction false} ActiveDistinct(metadata: seq<Row>, ids: set<nat>, width: nat)
    requires forall i, j :: 0 <= i < j < |metadata| ==> KeyOf(metadata[i], width) != KeyOf(metadata[j], width)
    ensures var r := ActiveMetadata(metadata, ids);
            forall i, j :: 0 <= i < j < |r| ==> KeyOf(r[i], width) != KeyOf(r[j], width)
  {
    hide KeyOf;
    if metadata != [] {
      ActiveDistinct(metadata[1..], ids, width);
      var r := ActiveMetadata(metadata[1..], ids);
      forall j | 0 <= j < |r| ensures KeyOf(r[j], width) != KeyOf(metadata[0], width) {
        ActiveMember(metadata[1..], ids, r[j]);
        var i :| 0 <= i < |metadata[1..]| && metadata[1..][i] == r[j];
        assert metadata[i + 1] == r[j];
      }
    }
  }

  lemma ActiveLists(metadata: seq<Row>, ids: set<nat>)
    requires Lists(MetadataEntries, metadata)
    ensures Lists(MetadataEntries, ActiveMetadata(metadata, ids))
  {
    hide FitsAll, KeyOf, ActiveMetadata;
    forall r <- ActiveMetadata(metadata, ids) ensures FitsAll(MetadataEntries.schema, r) { ActiveMember(metadata, ids, r); }
    ActiveDistinct(metadata, ids, MetadataEntries.width);
  }

  lemma {:induction false} InsertSymbolMember(symbols: seq<Symbol>, s: Symbol, x: Symbol)
    ensures x in InsertSymbol(symbols, s) <==> x in symbols || x == s
    ensures |InsertSymbol(symbols, s)| == |symbols| + 1
  {
    if symbols != [] && FirstNat(s.config) > FirstNat(symbols[0].config) {
      InsertSymbolMember(symbols[1..], s, x);
      assert symbols == [symbols[0]] + symbols[1..];
    }
  }

  lemma {:induction false} SortSymbolsMember(symbols: seq<Symbol>, x: Symbol)
    ensures x in SortSymbols(symbols) <==> x in symbols
  {
    if symbols != [] {
      SortSymbolsMember(symbols[1..], x);
      InsertSymbolMember(SortSymbols(symbols[1..]), symbols[0], x);
      assert symbols == [symbols[0]] + symbols[1..];
    }
  }

  lemma TableTags()
    ensures AllTagged(CoreTables) && AllTagged(LedgerTables) && AllTagged(RequestTables) && Tagged(MetadataEntries)
  {
    hide Tagged;
    CommandTags();
    ClientIdTags();
    OrderIdTags();
    SequenceTags();
    MarketTags();
    SettledTags();
    PositionTags();
    InputTags();
    RequestTags();
  }

  lemma EndTags()
    ensures (forall t <- HeaderTags :: Clean(t)) && Clean("symbols") && Clean("end")
  {
    hide Clean;
    HeadTags();
  }

  lemma MagicTag()
    ensures Clean(Magic)
  {
    hide Clean;
    PlainClean(Magic);
  }

  /** The tables after the symbols are read back. */
  lemma BodyRoundTrip(c: Checkpoint, metadata: seq<Row>)
    requires AllList(CoreTables, CoreRows(c)) && AllList(LedgerTables, LedgerRows(c)) && AllList(RequestTables, RequestRows(c))
    requires Lists(MetadataEntries, metadata)
    ensures ReadBody(TablesText(CoreTables, CoreRows(c))
                     + (TablesText(LedgerTables, LedgerRows(c))
                        + (SectionText(MetadataEntries, metadata)
                           + (TablesText(RequestTables, RequestRows(c)) + LineText(["end"])))))
            == Some((CoreRows(c), LedgerRows(c), metadata, RequestRows(c)))
  {
    hide Tagged, Lists, AllList, AllTagged, ReadTables, ReadOptional, TablesText, NextLine, ReadEntries, Clean,
      LineText, RowLines, NatText, CountOf;
    TableTags();
    EndTags();
    var requests := TablesText(RequestTables, RequestRows(c)) + LineText(["end"]);
    var rows := RowLines(MetadataEntries.entry, metadata) + requests;
    EndLine();
    TablesRoundTrip(RequestTables, RequestRows(c), LineText(["end"]));
    MetadataLine(metadata, requests);
    OptionalRoundTrip(LedgerTables, LedgerRows(c), [MetadataEntries.tag, NatText(|metadata|)], rows);
    TablesRoundTrip(CoreTables, CoreRows(c),
                    TablesText(LedgerTables, LedgerRows(c)) + (SectionText(MetadataEntries, metadata) + requests));
  }

  lemma EndLine()
    requires Clean("end")
    ensures NextLine(LineText(["end"])) == Some((["end"], ""))
  {
    hide Clean, NextLine, LineText;
    LineRoundTrip(["end"], "");
    assert LineText(["end"]) + "" == LineText(["end"]);
  }

  lemma MetadataLine(metadata: seq<Row>, rest: string)
    requires Tagged(MetadataEntries) && Lists(MetadataEntries, metadata)
    ensures var header := [MetadataEntries.tag, NatText(|metadata|)];
            var rows := RowLines(MetadataEntries.entry, metadata) + rest;
            && AllClean(header)
            && SectionText(MetadataEntries, metadata) + rest == LineText(header) + rows
            && ReadEntries(MetadataEntries, header, rows) == Some((metadata, rest))
  {
    hide Lists, Clean, LineText, RowLines, NatText, ReadRows, NextLine, NatValue, ParseNat;
    var header := [MetadataEntries.tag, NatText(|metadata|)];
    var rows := RowLines(MetadataEntries.entry, metadata) + rest;
    NatRoundTrip(|metadata|);
    CleanNat(|metadata|);
    assert (LineText(header) + RowLines(MetadataEntries.entry, metadata)) + rest == LineText(header) + rows;
    assert [] + metadata == metadata;
    RowsRoundTrip(MetadataEntries, [], metadata, rest);
  }

  lemma HeaderFits(c: Checkpoint)
    requires FitsAll(SequenceSchema, c.sequences)
    ensures |HeaderRows(c)| == 4 && forall i :: 0 <= i < 4 ==> FitsAll(HeaderSchemas[i], HeaderRows(c)[i])
  {
    var rows := HeaderRows(c);
    assert FitsAll(HeaderSchemas[0], rows[0]);
    assert FitsAll(HeaderSchemas[1], rows[1]);
    assert FitsAll(HeaderSchemas[2], rows[2]);
  }

  /**
    For every consistent checkpoint, deserializing its serialization gives it back, in canonical order and with the
    metadata of active orders, whatever bytes its strings hold: tabs, newlines, backslashes, control bytes, nothing.
   */
  lemma CheckpointRoundTrip(c: Checkpoint)
    requires Consistent(c)
    ensures Deserialize(Serialize(c)) == Some(Canonical(c))
  {
    hide GoodSymbol, Lists, AllList, ReadHeader, HeaderLines, NextLine, LineText, ReadSymbols, SymbolTexts, SortSymbols,
      TablesText, SectionText, ReadBody, FitsAll, ActiveMetadata, ActiveIds, AllInIdOrder, CountOf, NatText, Clean;
    var symbols, metadata := SortSymbols(c.symbols), ActiveMetadata(c.metadata, ActiveIds(c.symbols));
    forall s <- symbols ensures GoodSymbol(s) { SortSymbolsMember(c.symbols, s); }
    ActiveLists(c.metadata, ActiveIds(c.symbols));
    BodyRoundTrip(c, metadata);
    var body := TablesText(CoreTables, CoreRows(c))
                + (TablesText(LedgerTables, LedgerRows(c))
                   + (SectionText(MetadataEntries, metadata) + (TablesText(RequestTables, RequestRows(c)) + LineText(["end"]))));
    SymbolsRoundTrip(symbols, body, []);
    assert [] + AllInIdOrder(symbols) == AllInIdOrder(symbols);
    EndTags();
    CountRoundTrip("symbols", |symbols|, SymbolTexts(symbols) + body);
    HeaderFits(c);
    var after := CountLine("symbols", |symbols|) + (SymbolTexts(symbols) + body);
    HeaderRoundTrip(HeaderTags, HeaderSchemas, HeaderRows(c), after);
    MagicTag();
    LineRoundTrip([Magic], HeaderLines(HeaderTags, HeaderRows(c)) + after);
  }

  /** If symbols and orders were already in id order, only the metadata of inactive orders is dropped. */
  lemma {:induction false} CanonicalSame(symbols: seq<Symbol>)
    requires forall s <- symbols :: ById(s.orders)
    requires forall i, j :: 0 <= i < j < |symbols| ==> FirstNat(symbols[i].config) <= FirstNat(symbols[j].config)
    ensures AllInIdOrder(SortSymbols(symbols)) == symbols && SortSymbols(symbols) == symbols
  {
    if symbols != [] {
      assert symbols[0] in symbols;
      SortRowsSame(symbols[0].orders);
      CanonicalSame(symbols[1..]);
      assert symbols == [symbols[0]] + symbols[1..];
    }
  }

  lemma SortedCheckpointRoundTrip(c: Checkpoint)
    requires Consistent(c) && forall s <- c.symbols :: ById(s.orders)
    requires forall i, j :: 0 <= i < j < |c.symbols| ==> FirstNat(c.symbols[i].config) <= FirstNat(c.symbols[j].config)
    ensures Deserialize(Serialize(c)) == Some(c.(metadata := ActiveMetadata(c.metadata, ActiveIds(c.symbols))))
  {
    hide Consistent, Deserialize, Serialize, ActiveMetadata, ActiveIds, SortSymbols, AllInIdOrder;
    CheckpointRoundTrip(c);
    CanonicalSame(c.symbols);
  }
}
