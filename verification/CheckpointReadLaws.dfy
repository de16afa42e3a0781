/**
  What the checkpoint reader accepts: only consistent checkpoints, and no file that was cut short.  Reading looks at whole
  lines from the front, so more text after what was read changes nothing.
 */
module CheckpointReadLaws {
  import opened Types
  import opened CheckpointSpec
  import opened CheckpointLaws

  // ---------- What is read is consistent ----------

  lemma TaggedFits(tag: string, schema: seq<Kind>, t: string)
    ensures TaggedRow(tag, schema, t).Some? ==> FitsAll(schema, TaggedRow(tag, schema, t).value.0)
  {
    hide ParseRow, FitsAll, NextLine;
    if TaggedRow(tag, schema, t).Some? { ParsedFits(schema, NextLine(t).value.0[1..]); }
  }

  lemma {:induction false} RowsListed(s: Section, n: nat, t: string, rows: seq<Row>)
    requires Lists(s, rows)
    ensures var r := ReadRows(s.entry, s.schema, s.width, n, t, rows); r.Some? ==> Lists(s, r.value.0)
    decreases n
  {
    hide TaggedRow, FitsAll, KeyOf;
    if n > 0 {
      var row := TaggedRow(s.entry, s.schema, t);
      if row.Some? && !(s.width > 0 && HasKey(rows, s.width, KeyOf(row.value.0, s.width))) {
        TaggedFits(s.entry, s.schema, t);
        RowsListed(s, n - 1, row.value.1, rows + [row.value.0]);
      }
    }
  }

  /** What a section reads fits its schema, with no key twice, and is as long as its header says. */
  lemma EntriesListed(s: Section, header: seq<string>, t: string)
    ensures var r := ReadEntries(s, header, t); r.Some? ==> Lists(s, r.value.0) && CountOf(header, s.tag) == Some(|r.value.0|)
  {
    hide ReadRows, FitsAll, KeyOf, CountOf;
    var n := CountOf(header, s.tag);
    if n.Some? {
      RowsListed(s, n.value, t, []);
      RowsCounted(s, n.value, t, []);
    }
  }

  lemma {:induction false} RowsCounted(s: Section, n: nat, t: string, rows: seq<Row>)
    ensures var r := ReadRows(s.entry, s.schema, s.width, n, t, rows); r.Some? ==> |r.value.0| == |rows| + n
    decreases n
  {
    hide TaggedRow, HasKey, KeyOf;
    if n > 0 {
      var row := TaggedRow(s.entry, s.schema, t);
      if row.Some? { RowsCounted(s, n - 1, row.value.1, rows + [row.value.0]); }
    }
  }

  lemma SectionListed(s: Section, t: string)
    ensures ReadSection(s, t).Some? ==> Lists(s, ReadSection(s, t).value.0)
  {
    hide ReadEntries, Lists, NextLine;
    if NextLine(t).Some? { EntriesListed(s, NextLine(t).value.0, NextLine(t).value.1); }
  }

  lemma SymbolListed(t: string)
    ensures ReadSymbol(t).Some? ==> GoodSymbol(ReadSymbol(t).value.0)
  {
    hide TaggedRow, ReadLevelSection, ReadSection, Lists, FitsAll;
    TaggedFits("symbol", SymbolSchema, t);
    if ReadSymbol(t).Some? {
      var bids := ReadLevelSection("bid_levels", "bid_level", TaggedRow("symbol", SymbolSchema, t).value.1);
      var asks := ReadLevelSection("ask_levels", "ask_level", bids.value.1);
      SectionListed(Orders, asks.value.1);
      SectionListed(ClientOrders, ReadSection(Orders, asks.value.1).value.1);
    }
  }

  lemma {:induction false} SymbolsListed(n: nat, t: string, symbols: seq<Symbol>)
    requires forall s <- symbols :: GoodSymbol(s)
    ensures var r := ReadSymbols(n, t, symbols); r.Some? ==> |r.value.0| == |symbols| + n && forall s <- r.value.0 :: GoodSymbol(s)
    decreases n
  {
    hide ReadSymbol, GoodSymbol;
    if n > 0 && ReadSymbol(t).Some? {
      SymbolListed(t);
      SymbolsListed(n - 1, ReadSymbol(t).value.1, symbols + [ReadSymbol(t).value.0]);
    }
  }

  lemma ListsCons(sections: seq<Section>, first: seq<Row>, more: seq<seq<Row>>)
    requires sections != [] && Lists(sections[0], first) && AllList(sections[1..], more)
    ensures AllList(sections, [first] + more)
  {
    hide Lists;
  }

  lemma NoTables()
    ensures AllList([], [])
  {
  }

  lemma {:induction false} TablesListed(sections: seq<Section>, t: string)
    ensures ReadTables(sections, t).Some? ==> AllList(sections, ReadTables(sections, t).value.0)
    decreases |sections|
  {
    hide ReadSection, Lists, AllList;
    NoTables();
    if sections != [] && ReadSection(sections[0], t).Some? {
      SectionListed(sections[0], t);
      var first := ReadSection(sections[0], t).value;
      TablesListed(sections[1..], first.1);
      if ReadTables(sections[1..], first.1).Some? { ListsCons(sections, first.0, ReadTables(sections[1..], first.1).value.0); }
    }
  }

  lemma EmptyListed(s: Section)
    ensures Lists(s, [])
  {
  }

  lemma {:induction false} OptionalListed(sections: seq<Section>, header: seq<string>, t: string)
    ensures ReadOptional(sections, header, t).Some? ==> AllList(sections, ReadOptional(sections, header, t).value.tables)
    decreases |sections|
  {
    hide ReadEntries, Lists, AllList, NextLine;
    NoTables();
    if sections != [] && ReadOptional(sections, header, t).Some? {
      if header == [] || header[0] != sections[0].tag {
        OptionalListed(sections[1..], header, t);
        EmptyListed(sections[0]);
        ListsCons(sections, [], ReadOptional(sections[1..], header, t).value.tables);
      } else {
        var first := ReadEntries(sections[0], header, t).value;
        var line := NextLine(first.1).value;
        EntriesListed(sections[0], header, t);
        OptionalListed(sections[1..], line.0, line.1);
        ListsCons(sections, first.0, ReadOptional(sections[1..], line.0, line.1).value.tables);
      }
    }
  }

  lemma BodyListed(t: string)
    ensures ReadBody(t).Some? ==>
              && AllList(CoreTables, ReadBody(t).value.0) && AllList(LedgerTables, ReadBody(t).value.1)
              && Lists(MetadataEntries, ReadBody(t).value.2) && AllList(RequestTables, ReadBody(t).value.3)
  {
    hide ReadTables, ReadOptional, ReadEntries, NextLine, AllList, Lists;
    TablesListed(CoreTables, t);
    if ReadBody(t).Some? {
      var line := NextLine(ReadTables(CoreTables, t).value.1).value;
      OptionalListed(LedgerTables, line.0, line.1);
      var ledger := ReadOptional(LedgerTables, line.0, line.1).value;
      EntriesListed(MetadataEntries, ledger.header, ledger.rest);
      TablesListed(RequestTables, ReadEntries(MetadataEntries, ledger.header, ledger.rest).value.1);
    }
  }

  lemma HeaderSequences(rows: seq<Row>)
    requires |rows| == 4 && forall i :: 0 <= i < 4 ==> FitsAll(HeaderSchemas[i], rows[i])
    ensures FitsAll(SequenceSchema, rows[3])
  {
    assert HeaderSchemas[3] == SequenceSchema;
  }

  lemma FourTables<T>(ts: seq<T>)
    ensures |ts| == 4 ==> ts == [ts[0], ts[1], ts[2], ts[3]]
    ensures |ts| == 5 ==> ts == [ts[0], ts[1], ts[2], ts[3], ts[4]]
    ensures |ts| == 2 ==> ts == [ts[0], ts[1]]
  {
  }

  /**
    Whatever text is accepted: its first line is the format's, every entry fits its schema, and no map has a key twice.  So
    writing what was read and reading it again gives its canonical form.
   */
  lemma AcceptedIsConsistent(t: string)
    ensures Deserialize(t).Some? ==>
              && Consistent(Deserialize(t).value)
              && NextLine(t).Some? && NextLine(t).value.0 == ["cex.engine.checkpoint.file.v1"]
              && Deserialize(Serialize(Deserialize(t).value)) == Some(Canonical(Deserialize(t).value))
  {
    hide NextLine, ReadHeader, CountOf, ReadSymbols, ReadBody, AllList, Lists, GoodSymbol, FitsAll, Serialize, Canonical;
    if Deserialize(t).Some? {
      var header := ReadHeader(HeaderTags, HeaderSchemas, NextLine(t).value.1).value;
      var line := NextLine(header.1).value;
      var n := CountOf(line.0, "symbols").value;
      SymbolsListed(n, line.1, []);
      HeaderSequences(header.0);
      var body := ReadSymbols(n, line.1, []).value.1;
      BodyListed(body);
      var (core, ledger, metadata, requests) := ReadBody(body).value;
      FourTables(core);
      FourTables(ledger);
      FourTables(requests);
      var c := Deserialize(t).value;
      assert CoreRows(c) == core && LedgerRows(c) == ledger && RequestRows(c) == requests;
      CheckpointRoundTrip(c);
    }
  }

  // ---------- More text changes nothing ----------

  lemma {:induction false} UntilMore(t: string, c: char, y: string)
    ensures Until(t, c).1.Some? ==> Until(t + y, c) == (Until(t, c).0, Some(Until(t, c).1.value + y))
  {
    if t != "" {
      assert (t + y)[1..] == t[1..] + y;
      UntilMore(t[1..], c, y);
    }
  }

  /** A reader's result stays, with the added text left over. */
  predicate Extends<T(==)>(r: Option<(T, string)>, t: string, more: Option<(T, string)>, y: string) {
    r.Some? ==> |r.value.1| <= |t| && (r.value.1 != "" ==> more == Some((r.value.0, r.value.1 + y)))
  }

  lemma LineMore(t: string, y: string)
    ensures Extends(NextLine(t), t, NextLine(t + y), y)
  {
    hide Split, WithoutReturn, Until;
    UntilMore(t, '\n', y);
  }

  lemma TaggedMore(tag: string, schema: seq<Kind>, t: string, y: string)
    ensures Extends(TaggedRow(tag, schema, t), t, TaggedRow(tag, schema, t + y), y)
  {
    hide NextLine, ParseRow;
    LineMore(t, y);
  }

  lemma {:induction false} RowsMore(s: Section, n: nat, t: string, rows: seq<Row>, y: string)
    ensures Extends(ReadRows(s.entry, s.schema, s.width, n, t, rows), t, ReadRows(s.entry, s.schema, s.width, n, t + y, rows), y)
    decreases n
  {
    hide TaggedRow, HasKey, KeyOf;
    if n > 0 {
      TaggedMore(s.entry, s.schema, t, y);
      var row := TaggedRow(s.entry, s.schema, t);
      if row.Some? { RowsMore(s, n - 1, row.value.1, rows + [row.value.0], y); }
    }
  }

  lemma EntriesMore(s: Section, header: seq<string>, t: string, y: string)
    ensures Extends(ReadEntries(s, header, t), t, ReadEntries(s, header, t + y), y)
  {
    hide ReadRows, CountOf;
    var n := CountOf(header, s.tag);
    if n.Some? { RowsMore(s, n.value, t, [], y); }
  }

  lemma SectionMore(s: Section, t: string, y: string)
    ensures Extends(ReadSection(s, t), t, ReadSection(s, t + y), y)
  {
    hide ReadEntries, NextLine;
    LineMore(t, y);
    if NextLine(t).Some? { EntriesMore(s, NextLine(t).value.0, NextLine(t).value.1, y); }
  }

  lemma {:induction false} LevelsMore(tag: string, n: nat, t: string, levels: seq<Level>, y: string)
    ensures Extends(ReadLevels(tag, n, t, levels), t, ReadLevels(tag, n, t + y, levels), y)
    decreases n
  {
    hide NextLine, ParseLevel;
    if n > 0 {
      LineMore(t, y);
      if NextLine(t).Some? {
        var level := ParseLevel(tag, NextLine(t).value.0);
        if level.Some? { LevelsMore(tag, n - 1, NextLine(t).value.1, levels + [level.value], y); }
      }
    }
  }

  lemma LevelSectionMore(countTag: string, tag: string, t: string, y: string)
    ensures Extends(ReadLevelSection(countTag, tag, t), t, ReadLevelSection(countTag, tag, t + y), y)
  {
    hide NextLine, ReadLevels, CountOf;
    LineMore(t, y);
    if NextLine(t).Some? {
      var n := CountOf(NextLine(t).value.0, countTag);
      if n.Some? { LevelsMore(tag, n.value, NextLine(t).value.1, [], y); }
    }
  }

  lemma SymbolMore(t: string, y: string)
    ensures Extends(ReadSymbol(t), t, ReadSymbol(t + y), y)
  {
    hide TaggedRow, ReadLevelSection, ReadSection;
    TaggedMore("symbol", SymbolSchema, t, y);
    if ReadSymbol(t).Some? {
      var a := TaggedRow("symbol", SymbolSchema, t).value.1;
      LevelSectionMore("bid_levels", "bid_level", a, y);
      var b := ReadLevelSection("bid_levels", "bid_level", a).value.1;
      LevelSectionMore("ask_levels", "ask_level", b, y);
      var c := ReadLevelSection("ask_levels", "ask_level", b).value.1;
      SectionMore(Orders, c, y);
      SectionMore(ClientOrders, ReadSection(Orders, c).value.1, y);
    }
  }

  lemma {:induction false} SymbolsMore(n: nat, t: string, symbols: seq<Symbol>, y: string)
    ensures Extends(ReadSymbols(n, t, symbols), t, ReadSymbols(n, t + y, symbols), y)
    decreases n
  {
    hide ReadSymbol;
    if n > 0 {
      SymbolMore(t, y);
      if ReadSymbol(t).Some? { SymbolsMore(n - 1, ReadSymbol(t).value.1, symbols + [ReadSymbol(t).value.0], y); }
    }
  }

  lemma {:induction false} TablesMore(sections: seq<Section>, t: string, y: string)
    ensures Extends(ReadTables(sections, t), t, ReadTables(sections, t + y), y)
    decreases |sections|
  {
    hide ReadSection;
    if sections != [] {
      SectionMore(sections[0], t, y);
      if ReadSection(sections[0], t).Some? { TablesMore(sections[1..], ReadSection(sections[0], t).value.1, y); }
    }
  }

  lemma {:induction false} OptionalMore(sections: seq<Section>, header: seq<string>, t: string, y: string)
    ensures var r := ReadOptional(sections, header, t);
            r.Some? ==> |r.value.rest| <= |t| && (r.value.rest != "" ==>
                          ReadOptional(sections, header, t + y) == Some(r.value.(rest := r.value.rest + y)))
    decreases |sections|
  {
    hide ReadEntries, NextLine;
    if sections != [] {
      if header == [] || header[0] != sections[0].tag {
        OptionalMore(sections[1..], header, t, y);
      } else {
        EntriesMore(sections[0], header, t, y);
        var first := ReadEntries(sections[0], header, t);
        if first.Some? {
          LineMore(first.value.1, y);
          var line := NextLine(first.value.1);
          if line.Some? { OptionalMore(sections[1..], line.value.0, line.value.1, y); }
        }
      }
    }
  }

  lemma {:induction false} HeaderMore(tags: seq<string>, schemas: seq<seq<Kind>>, t: string, y: string)
    requires |tags| == |schemas|
    ensures Extends(ReadHeader(tags, schemas, t), t, ReadHeader(tags, schemas, t + y), y)
    decreases |tags|
  {
    hide TaggedRow, FitsAll;
    if tags != [] {
      TaggedMore(tags[0], schemas[0], t, y);
      if TaggedRow(tags[0], schemas[0], t).Some? { HeaderMore(tags[1..], schemas[1..], TaggedRow(tags[0], schemas[0], t).value.1, y); }
    }
  }

  // ---------- Cut short ----------

  /** Reading the tables after the symbols gets as far as this rest. */
  ghost predicate GetsTo(t: string, rest: string) {
    && ReadTables(CoreTables, t).Some?
    && var line := NextLine(ReadTables(CoreTables, t).value.1);
       && line.Some? && ReadOptional(LedgerTables, line.value.0, line.value.1).Some?
       && var ledger := ReadOptional(LedgerTables, line.value.0, line.value.1).value;
          && ReadEntries(MetadataEntries, ledger.header, ledger.rest).Some?
          && var requests := ReadTables(RequestTables, ReadEntries(MetadataEntries, ledger.header, ledger.rest).value.1);
             requests.Some? && requests.value.1 == rest
  }

  lemma GetsMore(t: string, rest: string, y: string)
    requires GetsTo(t, rest) && rest != ""
    ensures GetsTo(t + y, rest + y)
  {
    hide ReadTables, ReadOptional, ReadEntries, NextLine;
    TablesMore(CoreTables, t, y);
    var a := ReadTables(CoreTables, t).value.1;
    LineMore(a, y);
    var line := NextLine(a).value;
    OptionalMore(LedgerTables, line.0, line.1, y);
    var ledger := ReadOptional(LedgerTables, line.0, line.1).value;
    EntriesMore(MetadataEntries, ledger.header, ledger.rest, y);
    TablesMore(RequestTables, ReadEntries(MetadataEntries, ledger.header, ledger.rest).value.1, y);
  }

  lemma BodyGets(t: string) returns (rest: string)
    requires ReadBody(t).Some?
    ensures GetsTo(t, rest) && NextLine(rest).Some? && NextLine(rest).value.0 == ["end"]
  {
    hide ReadTables, ReadOptional, ReadEntries, NextLine;
    var line := NextLine(ReadTables(CoreTables, t).value.1).value;
    var ledger := ReadOptional(LedgerTables, line.0, line.1).value;
    rest := ReadTables(RequestTables, ReadEntries(MetadataEntries, ledger.header, ledger.rest).value.1).value.1;
  }

  function BodyText(c: Checkpoint): string {
    TablesText(CoreTables, CoreRows(c))
    + (TablesText(LedgerTables, LedgerRows(c))
       + (SectionText(MetadataEntries, ActiveMetadata(c.metadata, ActiveIds(c.symbols)))
          + (TablesText(RequestTables, RequestRows(c)) + LineText(["end"]))))
  }

  /** Reading a written body gets exactly to its last line. */
  lemma WrittenGets(c: Checkpoint)
    requires Consistent(c)
    ensures GetsTo(BodyText(c), "end\n")
  {
    hide Tagged, Lists, AllList, AllTagged, ReadTables, ReadOptional, TablesText, NextLine, ReadEntries, Clean, LineText, RowLines,
      NatText, CountOf, ActiveMetadata, ActiveIds, SectionText, GoodSymbol, FitsAll;
    var metadata := ActiveMetadata(c.metadata, ActiveIds(c.symbols));
    ActiveLists(c.metadata, ActiveIds(c.symbols));
    TableTags();
    LastLine();
    var requests := TablesText(RequestTables, RequestRows(c)) + LineText(["end"]);
    var rows := RowLines(MetadataEntries.entry, metadata) + requests;
    TablesRoundTrip(RequestTables, RequestRows(c), LineText(["end"]));
    MetadataLine(metadata, requests);
    OptionalRoundTrip(LedgerTables, LedgerRows(c), [MetadataEntries.tag, NatText(|metadata|)], rows);
    TablesRoundTrip(CoreTables, CoreRows(c), TablesText(LedgerTables, LedgerRows(c)) + (SectionText(MetadataEntries, metadata) + requests));
  }

  lemma LastLine()
    ensures LineText(["end"]) == "end\n"
  {
  }

  /** Reading the text gets as far as the tables after the symbols. */
  ghost predicate BodyAt(t: string, body: string) {
    && NextLine(t).Some? && ReadHeader(HeaderTags, HeaderSchemas, NextLine(t).value.1).Some?
    && var line := NextLine(ReadHeader(HeaderTags, HeaderSchemas, NextLine(t).value.1).value.1);
       && line.Some? && CountOf(line.value.0, "symbols").Some?
       && var symbols := ReadSymbols(CountOf(line.value.0, "symbols").value, line.value.1, []);
          symbols.Some? && symbols.value.1 == body
  }

  lemma BodyMore(t: string, body: string, y: string)
    requires BodyAt(t, body) && body != ""
    ensures BodyAt(t + y, body + y)
  {
    hide NextLine, ReadHeader, CountOf, ReadSymbols;
    LineMore(t, y);
    var a := NextLine(t).value.1;
    HeaderMore(HeaderTags, HeaderSchemas, a, y);
    var b := ReadHeader(HeaderTags, HeaderSchemas, a).value.1;
    LineMore(b, y);
    var line := NextLine(b).value;
    SymbolsMore(CountOf(line.0, "symbols").value, line.1, [], y);
  }

  lemma AcceptedAt(t: string) returns (body: string)
    requires Deserialize(t).Some?
    ensures BodyAt(t, body) && ReadBody(body).Some?
  {
    hide NextLine, ReadHeader, CountOf, ReadSymbols, ReadBody;
    var line := NextLine(ReadHeader(HeaderTags, HeaderSchemas, NextLine(t).value.1).value.1).value;
    body := ReadSymbols(CountOf(line.0, "symbols").value, line.1, []).value.1;
  }

  lemma WrittenAt(c: Checkpoint)
    requires Consistent(c)
    ensures BodyAt(Serialize(c), BodyText(c))
  {
    hide GoodSymbol, Lists, AllList, ReadHeader, HeaderLines, NextLine, LineText, ReadSymbols, SymbolTexts, SortSymbols,
      TablesText, SectionText, FitsAll, ActiveMetadata, ActiveIds, AllInIdOrder, CountOf, NatText, Clean;
    var symbols := SortSymbols(c.symbols);
    forall s <- symbols ensures GoodSymbol(s) { SortSymbolsMember(c.symbols, s); }
    SymbolsRoundTrip(symbols, BodyText(c), []);
    EndTags();
    CountRoundTrip("symbols", |symbols|, SymbolTexts(symbols) + BodyText(c));
    HeaderFits(c);
    var after := CountLine("symbols", |symbols|) + (SymbolTexts(symbols) + BodyText(c));
    HeaderRoundTrip(HeaderTags, HeaderSchemas, HeaderRows(c), after);
    MagicTag();
    LineRoundTrip([Magic], HeaderLines(HeaderTags, HeaderRows(c)) + after);
  }

  lemma EmptyBody()
    ensures ReadBody("").None? && NextLine("").None?
  {
    hide ReadOptional, ReadRows;
    assert ReadSection(CoreTables[0], "").None?;
  }

  /** Of the last line, only its newline can be missing. */
  lemma LastLineWhole(rest: string, y: string)
    requires rest + y == "end\n" && NextLine(rest).Some? && NextLine(rest).value.0 == ["end"]
    ensures y == "" || y == "\n"
  {
    hide Split;
    var n := |rest|;
    assert rest == "end\n"[..n] && y == "end\n"[n..];
    if n <= 2 {
      assert forall c <- rest :: c != '\n' && c != '\r' && c != '\t';
      UntilNever(rest, '\n');
      WholeLine(rest);
    }
  }

  lemma WholeLine(rest: string)
    requires rest != "" && forall c <- rest :: c != '\n' && c != '\r' && c != '\t'
    ensures NextLine(rest) == Some(([rest], ""))
  {
    hide Until;
    UntilNever(rest, '\n');
    UntilNever(rest, '\t');
    assert rest[|rest| - 1] in rest;
  }

  /**
    A written checkpoint that was cut short anywhere is not accepted: of a consistent checkpoint's text the reader takes only
    the whole, or the whole without its final newline.
   */
  lemma CutShortRejected(c: Checkpoint, part: string, missing: string)
    requires Consistent(c) && part + missing == Serialize(c)
    ensures Deserialize(part).Some? ==> missing == "" || missing == "\n"
  {
    hide Consistent, Serialize, Deserialize, BodyText, BodyAt, GetsTo, ReadBody, NextLine;
    if Deserialize(part).Some? {
      EmptyBody();
      var body := AcceptedAt(part);
      BodyMore(part, body, missing);
      WrittenAt(c);
      OneBody(Serialize(c), body + missing, BodyText(c));
      var rest := BodyGets(body);
      GetsMore(body, rest, missing);
      WrittenGets(c);
      OneRest(BodyText(c), rest + missing, "end\n");
      LastLineWhole(rest, missing);
    }
  }

  lemma OneBody(t: string, a: string, b: string)
    requires BodyAt(t, a) && BodyAt(t, b)
    ensures a == b
  {
    hide NextLine, ReadHeader, CountOf, ReadSymbols;
  }

  lemma OneRest(t: string, a: string, b: string)
    requires GetsTo(t, a) && GetsTo(t, b)
    ensures a == b
  {
    hide ReadTables, ReadOptional, ReadEntries, NextLine;
  }
}
