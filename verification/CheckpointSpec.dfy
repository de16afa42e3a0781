/**
  The checkpoint text: tab-separated lines, grouped in counted sections.  A structure is a row of typed cells, listed with
  its schema; a map is listed by its entries, whose keys are distinct.  Texts are byte strings.
 */
module CheckpointSpec {
  import opened Types

  // ---------- Escaping ----------

  function HexUpper(n: nat): char
    requires n < 16
  {
    if n < 10 then '0' + n as char else 'A' + (n - 10) as char
  }

  function HexOf(c: char): Option<nat> {
    if '0' <= c <= '9' then Some((c - '0') as nat)
    else if 'A' <= c <= 'F' then Some(10 + (c - 'A') as nat)
    else if 'a' <= c <= 'f' then Some(10 + (c - 'a') as nat)
    else None
  }

  function EscapeByte(c: char): string {
    if c == '\\' then "\\\\"
    else if c == '\n' then "\\n"
    else if c == '\r' then "\\r"
    else if c == '\t' then "\\t"
    else if c < ' ' then ['\\', 'x', HexUpper(c as nat / 16), HexUpper(c as nat % 16)]
    else [c]
  }

  function EscapeField(s: string): string {
    if s == "" then "" else EscapeByte(s[0]) + EscapeField(s[1..])
  }

  /** One byte, escaped or not, and what follows it. */
  function UnescapeByte(t: string): Option<(char, string)>
    requires t != ""
  {
    if t[0] != '\\' then Some((t[0], t[1..]))
    else if |t| < 2 then None
    else if t[1] == '\\' then Some(('\\', t[2..]))
    else if t[1] == 'n' then Some(('\n', t[2..]))
    else if t[1] == 'r' then Some(('\r', t[2..]))
    else if t[1] == 't' then Some(('\t', t[2..]))
    else if t[1] == 'x' then
      if |t| < 4 || HexOf(t[2]).None? || HexOf(t[3]).None? then None
      else Some(((HexOf(t[2]).value * 16 + HexOf(t[3]).value) as char, t[4..]))
    else None
  }

  function UnescapeField(t: string): Option<string> {
    if t == "" then Some("")
    else
      var first := UnescapeByte(t);
      if first.None? then None
      else
        var more := UnescapeField(first.value.1);
        if more.None? then None else Some([first.value.0] + more.value)
  }

  // ---------- Integers ----------

  predicate IsDigit(c: char) {
    '0' <= c <= '9'
  }

  function NatText(n: nat): string {
    if n < 10 then ['0' + n as char] else NatText(n / 10) + ['0' + (n % 10) as char]
  }

  function IntText(n: int): string {
    if n < 0 then "-" + NatText(-n) else NatText(n)
  }

  /** The value of a run of digits. */
  function NatValue(t: string): Option<nat> {
    if t == "" then Some(0)
    else
      var front, last := NatValue(t[..|t| - 1]), t[|t| - 1];
      if front.None? || !IsDigit(last) then None else Some(10 * front.value + (last - '0') as nat)
  }

  function ParseNat(t: string): Option<nat> {
    if t == "" then None else NatValue(t)
  }

  function ParseInt(t: string): Option<int> {
    if t != "" && t[0] == '-' then
      var magnitude := ParseNat(t[1..]);
      if magnitude.None? then None else var n: int := magnitude.value; Some(-n)
    else
      var magnitude := ParseNat(t);
      if magnitude.None? then None else Some(magnitude.value)
  }

  // ---------- Cells and rows ----------

  /** Enumerations are stored by ordinal; an optional value is a flag and a value, a dummy where there is none. */
  datatype Kind = IntKind | NatKind | TextKind | FlagKind | EnumKind(size: nat) | MaybeNat | MaybeText | MaybeEnum(size: nat)

  datatype Cell =
    | IntCell(i: int)
    | NatCell(n: nat)
    | TextCell(text: string)
    | FlagCell(flag: bool)
    | EnumCell(ordinal: nat)
    | MaybeNatCell(maybeNat: Option<nat>)
    | MaybeTextCell(maybeText: Option<string>)
    | MaybeEnumCell(maybeOrdinal: Option<nat>)

  type Row = seq<Cell>

  predicate Fits(k: Kind, c: Cell) {
    match k
    case IntKind => c.IntCell?
    case NatKind => c.NatCell?
    case TextKind => c.TextCell?
    case FlagKind => c.FlagCell?
    case EnumKind(size) => c.EnumCell? && c.ordinal < size
    case MaybeNat => c.MaybeNatCell?
    case MaybeText => c.MaybeTextCell?
    case MaybeEnum(size) => c.MaybeEnumCell? && (c.maybeOrdinal.Some? ==> c.maybeOrdinal.value < size)
  }

  predicate FitsAll(schema: seq<Kind>, row: Row) {
    |row| == |schema| && forall i :: 0 <= i < |row| ==> Fits(schema[i], row[i])
  }

  function FlagText(b: bool): string {
    if b then "1" else "0"
  }

  function ParseFlag(t: string): Option<bool> {
    if t == "0" then Some(false) else if t == "1" then Some(true) else None
  }

  /** The fields of a cell: one, or a flag and a value. */
  function CellFields(c: Cell): seq<string> {
    match c
    case IntCell(n) => [IntText(n)]
    case NatCell(n) => [NatText(n)]
    case TextCell(s) => [EscapeField(s)]
    case FlagCell(b) => [FlagText(b)]
    case EnumCell(n) => [NatText(n)]
    case MaybeNatCell(m) => [FlagText(m.Some?), if m.Some? then NatText(m.value) else "0"]
    case MaybeTextCell(m) => [FlagText(m.Some?), if m.Some? then EscapeField(m.value) else ""]
    case MaybeEnumCell(m) => [FlagText(m.Some?), if m.Some? then NatText(m.value) else "0"]
  }

  function Width(k: Kind): nat {
    if k.MaybeNat? || k.MaybeText? || k.MaybeEnum? then 2 else 1
  }

  function ParseEnum(t: string, size: nat): Option<nat> {
    var n := ParseInt(t);
    if n.None? || n.value < 0 || n.value >= size then None else Some(n.value)
  }

  function ParseCell(k: Kind, fields: seq<string>): Option<Cell>
    requires |fields| >= Width(k)
  {
    match k
    case IntKind => var n := ParseInt(fields[0]); if n.None? then None else Some(IntCell(n.value))
    case NatKind => var n := ParseNat(fields[0]); if n.None? then None else Some(NatCell(n.value))
    case TextKind => var s := UnescapeField(fields[0]); if s.None? then None else Some(TextCell(s.value))
    case FlagKind => var b := ParseFlag(fields[0]); if b.None? then None else Some(FlagCell(b.value))
    case EnumKind(size) => var n := ParseEnum(fields[0], size); if n.None? then None else Some(EnumCell(n.value))
    case MaybeNat =>
      var b := ParseFlag(fields[0]);
      if b.None? then None
      else if !b.value then Some(MaybeNatCell(None))
      else var n := ParseNat(fields[1]); if n.None? then None else Some(MaybeNatCell(n))
    case MaybeText =>
      var b := ParseFlag(fields[0]);
      if b.None? then None
      else if !b.value then Some(MaybeTextCell(None))
      else var s := UnescapeField(fields[1]); if s.None? then None else Some(MaybeTextCell(s))
    case MaybeEnum(size) =>
      var b := ParseFlag(fields[0]);
      if b.None? then None
      else if !b.value then Some(MaybeEnumCell(None))
      else var n := ParseEnum(fields[1], size); if n.None? then None else Some(MaybeEnumCell(n))
  }

  function RowFields(row: Row): seq<string> {
    if row == [] then [] else CellFields(row[0]) + RowFields(row[1..])
  }

  /** All the fields, and no more, as a row of the schema. */
  function ParseRow(schema: seq<Kind>, fields: seq<string>): Option<Row>
    decreases |schema|
  {
    if schema == [] then if fields == [] then Some([]) else None
    else if |fields| < Width(schema[0]) then None
    else
      var first := ParseCell(schema[0], fields);
      if first.None? then None
      else
        var more := ParseRow(schema[1..], fields[Width(schema[0])..]);
        if more.None? then None else Some([first.value] + more.value)
  }

  // ---------- Lines ----------

  function Joined(fields: seq<string>): string {
    if fields == [] then ""
    else if |fields| == 1 then fields[0]
    else fields[0] + "\t" + Joined(fields[1..])
  }

  function LineText(fields: seq<string>): string {
    Joined(fields) + "\n"
  }

  /** The text up to a byte, if it occurs, and after it. */
  function Until(t: string, c: char): (r: (string, Option<string>))
    ensures r.1.Some? ==> |r.1.value| < |t|
  {
    if t == "" then ("", None)
    else if t[0] == c then ("", Some(t[1..]))
    else var more := Until(t[1..], c); ([t[0]] + more.0, more.1)
  }

  function Split(line: string): seq<string>
    decreases |line|
  {
    var parts := Until(line, '\t');
    if parts.1.None? then [parts.0] else [parts.0] + Split(parts.1.value)
  }

  function WithoutReturn(line: string): string {
    if line != "" && line[|line| - 1] == '\r' then line[..|line| - 1] else line
  }

  /** The fields of the next line, and the text after it; None at the end of the text. */
  function NextLine(t: string): Option<(seq<string>, string)> {
    if t == "" then None
    else
      var parts := Until(t, '\n');
      Some((Split(WithoutReturn(parts.0)), if parts.1.None? then "" else parts.1.value))
  }

  // ---------- Sections ----------

  function RowLine(tag: string, row: Row): string {
    LineText([tag] + RowFields(row))
  }

  function TaggedRow(tag: string, schema: seq<Kind>, t: string): Option<(Row, string)> {
    var line := NextLine(t);
    if line.None? || line.value.0 == [] || line.value.0[0] != tag then None
    else
      var row := ParseRow(schema, line.value.0[1..]);
      if row.None? then None else Some((row.value, line.value.1))
  }

  function RowLines(tag: string, rows: seq<Row>): string {
    if rows == [] then "" else RowLine(tag, rows[0]) + RowLines(tag, rows[1..])
  }

  /** The key of an entry: its first cells. */
  function KeyOf(row: Row, width: nat): Row {
    if width <= |row| then row[..width] else row
  }

  predicate HasKey(rows: seq<Row>, width: nat, key: Row) {
    exists i :: 0 <= i < |rows| && KeyOf(rows[i], width) == key
  }

  /** Read n entries after those read so far; a repeated key is an error.  Width 0 means the entries have no key. */
  function ReadRows(tag: string, schema: seq<Kind>, width: nat, n: nat, t: string, rows: seq<Row>)
    : Option<(seq<Row>, string)>
    decreases n
  {
    if n == 0 then Some((rows, t))
    else
      var row := TaggedRow(tag, schema, t);
      if row.None? || (width > 0 && HasKey(rows, width, KeyOf(row.value.0, width))) then None
      else ReadRows(tag, schema, width, n - 1, row.value.1, rows + [row.value.0])
  }

  datatype Section = Section(tag: string, entry: string, schema: seq<Kind>, width: nat)

  function CountLine(tag: string, n: nat): string {
    LineText([tag, NatText(n)])
  }

  function SectionText(s: Section, rows: seq<Row>): string {
    CountLine(s.tag, |rows|) + RowLines(s.entry, rows)
  }

  /** The count of a section header with the given tag. */
  function CountOf(fields: seq<string>, tag: string): Option<nat> {
    if |fields| != 2 || fields[0] != tag then None else ParseNat(fields[1])
  }

  /** Read a section whose header has been read. */
  function ReadEntries(s: Section, header: seq<string>, t: string): Option<(seq<Row>, string)> {
    var n := CountOf(header, s.tag);
    if n.None? then None else ReadRows(s.entry, s.schema, s.width, n.value, t, [])
  }

  function ReadSection(s: Section, t: string): Option<(seq<Row>, string)> {
    var line := NextLine(t);
    if line.None? then None else ReadEntries(s, line.value.0, line.value.1)
  }

  // ---------- Price levels ----------

  datatype Level = Level(price: int, total: nat, orderIds: seq<nat>)

  function NatTexts(ns: seq<nat>): seq<string> {
    if ns == [] then [] else [NatText(ns[0])] + NatTexts(ns[1..])
  }

  function ParseNats(ts: seq<string>): Option<seq<nat>> {
    if ts == [] then Some([])
    else
      var first, more := ParseNat(ts[0]), ParseNats(ts[1..]);
      if first.None? || more.None? then None else Some([first.value] + more.value)
  }

  function LevelLine(tag: string, l: Level): string {
    LineText([tag, IntText(l.price), NatText(l.total), NatText(|l.orderIds|)] + NatTexts(l.orderIds))
  }

  function ParseLevel(tag: string, fields: seq<string>): Option<Level> {
    if |fields| < 4 || fields[0] != tag then None
    else
      var price, total, count := ParseInt(fields[1]), ParseNat(fields[2]), ParseNat(fields[3]);
      if price.None? || total.None? || count.None? || |fields| != 4 + count.value then None
      else
        var ids := ParseNats(fields[4..]);
        if ids.None? then None else Some(Level(price.value, total.value, ids.value))
  }

  function LevelLines(tag: string, levels: seq<Level>): string {
    if levels == [] then "" else LevelLine(tag, levels[0]) + LevelLines(tag, levels[1..])
  }

  function ReadLevels(tag: string, n: nat, t: string, levels: seq<Level>): Option<(seq<Level>, string)>
    decreases n
  {
    if n == 0 then Some((levels, t))
    else
      var line := NextLine(t);
      if line.None? then None
      else
        var level := ParseLevel(tag, line.value.0);
        if level.None? then None else ReadLevels(tag, n - 1, line.value.1, levels + [level.value])
  }

  function LevelsText(countTag: string, tag: string, levels: seq<Level>): string {
    CountLine(countTag, |levels|) + LevelLines(tag, levels)
  }

  function ReadLevelSection(countTag: string, tag: string, t: string): Option<(seq<Level>, string)> {
    var line := NextLine(t);
    if line.None? then None
    else
      var n := CountOf(line.value.0, countTag);
      if n.None? then None else ReadLevels(tag, n.value, line.value.1, [])
  }

  // ---------- The checkpoint ----------

  const SideKind := EnumKind(2)
  const CommandKinds := EnumKind(6)

  const SymbolSchema: seq<Kind> :=
    [NatKind, NatKind, NatKind, IntKind, NatKind, NatKind, NatKind, IntKind, IntKind, NatKind, NatKind, IntKind, NatKind,
     NatKind, IntKind, IntKind, FlagKind]

  const Orders := Section("active_orders", "order",
                          [NatKind, NatKind, NatKind, NatKind, SideKind, IntKind, NatKind, NatKind, NatKind], 0)
  const ClientOrders := Section("client_order_map", "client_order", [NatKind, NatKind], 1)
  const Commands := Section("idempotency_processed_commands", "processed_command",
                            [NatKind, FlagKind, MaybeNat, MaybeEnum(9), NatKind], 1)
  const UsedClientIds := Section("idempotency_client_orders", "idempotency_client_order", [NatKind, NatKind], 1)
  const UsedOrderIds := Section("idempotency_order_ids", "idempotency_order_id", [NatKind], 1)
  const PublicSequences := Section("public_sequences", "public_sequence", [IntKind, NatKind], 1)
  const MarkPrices := Section("mark_prices", "mark_price_state",
                              [IntKind, IntKind, IntKind, IntKind, IntKind, IntKind, IntKind, TextKind], 1)
  const FundingRates := Section("funding_rates", "funding_rate_state",
                                [IntKind, TextKind, IntKind, IntKind, IntKind, IntKind, IntKind], 1)
  const Settled := Section("settled_funding_intervals", "settled_funding_interval", [IntKind, TextKind], 2)
  const Positions := Section("positions", "position_state",
                             [IntKind, IntKind, IntKind, IntKind, IntKind, IntKind, TextKind, IntKind, IntKind, IntKind], 2)
  const Risks := Section("risk_states", "risk_state",
                         [IntKind, IntKind, IntKind, IntKind, TextKind, TextKind, IntKind, IntKind, IntKind, IntKind, IntKind,
                          IntKind, IntKind, IntKind, IntKind, IntKind], 2)
  const MetadataEntries := Section("metadata", "metadata_entry",
                                   [NatKind, IntKind, IntKind, SideKind, IntKind, IntKind, FlagKind, TextKind, IntKind,
                                    IntKind, IntKind, TextKind, TextKind, TextKind, MaybeText, IntKind, NatKind, NatKind], 1)
  const InputIds := Section("processed_input_ids", "processed_request",
                            [TextKind, CommandKinds, TextKind, IntKind, IntKind, MaybeText, TextKind], 1)
  const RequestKeys := InputIds.(tag := "processed_idempotency_keys")

  datatype Symbol = Symbol(config: Row, bids: seq<Level>, asks: seq<Level>, orders: seq<Row>, clientOrders: seq<Row>)

  datatype Checkpoint = Checkpoint(
    schemaVersion: nat,
    checkpointId: string,
    topic: string,
    partition: int,
    nextOffset: int,
    sequences: Row,
    symbols: seq<Symbol>,
    commands: seq<Row>,
    usedClientIds: seq<Row>,
    usedOrderIds: seq<Row>,
    publicSequences: seq<Row>,
    markPrices: seq<Row>,
    fundingRates: seq<Row>,
    settled: seq<Row>,
    positions: seq<Row>,
    risks: seq<Row>,
    metadata: seq<Row>,
    inputIds: seq<Row>,
    requestKeys: seq<Row>)

  const Magic := "cex.engine.checkpoint.file.v1"

  function FirstNat(row: Row): nat {
    if row != [] && row[0].NatCell? then row[0].n else 0
  }

  function InsertRow(rows: seq<Row>, row: Row): seq<Row> {
    if rows == [] || FirstNat(row) <= FirstNat(rows[0]) then [row] + rows else [rows[0]] + InsertRow(rows[1..], row)
  }

  /** Rows by ascending id. */
  function SortRows(rows: seq<Row>): seq<Row> {
    if rows == [] then [] else InsertRow(SortRows(rows[1..]), rows[0])
  }

  function InsertSymbol(symbols: seq<Symbol>, s: Symbol): seq<Symbol> {
    if symbols == [] || FirstNat(s.config) <= FirstNat(symbols[0].config) then [s] + symbols
    else [symbols[0]] + InsertSymbol(symbols[1..], s)
  }

  function SortSymbols(symbols: seq<Symbol>): seq<Symbol> {
    if symbols == [] then [] else InsertSymbol(SortSymbols(symbols[1..]), symbols[0])
  }

  function SymbolText(s: Symbol): string {
    RowLine("symbol", s.config) + LevelsText("bid_levels", "bid_level", s.bids) + LevelsText("ask_levels", "ask_level", s.asks)
    + SectionText(Orders, SortRows(s.orders)) + SectionText(ClientOrders, s.clientOrders)
  }

  function SymbolTexts(symbols: seq<Symbol>): string {
    if symbols == [] then "" else SymbolText(symbols[0]) + SymbolTexts(symbols[1..])
  }

  function ReadSymbol(t: string): Option<(Symbol, string)> {
    var config := TaggedRow("symbol", SymbolSchema, t);
    if config.None? then None
    else
      var bids := ReadLevelSection("bid_levels", "bid_level", config.value.1);
      if bids.None? then None
      else
        var asks := ReadLevelSection("ask_levels", "ask_level", bids.value.1);
        if asks.None? then None
        else
          var orders := ReadSection(Orders, asks.value.1);
          if orders.None? then None
          else
            var clients := ReadSection(ClientOrders, orders.value.1);
            if clients.None? then None
            else Some((Symbol(config.value.0, bids.value.0, asks.value.0, orders.value.0, clients.value.0), clients.value.1))
  }

  function ReadSymbols(n: nat, t: string, symbols: seq<Symbol>): Option<(seq<Symbol>, string)>
    decreases n
  {
    if n == 0 then Some((symbols, t))
    else
      var s := ReadSymbol(t);
      if s.None? then None else ReadSymbols(n - 1, s.value.1, symbols + [s.value.0])
  }

  /** The ids of the active orders of all symbols. */
  function ActiveIds(symbols: seq<Symbol>): set<nat> {
    if symbols == [] then {}
    else (set o | o in symbols[0].orders :: FirstNat(o)) + ActiveIds(symbols[1..])
  }

  /** The metadata that is written: that of active orders. */
  function ActiveMetadata(metadata: seq<Row>, ids: set<nat>): seq<Row> {
    if metadata == [] then []
    else (if FirstNat(metadata[0]) in ids then [metadata[0]] else []) + ActiveMetadata(metadata[1..], ids)
  }

  // ---------- Tables ----------

  const CoreTables: seq<Section> := [Commands, UsedClientIds, UsedOrderIds, PublicSequences]
  const LedgerTables: seq<Section> := [MarkPrices, FundingRates, Settled, Positions, Risks]
  const RequestTables: seq<Section> := [InputIds, RequestKeys]

  function TablesText(sections: seq<Section>, tables: seq<seq<Row>>): string
    requires |tables| == |sections|
  {
    if sections == [] then "" else SectionText(sections[0], tables[0]) + TablesText(sections[1..], tables[1..])
  }

  function ReadTables(sections: seq<Section>, t: string): (r: Option<(seq<seq<Row>>, string)>)
    ensures r.Some? ==> |r.value.0| == |sections|
    decreases |sections|
  {
    if sections == [] then Some(([], t))
    else
      var first := ReadSection(sections[0], t);
      if first.None? then None
      else
        var more := ReadTables(sections[1..], first.value.1);
        if more.None? then None else Some(([first.value.0] + more.value.0, more.value.1))
  }

  datatype Ahead = Ahead(tables: seq<seq<Row>>, header: seq<string>, rest: string)

  /** Read tables that may be missing; the header line read last is handed on. */
  function ReadOptional(sections: seq<Section>, header: seq<string>, t: string): (r: Option<Ahead>)
    ensures r.Some? ==> |r.value.tables| == |sections|
    decreases |sections|
  {
    if sections == [] then Some(Ahead([], header, t))
    else if header == [] || header[0] != sections[0].tag then
      var more := ReadOptional(sections[1..], header, t);
      if more.None? then None else Some(more.value.(tables := [[]] + more.value.tables))
    else
      var first := ReadEntries(sections[0], header, t);
      if first.None? then None
      else
        var line := NextLine(first.value.1);
        if line.None? then None
        else
          var more := ReadOptional(sections[1..], line.value.0, line.value.1);
          if more.None? then None else Some(more.value.(tables := [first.value.0] + more.value.tables))
  }

  // ---------- The whole text ----------

  const SequenceSchema: seq<Kind> := [NatKind, NatKind, NatKind]

  function HeaderRows(c: Checkpoint): seq<Row> {
    [[NatCell(c.schemaVersion)], [TextCell(c.checkpointId)],
     [TextCell(c.topic), IntCell(c.partition), IntCell(c.nextOffset)], c.sequences]
  }

  const HeaderTags: seq<string> := ["schema_version", "checkpoint_id", "source_position", "sequence_state"]
  const HeaderSchemas: seq<seq<Kind>> := [[NatKind], [TextKind], [TextKind, IntKind, IntKind], SequenceSchema]

  function HeaderLines(tags: seq<string>, rows: seq<Row>): string
    requires |tags| == |rows|
  {
    if tags == [] then "" else RowLine(tags[0], rows[0]) + HeaderLines(tags[1..], rows[1..])
  }

  function ReadHeader(tags: seq<string>, schemas: seq<seq<Kind>>, t: string): (r: Option<(seq<Row>, string)>)
    requires |tags| == |schemas|
    ensures r.Some? ==> |r.value.0| == |tags| && forall i :: 0 <= i < |tags| ==> FitsAll(schemas[i], r.value.0[i])
    decreases |tags|
  {
    if tags == [] then Some(([], t))
    else
      var first := TaggedRow(tags[0], schemas[0], t);
      if first.None? then None
      else
        var more := ReadHeader(tags[1..], schemas[1..], first.value.1);
        if more.None? then None
        else ParsedFits(schemas[0], NextLine(t).value.0[1..]); Some(([first.value.0] + more.value.0, more.value.1))
  }

  lemma {:induction false} ParsedFits(schema: seq<Kind>, fields: seq<string>)
    ensures ParseRow(schema, fields).Some? ==> FitsAll(schema, ParseRow(schema, fields).value)
    decreases |schema|
  {
    if schema != [] && |fields| >= Width(schema[0]) { ParsedFits(schema[1..], fields[Width(schema[0])..]); }
  }

  function CoreRows(c: Checkpoint): seq<seq<Row>> {
    [c.commands, c.usedClientIds, c.usedOrderIds, c.publicSequences]
  }

  function LedgerRows(c: Checkpoint): seq<seq<Row>> {
    [c.markPrices, c.fundingRates, c.settled, c.positions, c.risks]
  }

  function RequestRows(c: Checkpoint): seq<seq<Row>> {
    [c.inputIds, c.requestKeys]
  }

  function Serialize(c: Checkpoint): string {
    var symbols := SortSymbols(c.symbols);
    LineText([Magic])
    + (HeaderLines(HeaderTags, HeaderRows(c))
       + (CountLine("symbols", |symbols|)
          + (SymbolTexts(symbols)
             + (TablesText(CoreTables, CoreRows(c))
                + (TablesText(LedgerTables, LedgerRows(c))
                   + (SectionText(MetadataEntries, ActiveMetadata(c.metadata, ActiveIds(c.symbols)))
                      + (TablesText(RequestTables, RequestRows(c)) + LineText(["end"]))))))))
  }

  function FirstText(row: Row): string {
    if row != [] && row[0].TextCell? then row[0].text else ""
  }

  function IntAt(row: Row, i: nat): int {
    if i < |row| && row[i].IntCell? then row[i].i else 0
  }

  /** The tables after the symbols. */
  function ReadBody(t: string): Option<(seq<seq<Row>>, seq<seq<Row>>, seq<Row>, seq<seq<Row>>)> {
    var core := ReadTables(CoreTables, t);
    if core.None? then None
    else
      var line := NextLine(core.value.1);
      if line.None? then None
      else
        var ledger := ReadOptional(LedgerTables, line.value.0, line.value.1);
        if ledger.None? then None
        else
          var metadata := ReadEntries(MetadataEntries, ledger.value.header, ledger.value.rest);
          if metadata.None? then None
          else
            var requests := ReadTables(RequestTables, metadata.value.1);
            if requests.None? then None
            else
              var end := NextLine(requests.value.1);
              if end.None? || end.value.0 != ["end"] then None
              else Some((core.value.0, ledger.value.tables, metadata.value.0, requests.value.0))
  }

  function Deserialize(t: string): Option<Checkpoint> {
    var magic := NextLine(t);
    if magic.None? || magic.value.0 != [Magic] then None
    else
      var header := ReadHeader(HeaderTags, HeaderSchemas, magic.value.1);
      if header.None? then None
      else
        var line := NextLine(header.value.1);
        if line.None? || CountOf(line.value.0, "symbols").None? then None
        else
          var symbols := ReadSymbols(CountOf(line.value.0, "symbols").value, line.value.1, []);
          if symbols.None? then None
          else
            var body := ReadBody(symbols.value.1);
            if body.None? then None
            else
              var (core, ledger, metadata, requests), h := body.value, header.value.0;
              if |core| != 4 || |ledger| != 5 || |requests| != 2 then None
              else
                Some(Checkpoint(FirstNat(h[0]), FirstText(h[1]), FirstText(h[2]), IntAt(h[2], 1), IntAt(h[2], 2), h[3],
                                symbols.value.0, core[0], core[1], core[2], core[3], ledger[0], ledger[1], ledger[2], ledger[3],
                                ledger[4], metadata, requests[0], requests[1]))
  }
}
