/**
  The runtime's state as a checkpoint's tables, and back.  What is written, read and restored is the checkpointed state that
  the laws of restarts speak about.
 */
module StateCodec {
  import opened Types
  import opened BookSpec
  import opened Queues
  import BookLaws
  import opened CoreSpec
  import opened CoreLaws
  import opened CoreRuns
  import R = RestoreLaws
  import opened Accounting
  import opened LedgerSpec
  import LedgerLaws
  import opened RuntimeSpec
  import opened StoreLaws
  import opened RestartLaws
  import opened CheckpointSpec
  import L = CheckpointLaws

  // ---------- Cells ----------

  function NatIn(row: Row, i: nat): nat {
    if i >= |row| then 0
    else
      match row[i]
      case NatCell(n) => n
      case EnumCell(n) => n
      case IntCell(n) => if n < 0 then 0 else n
      case _ => 0
  }

  function TextIn(row: Row, i: nat): string {
    if i < |row| && row[i].TextCell? then row[i].text else ""
  }

  predicate FlagIn(row: Row, i: nat) {
    i < |row| && row[i].FlagCell? && row[i].flag
  }

  function SideOrdinal(s: Side): nat {
    if s == Buy then 0 else 1
  }

  function SideFrom(n: nat): Side {
    if n == 0 then Buy else Sell
  }

  /** The ordinals of the source's enumeration; 6 is a reason that no code path gives. */
  function ReasonOrdinal(r: RejectReason): nat {
    match r
    case InvalidSymbol => 0
    case InvalidPrice => 1
    case InvalidQuantity => 2
    case DuplicateCommand => 3
    case DuplicateOrder => 4
    case OrderNotFound => 5
    case MarketClosed => 7
    case InsufficientBalanceLiquidity => 8
  }

  function ReasonFrom(n: nat): RejectReason {
    match n
    case 0 => InvalidSymbol
    case 1 => InvalidPrice
    case 2 => InvalidQuantity
    case 3 => DuplicateCommand
    case 4 => DuplicateOrder
    case 5 => OrderNotFound
    case 7 => MarketClosed
    case _ => InsufficientBalanceLiquidity
  }

  function StatusText(s: RiskStatus): string {
    match s
    case Flat => "FLAT"
    case Healthy => "HEALTHY"
    case Liquidatable => "LIQUIDATABLE"
  }

  function StatusFrom(t: string): RiskStatus {
    if t == "FLAT" then Flat else if t == "LIQUIDATABLE" then Liquidatable else Healthy
  }

  // ---------- Rows ----------

  function ConfigRow(c: SymbolConfig): Row {
    [NatCell(c.symbolId), NatCell(0), NatCell(0), IntCell(c.tickSize), NatCell(c.lotSize), NatCell(c.minQuantity),
     NatCell(c.maxQuantity), IntCell(c.minPrice), IntCell(c.maxPrice), NatCell(c.ringCapacityTicks), NatCell(0),
     IntCell(c.initialBaseTick), NatCell(0), NatCell(0), IntCell(0), IntCell(0), FlagCell(c.tradingEnabled)]
  }

  function ConfigFrom(row: Row): SymbolConfig {
    SymbolConfig(NatIn(row, 0), IntAt(row, 3), NatIn(row, 4), NatIn(row, 5), NatIn(row, 6), IntAt(row, 7), IntAt(row, 8),
                 NatIn(row, 9), IntAt(row, 11), FlagIn(row, 16))
  }

  function OrderRow(o: OrderSnapshot): Row {
    [NatCell(o.orderId), NatCell(o.clientOrderId), NatCell(o.userId), NatCell(o.symbolId), EnumCell(SideOrdinal(o.side)),
     IntCell(o.price), NatCell(o.original), NatCell(o.remaining), NatCell(o.sequenceAccepted)]
  }

  function OrderFrom(row: Row): OrderSnapshot {
    OrderSnapshot(NatIn(row, 0), NatIn(row, 1), NatIn(row, 2), NatIn(row, 3), SideFrom(NatIn(row, 4)), IntAt(row, 5),
                  NatIn(row, 6), NatIn(row, 7), NatIn(row, 8))
  }

  function CommandRow(id: nat, s: CommandSummary): Row {
    [NatCell(id), FlagCell(s.accepted), MaybeNatCell(s.orderId),
     MaybeEnumCell(if s.rejectReason.Some? then Some(ReasonOrdinal(s.rejectReason.value)) else None), NatCell(s.sequence)]
  }

  function CommandFrom(row: Row): CommandSummary {
    var reason := if 3 < |row| && row[3].MaybeEnumCell? then row[3].maybeOrdinal else None;
    CommandSummary(NatIn(row, 0), FlagIn(row, 1), if 2 < |row| && row[2].MaybeNatCell? then row[2].maybeNat else None,
                   if reason.Some? then Some(ReasonFrom(reason.value)) else None, NatIn(row, 4))
  }

  function PairRow(a: nat, b: nat): Row {
    [NatCell(a), NatCell(b)]
  }

  function IdRow(id: nat, listed: bool): Row {
    [NatCell(id)]
  }

  function MarkRow(market: nat, mark: int): Row {
    [IntCell(market), IntCell(mark), IntCell(0), IntCell(0), IntCell(0), IntCell(0), IntCell(0), TextCell("")]
  }

  function RateRow(market: nat, r: FundingRate): Row {
    [IntCell(market), TextCell(r.interval), IntCell(r.rate), IntCell(r.scale), IntCell(0), IntCell(0), IntCell(0)]
  }

  function RateFrom(row: Row): FundingRate {
    FundingRate(TextIn(row, 1), IntAt(row, 2), IntAt(row, 3))
  }

  function SettledRow(k: (nat, string), listed: bool): Row {
    [IntCell(k.0), TextCell(k.1)]
  }

  function PositionRow(k: Key, p: Position): Row {
    [IntCell(k.userId), IntCell(k.marketId), IntCell(k.userId), IntCell(k.marketId), IntCell(p.signed), IntCell(p.average),
     TextCell(""), IntCell(p.margin), IntCell(p.leverage), IntCell(0)]
  }

  function PositionFrom(row: Row): Position {
    Position(IntAt(row, 4), IntAt(row, 5), IntAt(row, 7), IntAt(row, 8))
  }

  function RiskRow(k: Key, r: Risk): Row {
    [IntCell(k.userId), IntCell(k.marketId), IntCell(k.userId), IntCell(k.marketId), TextCell(StatusText(r.status)), TextCell(""),
     IntCell(r.signed), IntCell(r.average), IntCell(r.mark), IntCell(r.margin), IntCell(r.unrealized), IntCell(r.equity),
     IntCell(r.maintenance), IntCell(r.ratio), IntCell(r.leverage), IntCell(0)]
  }

  function RiskFrom(row: Row): Risk {
    Risk(StatusFrom(TextIn(row, 4)), IntAt(row, 6), IntAt(row, 7), IntAt(row, 8), IntAt(row, 9), IntAt(row, 10), IntAt(row, 11),
         IntAt(row, 12), IntAt(row, 13), IntAt(row, 14))
  }

  function MetadataRow(id: nat, m: Metadata): Row {
    [NatCell(id), IntCell(m.marketId), IntCell(m.userId), EnumCell(SideOrdinal(m.side)), IntCell(m.original),
     IntCell(m.remaining), FlagCell(m.reduceOnly), TextCell(""), IntCell(m.reserved), IntCell(m.remainingReserved),
     IntCell(m.leverage), TextCell(""), TextCell(""), TextCell(""), MaybeTextCell(None), IntCell(0), NatCell(0), NatCell(0)]
  }

  function MetadataFrom(row: Row): Metadata {
    Metadata(FirstNat(row), NatIn(row, 1), NatIn(row, 2), SideFrom(NatIn(row, 3)), IntAt(row, 4), IntAt(row, 5), FlagIn(row, 6),
             IntAt(row, 8), IntAt(row, 9), IntAt(row, 10))
  }

  function RequestRow(key: string, offset: int): Row {
    [TextCell(key), EnumCell(0), TextCell(""), IntCell(0), IntCell(offset), MaybeTextCell(None), TextCell("")]
  }

  function IdFrom(row: Row): nat {
    NatIn(row, 0)
  }

  function OtherIdFrom(row: Row): nat {
    NatIn(row, 1)
  }

  function MarkFrom(row: Row): int {
    IntAt(row, 1)
  }

  function IntervalFrom(row: Row): (nat, string) {
    (NatIn(row, 0), TextIn(row, 1))
  }

  function RequestFrom(row: Row): string {
    TextIn(row, 0)
  }

  function OffsetFrom(row: Row): int {
    IntAt(row, 4)
  }

  predicate Present(row: Row) {
    true
  }

  function KeyFrom(row: Row): Key {
    Key(NatIn(row, 0), NatIn(row, 1))
  }

  // ---------- Tables ----------

  /** The map that rows list. */
  function Entries<K(==), V>(rows: seq<Row>, key: Row -> K, value: Row -> V): map<K, V> {
    if rows == [] then map[] else Entries(rows[1..], key, value)[key(rows[0]) := value(rows[0])]
  }

  lemma AnyKey<K, V>(m: map<K, V>)
    requires m != map[]
    ensures exists k :: k in m
  {
    if forall k :: k !in m { assert false; }
  }

  ghost function AnyOf<K(!new), V>(m: map<K, V>): (k: K)
    requires m != map[]
    ensures k in m
  {
    AnyKey(m);
    var k :| k in m;
    k
  }

  /** A map's entries as rows, in some order. */
  ghost function Listed<K(!new), V>(m: map<K, V>, row: (K, V) -> Row): seq<Row> {
    if m == map[] then [] else var k := AnyOf(m); [row(k, m[k])] + Listed(m - {k}, row)
  }

  /** The row fits the section and gives back its entry; its key cells give back the key. */
  ghost predicate RowFor<K, V>(s: Section, r: Row, k: K, v: V, key: Row -> K, value: Row -> V) {
    FitsAll(s.schema, r) && key(r) == k && value(r) == v && key(KeyOf(r, s.width)) == k
  }

  ghost predicate Reversible<K(!new), V(!new)>(s: Section, m: map<K, V>, row: (K, V) -> Row, key: Row -> K, value: Row -> V) {
    forall k <- m :: RowFor(s, row(k, m[k]), k, m[k], key, value)
  }

  lemma ReversibleLess<K(!new), V(!new)>(s: Section, m: map<K, V>, k: K, row: (K, V) -> Row, key: Row -> K, value: Row -> V)
    requires Reversible(s, m, row, key, value)
    ensures Reversible(s, m - {k}, row, key, value)
  {
    hide RowFor;
  }

  lemma {:induction false} ListedRows<K(!new), V(!new)>(s: Section, m: map<K, V>, row: (K, V) -> Row, key: Row -> K,
                                                       value: Row -> V)
    requires Reversible(s, m, row, key, value)
    ensures forall r <- Listed(m, row) :: FitsAll(s.schema, r) && key(KeyOf(r, s.width)) in m
  {
    hide FitsAll, KeyOf;
    if m != map[] {
      var k := AnyOf(m);
      ReversibleLess(s, m, k, row, key, value);
      ListedRows(s, m - {k}, row, key, value);
      assert RowFor(s, row(k, m[k]), k, m[k], key, value);
    }
  }

  lemma ListsCons<K>(s: Section, r: Row, rest: seq<Row>, key: Row -> K)
    requires L.Lists(s, rest) && FitsAll(s.schema, r)
    requires forall x <- rest :: key(KeyOf(x, s.width)) != key(KeyOf(r, s.width))
    ensures L.Lists(s, [r] + rest)
  {
    hide FitsAll, KeyOf;
    var rows := [r] + rest;
    forall i, j | s.width > 0 && 0 <= i < j < |rows| ensures KeyOf(rows[i], s.width) != KeyOf(rows[j], s.width) {
      assert rows[j] == rest[j - 1] && rest[j - 1] in rest;
      if i > 0 { assert rows[i] == rest[i - 1]; }
    }
  }

  /** Rows that list a map fit their section, keys distinct, and give the map back. */
  lemma {:induction false} ListedLaw<K(!new), V(!new)>(s: Section, m: map<K, V>, row: (K, V) -> Row, key: Row -> K,
                                                      value: Row -> V)
    requires Reversible(s, m, row, key, value)
    ensures L.Lists(s, Listed(m, row)) && Entries(Listed(m, row), key, value) == m
  {
    hide FitsAll, KeyOf, Reversible, L.Lists;
    if m == map[] {
      NothingListed(s);
    } else {
      var k := AnyOf(m);
      var r, rest := row(k, m[k]), Listed(m - {k}, row);
      ReversibleLess(s, m, k, row, key, value);
      ListedLaw(s, m - {k}, row, key, value);
      ListedRows(s, m - {k}, row, key, value);
      ReversibleAt(s, m, k, row, key, value);
      ListsCons(s, r, rest, key);
      assert ([r] + rest)[1..] == rest;
      assert (m - {k})[k := m[k]] == m;
    }
  }

  lemma NothingListed(s: Section)
    ensures L.Lists(s, [])
  {
  }

  lemma ReversibleAt<K(!new), V(!new)>(s: Section, m: map<K, V>, k: K, row: (K, V) -> Row, key: Row -> K, value: Row -> V)
    requires Reversible(s, m, row, key, value) && k in m
    ensures RowFor(s, row(k, m[k]), k, m[k], key, value)
  {
    hide RowFor;
  }

  // ---------- From a checkpoint to a state ----------

  function OrdersFrom(rows: seq<Row>): Queue {
    if rows == [] then [] else [OrderFrom(rows[0])] + OrdersFrom(rows[1..])
  }

  function BookFrom(s: Symbol): BookSnapshot {
    BookSnapshot(ConfigFrom(s.config), OrdersFrom(s.orders),
                 Entries(s.clientOrders, IdFrom, OtherIdFrom))
  }

  function BooksFrom(symbols: seq<Symbol>): map<nat, BookSnapshot> {
    if symbols == [] then map[] else BooksFrom(symbols[1..])[FirstNat(symbols[0].config) := BookFrom(symbols[0])]
  }

  function IndexFrom(c: Checkpoint): Idempotency {
    Idempotency(Entries(c.commands, IdFrom, CommandFrom),
                Entries(c.usedClientIds, IdFrom, OtherIdFrom),
                Entries(c.usedOrderIds, IdFrom, Present).Keys)
  }

  function SequencesFrom(row: Row): SequenceState {
    SequenceState(NatIn(row, 0), NatIn(row, 1), NatIn(row, 2))
  }

  function StoreFrom(metadata: seq<Row>): map<nat, Metadata> {
    Entries(metadata, FirstNat, MetadataFrom)
  }

  /** Restoring a checkpoint that was read. */
  function StateFrom(c: Checkpoint): State {
    State(Restore(CoreSnapshot(BooksFrom(c.symbols), SequencesFrom(c.sequences), IndexFrom(c))),
          StoreFrom(c.metadata),
          Entries(c.positions, KeyFrom, PositionFrom),
          Entries(c.risks, KeyFrom, RiskFrom),
          Entries(c.markPrices, IdFrom, MarkFrom),
          Entries(c.fundingRates, IdFrom, RateFrom),
          Entries(c.settled, IntervalFrom, Present).Keys,
          Entries(c.inputIds, RequestFrom, OffsetFrom),
          Entries(c.requestKeys, RequestFrom, OffsetFrom))
  }

  /** The symbol lists exactly the orders of the book, each once. */
  ghost predicate HoldsBook(s: Symbol, book: Book) {
    && ConfigFrom(s.config) == book.config
    && UniqueIds(OrdersFrom(s.orders)) && UniqueIds(book.bids + book.asks)
    && forall o :: o in OrdersFrom(s.orders) <==> o in book.bids + book.asks
  }

  ghost predicate HoldsBooks(symbols: seq<Symbol>, books: map<nat, Book>) {
    && (forall s <- symbols :: FirstNat(s.config) in books && HoldsBook(s, books[FirstNat(s.config)]))
    && (forall m <- books :: exists s <- symbols :: FirstNat(s.config) == m)
  }

  /**
    The checkpoint is a snapshot of the state: its tables list the state's maps, in any order and with any values in the
    columns that the model does not have, and its symbols hold the orders of the books.
   */
  ghost predicate Represents(c: Checkpoint, st: State) {
    && L.Consistent(c) && HoldsBooks(c.symbols, st.core.books)
    && StateFrom(c) == st.(core := Core(StateFrom(c).core.books, st.core.sequences, st.core.idempotency))
  }

  // ---------- What is read back ----------

  lemma {:induction false} InsertDecoded(rows: seq<Row>, row: Row)
    requires (forall r <- rows :: FirstNat(r) == NatIn(r, 0)) && FirstNat(row) == NatIn(row, 0)
    ensures OrdersFrom(InsertRow(rows, row)) == InsertById(OrdersFrom(rows), OrderFrom(row))
  {
    if rows != [] && FirstNat(row) > FirstNat(rows[0]) {
      assert rows[0] in rows;
      InsertDecoded(rows[1..], row);
      var all := [rows[0]] + InsertRow(rows[1..], row);
      assert all[1..] == InsertRow(rows[1..], row);
      assert OrdersFrom(rows)[1..] == OrdersFrom(rows[1..]);
    } else {
      assert ([row] + rows)[1..] == rows;
      if rows != [] { assert rows[0] in rows; }
    }
  }

  lemma {:induction false} SortDecoded(rows: seq<Row>)
    requires forall r <- rows :: FirstNat(r) == NatIn(r, 0)
    ensures OrdersFrom(SortRows(rows)) == SortById(OrdersFrom(rows))
  {
    if rows != [] {
      assert rows[0] in rows;
      SortDecoded(rows[1..]);
      forall r <- SortRows(rows[1..]) ensures FirstNat(r) == NatIn(r, 0) { L.SortRowsMember(rows[1..], r); }
      InsertDecoded(SortRows(rows[1..]), rows[0]);
      assert OrdersFrom(rows)[1..] == OrdersFrom(rows[1..]);
    }
  }

  lemma OrdersNumbered(s: Symbol)
    requires L.GoodSymbol(s)
    ensures forall r <- s.orders :: FirstNat(r) == NatIn(r, 0)
  {
    forall r <- s.orders ensures FirstNat(r) == NatIn(r, 0) { assert FitsAll(Orders.schema, r) && Fits(Orders.schema[0], r[0]); }
  }

  /** A symbol that holds a book is read back as the book's snapshot. */
  lemma SymbolRestored(s: Symbol, book: Book)
    requires L.GoodSymbol(s) && HoldsBook(s, book)
    ensures RestoreBook(BookFrom(L.InIdOrder(s))) == RestoreBook(SnapshotBook(book))
  {
    hide RestAll, OrdersFrom, SortRows, SortById;
    OrdersNumbered(s);
    SortDecoded(s.orders);
    R.SortedById(OrdersFrom(s.orders));
    R.SortedById(book.bids + book.asks);
    R.OneListing(SortById(OrdersFrom(s.orders)), SortById(book.bids + book.asks));
  }

  lemma {:induction false} BooksFromSome(symbols: seq<Symbol>, id: nat)
    ensures id in BooksFrom(symbols) <==> exists s <- symbols :: FirstNat(s.config) == id
    ensures id in BooksFrom(symbols) ==> exists s <- symbols :: FirstNat(s.config) == id && BooksFrom(symbols)[id] == BookFrom(s)
  {
    hide BookFrom;
    if symbols != [] {
      BooksFromSome(symbols[1..], id);
      assert symbols == [symbols[0]] + symbols[1..];
      if FirstNat(symbols[0].config) == id { assert symbols[0] in symbols; }
    }
  }

  lemma {:induction false} InIdOrderMember(symbols: seq<Symbol>, t: Symbol)
    ensures t in L.AllInIdOrder(symbols) <==> exists s <- symbols :: t == L.InIdOrder(s)
  {
    hide L.InIdOrder;
    if symbols != [] {
      InIdOrderMember(symbols[1..], t);
      assert symbols == [symbols[0]] + symbols[1..];
    }
  }

  lemma CanonicalMember(symbols: seq<Symbol>, t: Symbol)
    ensures t in L.AllInIdOrder(SortSymbols(symbols)) <==> exists s <- symbols :: t == L.InIdOrder(s)
  {
    hide L.InIdOrder, SortSymbols;
    InIdOrderMember(SortSymbols(symbols), t);
    forall s ensures s in SortSymbols(symbols) <==> s in symbols { L.SortSymbolsMember(symbols, s); }
  }

  lemma CanonicalBooks(symbols: seq<Symbol>, books: map<nat, Book>)
    requires HoldsBooks(symbols, books) && forall s <- symbols :: L.GoodSymbol(s)
    ensures var read := BooksFrom(L.AllInIdOrder(SortSymbols(symbols)));
            read.Keys == books.Keys && forall m <- books :: RestoreBook(read[m]) == RestoreBook(SnapshotBook(books[m]))
  {
    hide L.GoodSymbol, HoldsBook, RestoreBook, SnapshotBook, BookFrom, L.AllInIdOrder, SortSymbols, SortRows;
    var sorted := L.AllInIdOrder(SortSymbols(symbols));
    var read := BooksFrom(sorted);
    forall t ensures t in sorted <==> exists s <- symbols :: t == L.InIdOrder(s) { CanonicalMember(symbols, t); }
    forall m ensures m in read <==> m in books {
      BooksFromSome(sorted, m);
      if m in books {
        var s :| s in symbols && FirstNat(s.config) == m;
        assert L.InIdOrder(s) in sorted;
      }
    }
    forall m <- books ensures RestoreBook(read[m]) == RestoreBook(SnapshotBook(books[m])) {
      BooksFromSome(sorted, m);
      var t :| t in sorted && FirstNat(t.config) == m && read[m] == BookFrom(t);
      var s :| s in symbols && t == L.InIdOrder(s);
      SymbolRestored(s, books[m]);
    }
  }

  // ---------- The metadata that is kept ----------

  lemma {:induction false} ActiveEntries(rows: seq<Row>, ids: set<nat>)
    ensures StoreFrom(ActiveMetadata(rows, ids)) == map id | id in StoreFrom(rows) && id in ids :: StoreFrom(rows)[id]
  {
    hide MetadataFrom;
    if rows != [] {
      ActiveEntries(rows[1..], ids);
      var rest, k, md := ActiveMetadata(rows[1..], ids), FirstNat(rows[0]), MetadataFrom(rows[0]);
      assert StoreFrom(rows) == StoreFrom(rows[1..])[k := md];
      assert ([rows[0]] + rest)[1..] == rest;
      assert k in ids ==> StoreFrom(ActiveMetadata(rows, ids)) == StoreFrom(rest)[k := md];
      assert k !in ids ==> ActiveMetadata(rows, ids) == rest;
      var all := map id | id in StoreFrom(rows) && id in ids :: StoreFrom(rows)[id];
      assert StoreFrom(ActiveMetadata(rows, ids)).Keys == all.Keys;
    }
  }

  lemma {:induction false} OrdersFromMember(rows: seq<Row>, o: OrderSnapshot)
    ensures o in OrdersFrom(rows) <==> exists r <- rows :: OrderFrom(r) == o
  {
    hide OrderFrom;
    if rows != [] {
      OrdersFromMember(rows[1..], o);
      assert rows == [rows[0]] + rows[1..];
    }
  }

  lemma {:induction false} ActiveIdsMember(symbols: seq<Symbol>, id: nat)
    ensures id in ActiveIds(symbols) <==> exists s <- symbols :: exists r <- s.orders :: FirstNat(r) == id
  {
    if symbols != [] {
      ActiveIdsMember(symbols[1..], id);
      assert symbols == [symbols[0]] + symbols[1..];
    }
  }

  /** The symbol lists an order id exactly if an order with it rests in the book. */
  lemma SymbolIds(s: Symbol, book: Book, id: nat)
    requires L.GoodSymbol(s) && HoldsBook(s, book)
    ensures (exists r <- s.orders :: FirstNat(r) == id) <==> HasId(book.bids, id) || HasId(book.asks, id)
  {
    hide L.GoodSymbol, OrdersFrom, UniqueIds;
    OrdersNumbered(s);
    if r :| r in s.orders && FirstNat(r) == id {
      OrdersFromMember(s.orders, OrderFrom(r));
      if OrderFrom(r) in book.bids { MemberHasId(book.bids, OrderFrom(r)); } else { MemberHasId(book.asks, OrderFrom(r)); }
    }
    if HasId(book.bids, id) || HasId(book.asks, id) {
      var q := if HasId(book.bids, id) then book.bids else book.asks;
      var i :| 0 <= i < |q| && q[i].orderId == id;
      assert q[i] in book.bids + book.asks;
      OrdersFromMember(s.orders, q[i]);
    }
  }

  lemma ActiveIsResting(symbols: seq<Symbol>, books: map<nat, Book>, id: nat)
    requires HoldsBooks(symbols, books) && forall s <- symbols :: L.GoodSymbol(s)
    ensures id in ActiveIds(symbols) <==> Rests(books, id)
  {
    hide L.GoodSymbol, HoldsBook, HasId;
    ActiveIdsMember(symbols, id);
    forall s <- symbols
      ensures (exists r <- s.orders :: FirstNat(r) == id)
              <==> HasId(books[FirstNat(s.config)].bids, id) || HasId(books[FirstNat(s.config)].asks, id)
    {
      SymbolIds(s, books[FirstNat(s.config)], id);
    }
    if Rests(books, id) {
      var m :| m in books && (HasId(books[m].bids, id) || HasId(books[m].asks, id));
      var s :| s in symbols && FirstNat(s.config) == m;
    }
  }

  // ---------- The round trip ----------

  lemma CanonicalCore(c: Checkpoint, st: State)
    requires Represents(c, st)
    ensures StateFrom(L.Canonical(c)).core == Restore(Snapshot(st.core))
  {
    hide L.GoodSymbol, RestoreBook, SnapshotBook, BooksFrom, L.AllInIdOrder, SortSymbols, ActiveMetadata, ActiveIds, HoldsBooks, IndexFrom,
      SequencesFrom, Entries;
    CanonicalBooks(c.symbols, st.core.books);
    assert StateFrom(c).core.sequences == SequencesFrom(c.sequences) && StateFrom(c).core.idempotency == IndexFrom(c);
    assert IndexFrom(L.Canonical(c)) == IndexFrom(c) by { SameIndexTables(c); }
    var read := StateFrom(L.Canonical(c)).core;
    assert read.books == Restore(Snapshot(st.core)).books;
  }

  lemma SameIndexTables(c: Checkpoint)
    ensures IndexFrom(L.Canonical(c)) == IndexFrom(c)
  {
    hide L.AllInIdOrder, SortSymbols, ActiveMetadata, ActiveIds, Entries;
  }

  lemma CanonicalStore(c: Checkpoint, st: State)
    requires Represents(c, st)
    ensures StateFrom(L.Canonical(c)).metadata == Checkpointed(st).metadata
  {
    hide L.GoodSymbol, BooksFrom, L.AllInIdOrder, SortSymbols, ActiveMetadata, ActiveIds, HoldsBooks, Restore, Snapshot, Rests, Entries,
      IndexFrom;
    ActiveEntries(c.metadata, ActiveIds(c.symbols));
    assert StateFrom(c).metadata == st.metadata;
    forall id ensures id in ActiveIds(c.symbols) <==> Rests(st.core.books, id) { ActiveIsResting(c.symbols, st.core.books, id); }
  }

  /**
    Whatever snapshot of a state is written: reading the text and restoring what was read gives the checkpointed state, with
    every queue rebuilt in id order and the metadata of resting orders only.
   */
  lemma SavedAndRestored(st: State, c: Checkpoint)
    requires Represents(c, st)
    ensures Deserialize(Serialize(c)).Some? && StateFrom(Deserialize(Serialize(c)).value) == Checkpointed(st)
  {
    hide L.Consistent, Deserialize, Serialize, BooksFrom, L.AllInIdOrder, SortSymbols, ActiveMetadata, ActiveIds, HoldsBooks, Restore, Snapshot,
      Rests, Entries, IndexFrom;
    L.CheckpointRoundTrip(c);
    CanonicalCore(c, st);
    CanonicalStore(c, st);
    var read := StateFrom(L.Canonical(c));
    assert read == StateFrom(c).(core := read.core, metadata := read.metadata);
  }

  // ---------- From a state to a checkpoint ----------

  ghost function Members<K>(s: set<K>): map<K, bool> {
    map k | k in s :: true
  }

  function OrderRows(q: Queue): seq<Row> {
    if q == [] then [] else [OrderRow(q[0])] + OrderRows(q[1..])
  }

  ghost function SymbolOf(book: Book): Symbol {
    Symbol(ConfigRow(book.config), [], [], OrderRows(book.bids + book.asks), Listed(ClientIds(book.bids + book.asks), PairRow))
  }

  ghost function SymbolsOf(books: map<nat, Book>): seq<Symbol> {
    if books == map[] then [] else var m := AnyOf(books); [SymbolOf(books[m])] + SymbolsOf(books - {m})
  }

  /** A snapshot of the state under a name and a source position, with the columns that the model does not have left blank. */
  ghost function Encode(st: State, id: string, topic: string, partition: int, next: int): Checkpoint {
    var s, i := st.core.sequences, st.core.idempotency;
    Checkpoint(1, id, topic, partition, next,
               [NatCell(s.nextSequence), NatCell(s.nextTradeId), NatCell(s.nextEventId)],
               SymbolsOf(st.core.books),
               Listed(i.commands, CommandRow), Listed(i.clientOrders, PairRow), Listed(Members(i.orderIds), IdRow), [],
               Listed(st.marks, MarkRow), Listed(st.rates, RateRow), Listed(Members(st.settled), SettledRow),
               Listed(st.positions, PositionRow), Listed(st.risks, RiskRow), Listed(st.metadata, MetadataRow),
               Listed(st.inputIds, RequestRow), Listed(st.requestKeys, RequestRow))
  }

  lemma {:induction false} OrderRowsLaw(q: Queue)
    ensures OrdersFrom(OrderRows(q)) == q && forall r <- OrderRows(q) :: FitsAll(Orders.schema, r)
  {
    if q != [] {
      OrderRowsLaw(q[1..]);
      OrderRowLaw(q[0]);
      assert q == [q[0]] + q[1..];
    }
  }

  lemma OrderRowLaw(o: OrderSnapshot)
    ensures OrderFrom(OrderRow(o)) == o && FitsAll(Orders.schema, OrderRow(o))
  {
  }

  lemma PairsReversible(s: Section, m: map<nat, nat>)
    requires s.schema == [NatKind, NatKind] && s.width == 1
    ensures Reversible(s, m, PairRow, IdFrom, OtherIdFrom)
  {
  }

  lemma ConfigLaw(c: SymbolConfig)
    ensures ConfigFrom(ConfigRow(c)) == c && FitsAll(SymbolSchema, ConfigRow(c)) && FirstNat(ConfigRow(c)) == c.symbolId
  {
  }

  lemma SymbolLaw(book: Book)
    requires UniqueIds(book.bids + book.asks)
    ensures L.GoodSymbol(SymbolOf(book)) && HoldsBook(SymbolOf(book), book) && FirstNat(SymbolOf(book).config) == book.config.symbolId
  {
    hide FitsAll, ConfigRow, ConfigFrom, OrderRows, OrdersFrom, UniqueIds, FirstNat, ClientIds;
    ConfigLaw(book.config);
    OrderRowsLaw(book.bids + book.asks);
    PairsReversible(ClientOrders, ClientIds(book.bids + book.asks));
    ListedLaw(ClientOrders, ClientIds(book.bids + book.asks), PairRow, IdFrom, OtherIdFrom);
  }

  lemma {:induction false} SymbolsMember(books: map<nat, Book>, s: Symbol)
    ensures s in SymbolsOf(books) <==> exists m <- books :: s == SymbolOf(books[m])
  {
    hide SymbolOf;
    if books != map[] {
      var m := AnyOf(books);
      SymbolsMember(books - {m}, s);
      if s in SymbolsOf(books - {m}) {
        var k :| k in books - {m} && s == SymbolOf((books - {m})[k]);
        assert s == SymbolOf(books[k]);
      }
      if k :| k in books && s == SymbolOf(books[k]) {
        if k != m { assert s == SymbolOf((books - {m})[k]); }
      }
    }
  }

  lemma SymbolsHold(core: Core)
    requires CoreInv(core)
    ensures HoldsBooks(SymbolsOf(core.books), core.books) && forall s <- SymbolsOf(core.books) :: L.GoodSymbol(s)
  {
    hide SymbolOf, HoldsBook, L.GoodSymbol, CoreInv, BookLaws.BookInv, UniqueIds;
    CoreBooks(core);
    forall m <- core.books
      ensures L.GoodSymbol(SymbolOf(core.books[m])) && HoldsBook(SymbolOf(core.books[m]), core.books[m])
              && FirstNat(SymbolOf(core.books[m]).config) == m
    {
      AllUnique(core.books[m]);
      SymbolLaw(core.books[m]);
    }
    forall s ensures s in SymbolsOf(core.books) <==> exists m <- core.books :: s == SymbolOf(core.books[m]) {
      SymbolsMember(core.books, s);
    }
    forall m <- core.books ensures exists s <- SymbolsOf(core.books) :: FirstNat(s.config) == m {
      assert SymbolOf(core.books[m]) in SymbolsOf(core.books);
    }
  }

  lemma AllUnique(book: Book)
    requires BookLaws.BookInv(book)
    ensures UniqueIds(book.bids + book.asks)
  {
    hide Sorted, SaneQuantities, ValidSymbolPrice;
    R.BothUnique(book.bids, book.asks);
  }

  // ---------- The tables of a state ----------

  /** Every summary is kept under its own command's id. */
  ghost predicate SummariesNamed(core: Core) {
    forall id <- core.idempotency.commands :: core.idempotency.commands[id].commandId == id
  }

  lemma CommandsListed(m: map<nat, CommandSummary>)
    requires forall id <- m :: m[id].commandId == id
    ensures L.Lists(Commands, Listed(m, CommandRow)) && Entries(Listed(m, CommandRow), IdFrom, CommandFrom) == m
  {
    hide L.Lists, Listed, Entries;
    assert Reversible(Commands, m, CommandRow, IdFrom, CommandFrom) by {
      forall id <- m ensures RowFor(Commands, CommandRow(id, m[id]), id, m[id], IdFrom, CommandFrom) { }
    }
    ListedLaw(Commands, m, CommandRow, IdFrom, CommandFrom);
  }

  lemma PairsListed(s: Section, m: map<nat, nat>)
    requires s.schema == [NatKind, NatKind] && s.width == 1
    ensures L.Lists(s, Listed(m, PairRow)) && Entries(Listed(m, PairRow), IdFrom, OtherIdFrom) == m
  {
    hide L.Lists, Listed, Entries, Reversible;
    PairsReversible(s, m);
    ListedLaw(s, m, PairRow, IdFrom, OtherIdFrom);
  }

  lemma IdsListed(ids: set<nat>)
    ensures var m := Members(ids);
            && L.Lists(UsedOrderIds, Listed(m, IdRow))
            && Entries(Listed(m, IdRow), IdFrom, Present).Keys == ids
  {
    hide L.Lists, Listed, Entries;
    var m := Members(ids);
    assert Reversible(UsedOrderIds, m, IdRow, IdFrom, Present);
    ListedLaw(UsedOrderIds, m, IdRow, IdFrom, Present);
  }

  lemma MarksListed(m: map<nat, int>)
    ensures L.Lists(MarkPrices, Listed(m, MarkRow))
            && Entries(Listed(m, MarkRow), IdFrom, MarkFrom) == m
  {
    hide L.Lists, Listed, Entries;
    assert Reversible(MarkPrices, m, MarkRow, IdFrom, MarkFrom);
    ListedLaw(MarkPrices, m, MarkRow, IdFrom, MarkFrom);
  }

  lemma RatesListed(m: map<nat, FundingRate>)
    ensures L.Lists(FundingRates, Listed(m, RateRow)) && Entries(Listed(m, RateRow), IdFrom, RateFrom) == m
  {
    hide L.Lists, Listed, Entries;
    assert Reversible(FundingRates, m, RateRow, IdFrom, RateFrom);
    ListedLaw(FundingRates, m, RateRow, IdFrom, RateFrom);
  }

  lemma SettledListed(keys: set<(nat, string)>)
    ensures var m := Members(keys);
            && L.Lists(CheckpointSpec.Settled, Listed(m, SettledRow))
            && Entries(Listed(m, SettledRow), IntervalFrom, Present).Keys == keys
  {
    hide L.Lists, Listed, Entries;
    var m := Members(keys);
    assert Reversible(CheckpointSpec.Settled, m, SettledRow, IntervalFrom, Present);
    ListedLaw(CheckpointSpec.Settled, m, SettledRow, IntervalFrom, Present);
  }

  lemma PositionsListed(m: map<Key, Position>)
    ensures L.Lists(Positions, Listed(m, PositionRow)) && Entries(Listed(m, PositionRow), KeyFrom, PositionFrom) == m
  {
    hide L.Lists, Listed, Entries;
    assert Reversible(Positions, m, PositionRow, KeyFrom, PositionFrom);
    ListedLaw(Positions, m, PositionRow, KeyFrom, PositionFrom);
  }

  lemma RisksListed(m: map<Key, Risk>)
    ensures L.Lists(Risks, Listed(m, RiskRow)) && Entries(Listed(m, RiskRow), KeyFrom, RiskFrom) == m
  {
    hide L.Lists, Listed, Entries;
    forall k <- m ensures RowFor(Risks, RiskRow(k, m[k]), k, m[k], KeyFrom, RiskFrom) { RiskRowLaw(k, m[k]); }
    ListedLaw(Risks, m, RiskRow, KeyFrom, RiskFrom);
  }

  lemma RiskRowLaw(k: Key, r: Risk)
    ensures RowFor(Risks, RiskRow(k, r), k, r, KeyFrom, RiskFrom)
  {
  }

  lemma MetadataListed(m: map<nat, Metadata>)
    requires forall id <- m :: m[id].orderId == id
    ensures L.Lists(MetadataEntries, Listed(m, MetadataRow)) && StoreFrom(Listed(m, MetadataRow)) == m
  {
    hide L.Lists, Listed, Entries;
    forall id <- m ensures RowFor(MetadataEntries, MetadataRow(id, m[id]), id, m[id], FirstNat, MetadataFrom) {
      MetadataRowLaw(id, m[id]);
    }
    ListedLaw(MetadataEntries, m, MetadataRow, FirstNat, MetadataFrom);
  }

  lemma MetadataRowLaw(id: nat, md: Metadata)
    requires md.orderId == id
    ensures RowFor(MetadataEntries, MetadataRow(id, md), id, md, FirstNat, MetadataFrom)
  {
  }

  lemma RequestsListed(s: Section, m: map<string, int>)
    requires s.schema == InputIds.schema && s.width == 1
    ensures L.Lists(s, Listed(m, RequestRow))
            && Entries(Listed(m, RequestRow), RequestFrom, OffsetFrom) == m
  {
    hide L.Lists, Listed, Entries;
    assert Reversible(s, m, RequestRow, RequestFrom, OffsetFrom);
    ListedLaw(s, m, RequestRow, RequestFrom, OffsetFrom);
  }

  /** Every state of a running runtime has a snapshot, whatever it is called and wherever it was taken. */
  lemma Encodable(st: State, id: string, topic: string, partition: int, next: int)
    requires RuntimeInv(st) && SummariesNamed(st.core)
    ensures Represents(Encode(st, id, topic, partition, next), st)
  {
    hide L.Lists, Listed, Entries, SymbolsOf, HoldsBooks, L.GoodSymbol, RuntimeInv, CoreInv, RestoreBook, BooksFrom;
    var c := Encode(st, id, topic, partition, next);
    StoreNumbered(st);
    SymbolsHold(st.core);
    CommandsListed(st.core.idempotency.commands);
    PairsListed(UsedClientIds, st.core.idempotency.clientOrders);
    IdsListed(st.core.idempotency.orderIds);
    NothingListed(PublicSequences);
    MarksListed(st.marks);
    RatesListed(st.rates);
    SettledListed(st.settled);
    PositionsListed(st.positions);
    RisksListed(st.risks);
    MetadataListed(st.metadata);
    RequestsListed(InputIds, st.inputIds);
    RequestsListed(RequestKeys, st.requestKeys);
    assert L.Consistent(c);
    assert IndexFrom(c) == st.core.idempotency;
    assert SequencesFrom(c.sequences) == st.core.sequences;
    assert StateFrom(c) == st.(core := StateFrom(c).core);
  }

  lemma StoreNumbered(st: State)
    requires RuntimeInv(st)
    ensures CoreInv(st.core) && forall id <- st.metadata :: st.metadata[id].orderId == id
  {
    hide CoreInv, LedgerLaws.RisksOk, LedgerLaws.ZeroSum, Covered;
  }
}
