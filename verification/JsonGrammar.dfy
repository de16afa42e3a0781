/**
  The grammar of sections 2 to 8 of RFC 8259 as syntax trees, with no reference to a parser: a tree has a text and a meaning.
  The parser accepts exactly the texts of trees, and gives their meaning.
 */
module JsonGrammar {
  import opened JsonSpec

  // ---------- Characters of a string ----------

  /** A character as it stands in a string: itself, a short escape, a code unit, or a surrogate pair. */
  datatype Piece = Plain(c: char) | Short(c: char) | Point(hex: string) | Pair(high: string, low: string)

  predicate IsHex(c: char) {
    '0' <= c <= '9' || 'a' <= c <= 'f' || 'A' <= c <= 'F'
  }

  function HexOf(c: char): nat
    requires IsHex(c)
  {
    if c <= '9' then c as nat - '0' as nat else if c <= 'F' then c as nat - 'A' as nat + 10 else c as nat - 'a' as nat + 10
  }

  predicate FourHex(h: string) {
    |h| == 4 && IsHex(h[0]) && IsHex(h[1]) && IsHex(h[2]) && IsHex(h[3])
  }

  function UnitOf(h: string): nat
    requires FourHex(h)
  {
    4096 * HexOf(h[0]) + 256 * HexOf(h[1]) + 16 * HexOf(h[2]) + HexOf(h[3])
  }

  predicate PieceOk(p: Piece) {
    match p
    case Plain(c) => c != '\"' && c != '\\' && c as nat >= 0x20
    case Short(c) => c == '\"' || c == '\\' || c == '/' || c == 'b' || c == 'f' || c == 'n' || c == 'r' || c == 't'
    case Point(h) => FourHex(h) && !(0xD800 <= UnitOf(h) <= 0xDFFF)
    case Pair(h, l) => FourHex(h) && FourHex(l) && 0xD800 <= UnitOf(h) <= 0xDBFF && 0xDC00 <= UnitOf(l) <= 0xDFFF
  }

  function PieceText(p: Piece): string {
    match p
    case Plain(c) => [c]
    case Short(c) => ['\\', c]
    case Point(h) => "\\u" + h
    case Pair(h, l) => "\\u" + h + ("\\u" + l)
  }

  /** The code point that an escape stands for. */
  function CodeOf(p: Piece): nat
    requires PieceOk(p) && (p.Point? || p.Pair?)
  {
    match p
    case Point(h) => UnitOf(h)
    case Pair(h, l) => 0x10000 + 0x400 * (UnitOf(h) - 0xD800) + (UnitOf(l) - 0xDC00)
  }

  function Bytes(p: Piece): string
    requires PieceOk(p)
  {
    match p
    case Plain(c) => [c]
    case Short(c) =>
      if c == 'b' then [8 as char] else if c == 'f' then [12 as char] else if c == 'n' then [10 as char]
      else if c == 'r' then [13 as char] else if c == 't' then [9 as char] else [c]
    case _ => Utf8(CodeOf(p))
  }

  // ---------- UTF-8 ----------

  predicate Trailing(b: char) {
    0x80 <= b as nat <= 0xBF
  }

  /** The bytes decode to the code point: RFC 3629, section 3, shortest form. */
  predicate Decodes(b: string, n: nat) {
    || (|b| == 1 && n == b[0] as nat <= 0x7F)
    || (|b| == 2 && 0xC0 <= b[0] as nat <= 0xDF && Trailing(b[1])
        && n == 0x40 * (b[0] as nat - 0xC0) + (b[1] as nat - 0x80) && n >= 0x80)
    || (|b| == 3 && 0xE0 <= b[0] as nat <= 0xEF && Trailing(b[1]) && Trailing(b[2])
        && n == 0x1000 * (b[0] as nat - 0xE0) + 0x40 * (b[1] as nat - 0x80) + (b[2] as nat - 0x80) && n >= 0x800)
    || (|b| == 4 && 0xF0 <= b[0] as nat <= 0xF7 && Trailing(b[1]) && Trailing(b[2]) && Trailing(b[3])
        && n == 0x40000 * (b[0] as nat - 0xF0) + 0x1000 * (b[1] as nat - 0x80) + 0x40 * (b[2] as nat - 0x80) + (b[3] as nat - 0x80)
        && n >= 0x10000)
  }

  lemma Sextets(n: nat)
    ensures n == n / 64 * 64 + n % 64
    ensures n / 64 == n / 4096 * 64 + n / 64 % 64
    ensures n / 4096 == n / 0x40000 * 64 + n / 4096 % 64
  {
    assert n / 64 / 64 == n / 4096;
    assert n / 4096 / 64 == n / 0x40000;
  }

  /** Every code point is written in bytes that decode to it. */
  lemma Utf8Decodes(n: nat)
    requires n < 0x110000
    ensures Decodes(Utf8(n), n)
  {
    Sextets(n);
  }

  /** So an escape, surrogate pairs included, stands for the bytes of its code point. */
  lemma EscapesDecode(p: Piece)
    requires PieceOk(p) && (p.Point? || p.Pair?)
    ensures CodeOf(p) < 0x110000 && Decodes(Bytes(p), CodeOf(p))
  {
    CodeBound(p);
    Utf8Decodes(CodeOf(p));
  }

  lemma CodeBound(p: Piece)
    requires PieceOk(p) && (p.Point? || p.Pair?)
    ensures CodeOf(p) < 0x110000
  {
  }

  // ---------- Trees ----------

  datatype Slot = Slot(before: string, tree: Tree, after: string)

  datatype Entry = Entry(before: string, key: seq<Piece>, gap: string, slot: Slot)

  /** `gap` is the space inside an empty array or object; `sorted` lists an object's members by key. */
  datatype Tree =
    | Null | True | False
    | Number(minus: string, whole: string, fraction: string, exponent: string)
    | Text(pieces: seq<Piece>)
    | Array(gap: string, slots: seq<Slot>)
    | Object(gap: string, entries: seq<Entry>, sorted: seq<Member>)

  predicate Spaces(w: string) {
    forall c <- w :: c == ' ' || c == '\t' || c == '\n' || c == '\r'
  }

  predicate Digits(d: string) {
    d != "" && forall c <- d :: '0' <= c <= '9'
  }

  predicate WholeOk(w: string) {
    w == "0" || (Digits(w) && w[0] != '0')
  }

  predicate FractionOk(f: string) {
    f == "" || (f[0] == '.' && Digits(f[1..]))
  }

  predicate ExponentOk(e: string) {
    e == "" || ((e[0] == 'e' || e[0] == 'E') && (Digits(e[1..]) || (|e| > 1 && (e[1] == '+' || e[1] == '-') && Digits(e[2..]))))
  }

  function PiecesText(ps: seq<Piece>): string {
    if ps == [] then "" else PieceText(ps[0]) + PiecesText(ps[1..])
  }

  predicate PiecesOk(ps: seq<Piece>) {
    forall p <- ps :: PieceOk(p)
  }

  function PiecesBytes(ps: seq<Piece>): string
    requires PiecesOk(ps)
  {
    if ps == [] then "" else Bytes(ps[0]) + PiecesBytes(ps[1..])
  }

  function TreeText(t: Tree): string {
    match t
    case Null => "null"
    case True => "true"
    case False => "false"
    case Number(minus, whole, fraction, exponent) => minus + (whole + (fraction + exponent))
    case Text(ps) => "\"" + PiecesText(ps) + "\""
    case Array(gap, slots) => "[" + (if slots == [] then gap else SlotsText(slots)) + "]"
    case Object(gap, entries, _) => "{" + (if entries == [] then gap else EntriesText(entries)) + "}"
  }

  function SlotText(s: Slot): string {
    s.before + (TreeText(s.tree) + s.after)
  }

  function SlotsText(slots: seq<Slot>): string {
    if slots == [] then "" else if |slots| == 1 then SlotText(slots[0]) else SlotText(slots[0]) + ("," + SlotsText(slots[1..]))
  }

  function EntryText(e: Entry): string {
    e.before + ("\"" + (PiecesText(e.key) + ("\"" + (e.gap + (":" + SlotText(e.slot))))))
  }

  function EntriesText(entries: seq<Entry>): string {
    if entries == [] then "" else if |entries| == 1 then EntryText(entries[0])
    else EntryText(entries[0]) + ("," + EntriesText(entries[1..]))
  }

  /** Members by strictly ascending key. */
  ghost predicate Ascends(fields: seq<Member>) {
    forall i, j :: 0 <= i < j < |fields| ==> Less(fields[i].key, fields[j].key)
  }

  /** The same members in ascending order, and no key twice. */
  ghost predicate Sorts(fields: seq<Member>, read: seq<Member>) {
    && Ascends(fields)
    && (forall m :: m in fields <==> m in read)
    && (forall i, j :: 0 <= i < j < |read| ==> read[i].key != read[j].key)
  }

  predicate TreeOk(t: Tree)
  {
    match t
    case Null => true
    case True => true
    case False => true
    case Number(minus, whole, fraction, exponent) =>
      (minus == "" || minus == "-") && WholeOk(whole) && FractionOk(fraction) && ExponentOk(exponent)
    case Text(ps) => PiecesOk(ps)
    case Array(gap, slots) => Spaces(gap) && SlotsOk(slots)
    case Object(gap, entries, _) => Spaces(gap) && EntriesOk(entries)
  }

  predicate SlotsOk(slots: seq<Slot>) {
    slots == []
    || (Spaces(slots[0].before) && TreeOk(slots[0].tree) && Spaces(slots[0].after) && SlotsOk(slots[1..]))
  }

  predicate EntriesOk(entries: seq<Entry>) {
    entries == []
    || (&& Spaces(entries[0].before) && PiecesOk(entries[0].key) && Spaces(entries[0].gap)
        && Spaces(entries[0].slot.before) && TreeOk(entries[0].slot.tree) && Spaces(entries[0].slot.after)
        && EntriesOk(entries[1..]))
  }

  function ValueOf(t: Tree): Json
    requires TreeOk(t)
  {
    match t
    case Null => JNull
    case True => JBool(true)
    case False => JBool(false)
    case Number(_, _, _, _) => JNumber(TreeText(t))
    case Text(ps) => JString(PiecesBytes(ps))
    case Array(_, slots) => JArray(ValuesOf(slots))
    case Object(_, _, sorted) => JObject(sorted)
  }

  function ValuesOf(slots: seq<Slot>): seq<Json>
    requires SlotsOk(slots)
  {
    if slots == [] then [] else [ValueOf(slots[0].tree)] + ValuesOf(slots[1..])
  }

  /** The members of an object as written. */
  function Pairs(entries: seq<Entry>): seq<Member>
    requires EntriesOk(entries)
  {
    if entries == [] then []
    else [Member(PiecesBytes(entries[0].key), ValueOf(entries[0].slot.tree))] + Pairs(entries[1..])
  }

  /** Every object lists its members by key, and has no key twice. */
  ghost predicate TreeSorted(t: Tree)
    requires TreeOk(t)
  {
    match t
    case Array(_, slots) => SlotsSorted(slots)
    case Object(_, entries, sorted) => EntriesSorted(entries) && Sorts(sorted, Pairs(entries))
    case _ => true
  }

  ghost predicate SlotsSorted(slots: seq<Slot>)
    requires SlotsOk(slots)
  {
    slots == [] || (TreeSorted(slots[0].tree) && SlotsSorted(slots[1..]))
  }

  ghost predicate EntriesSorted(entries: seq<Entry>)
    requires EntriesOk(entries)
  {
    entries == [] || (TreeSorted(entries[0].slot.tree) && EntriesSorted(entries[1..]))
  }

  /** A tree of the grammar that means the value. */
  ghost predicate Means(t: Tree, v: Json) {
    TreeOk(t) && TreeSorted(t) && ValueOf(t) == v
  }
}
