/**
  The text format of output records: what the serializer writes and what the recursive-descent parser accepts, after
  sections 4, 6 and 7 of RFC 8259.  Texts are byte strings: each char stands for one byte.
 */
module JsonSpec {
  import opened Types

  /** Object fields in ascending key order, as an ordered map holds them. */
  datatype Json =
    | JNull
    | JBool(value: bool)
    | JNumber(text: string)
    | JString(text: string)
    | JArray(items: seq<Json>)
    | JObject(fields: seq<Member>)

  datatype Member = Member(key: string, value: Json)

  datatype Payload =
    | PNull
    | PBool(value: bool)
    | PNumber(text: string)
    | PString(text: string)
    | PArray(items: seq<Payload>)
    | PObject(fields: seq<Field>)

  datatype Field = Field(key: string, value: Payload)

  /** What parsing leaves: a value and the text after it; None is a parse error. */
  type Parsed<T> = Option<(T, string)>

  // ---------- Characters and keys ----------

  predicate IsDigit(c: char) {
    '0' <= c <= '9'
  }

  predicate IsSpace(c: char) {
    c == ' ' || c == '\t' || c == '\n' || c == '\r'
  }

  predicate Starts(t: string, c: char) {
    t != "" && t[0] == c
  }

  /** Byte-wise lexicographic order. */
  predicate Less(a: string, b: string) {
    b != "" && (a == "" || a[0] < b[0] || (a[0] == b[0] && Less(a[1..], b[1..])))
  }

  // ---------- Numbers ----------

  function DropDigits(t: string): (rest: string)
    ensures |rest| <= |t| && (rest != "" ==> !IsDigit(rest[0]))
  {
    if t != "" && IsDigit(t[0]) then DropDigits(t[1..]) else t
  }

  /** One or more digits. */
  function SomeDigits(t: string): Option<string> {
    if t != "" && IsDigit(t[0]) then Some(DropDigits(t)) else None
  }

  function Fraction(t: string): Option<string> {
    if Starts(t, '.') then SomeDigits(t[1..]) else Some(t)
  }

  predicate StartsExponent(t: string) {
    Starts(t, 'e') || Starts(t, 'E')
  }

  function Exponent(t: string): Option<string> {
    if StartsExponent(t) then
      SomeDigits(if Starts(t[1..], '+') || Starts(t[1..], '-') then t[2..] else t[1..])
    else Some(t)
  }

  function Tail(t: string): Option<string> {
    var fraction := Fraction(t);
    if fraction.None? then None else Exponent(fraction.value)
  }

  /** The parser's number: what follows it. */
  function NumberRest(t: string): Option<string> {
    var u := if Starts(t, '-') then t[1..] else t;
    if u == "" then None
    else if u[0] == '0' then if u[1..] != "" && IsDigit(u[1]) then None else Tail(u[1..])
    else if IsDigit(u[0]) then Tail(DropDigits(u))
    else None
  }

  function ParseNumber(t: string): Parsed<Json> {
    var rest := NumberRest(t);
    if rest.None? || |rest.value| > |t| then None else Some((JNumber(t[..|t| - |rest.value|]), rest.value))
  }

  /** The serializer's test for a number. */
  predicate IsJsonNumber(t: string) {
    var u := if Starts(t, '-') then t[1..] else t;
    && u != ""
    && (u[0] == '0' || IsDigit(u[0]))
    && Tail(if u[0] == '0' then u[1..] else DropDigits(u)) == Some("")
  }

  /** The serializer's test for an integer. */
  predicate IsJsonInteger(t: string) {
    var u := if Starts(t, '-') then t[1..] else t;
    && u != ""
    && !(u[0] == '0' && |u| > 1)
    && OnlyDigits(u)
  }

  predicate OnlyDigits(t: string) {
    forall i :: 0 <= i < |t| ==> IsDigit(t[i])
  }

  // ---------- Strings ----------

  function HexDigit(n: nat): char
    requires n < 16
  {
    if n < 10 then '0' + n as char else 'a' + (n - 10) as char
  }

  function HexValue(c: char): Option<nat> {
    if IsDigit(c) then Some((c - '0') as nat)
    else if 'a' <= c <= 'f' then Some(10 + (c - 'a') as nat)
    else if 'A' <= c <= 'F' then Some(10 + (c - 'A') as nat)
    else None
  }

  /** How the serializer writes one byte inside a string. */
  function EscapeChar(c: char): string {
    if c == '\"' then "\\\""
    else if c == '\\' then "\\\\"
    else if c == 8 as char then "\\b"
    else if c == 12 as char then "\\f"
    else if c == '\n' then "\\n"
    else if c == '\r' then "\\r"
    else if c == '\t' then "\\t"
    else if c < ' ' then "\\u00" + [HexDigit(c as nat / 16), HexDigit(c as nat % 16)]
    else [c]
  }

  function EscapeAll(s: string): string {
    if s == "" then "" else EscapeChar(s[0]) + EscapeAll(s[1..])
  }

  function Quote(s: string): string {
    "\"" + EscapeAll(s) + "\""
  }

  function Pow16(n: nat): nat {
    if n == 0 then 1 else 16 * Pow16(n - 1)
  }

  /** The next n hex digits, appended to a value read so far. */
  function HexDigits(t: string, n: nat, value: nat): Option<(nat, string)>
    decreases n
  {
    if n == 0 then Some((value, t))
    else if t == "" || HexValue(t[0]).None? then None
    else HexDigits(t[1..], n - 1, 16 * value + HexValue(t[0]).value)
  }

  lemma HexStep(value: nat, h: nat, p: nat)
    requires h < 16
    ensures (16 * value + h + 1) * p <= (value + 1) * (16 * p)
  {
    assert (value + 1) * (16 * p) == (16 * value + 16) * p;
  }

  lemma {:induction false} HexDigitsLaw(t: string, n: nat, value: nat)
    ensures var r := HexDigits(t, n, value);
            r.Some? ==> r.value.0 < (value + 1) * Pow16(n) && |r.value.1| + n == |t|
    decreases n
  {
    if n > 0 && t != "" && HexValue(t[0]).Some? {
      var h := HexValue(t[0]).value;
      HexDigitsLaw(t[1..], n - 1, 16 * value + h);
      HexStep(value, h, Pow16(n - 1));
    }
  }

  /** Four hex digits. */
  function HexUnit(t: string): (r: Option<(nat, string)>)
    ensures r.Some? ==> r.value.0 < 0x10000 && |r.value.1| < |t|
  {
    assert Pow16(4) == 0x10000;
    HexDigitsLaw(t, 4, 0);
    HexDigits(t, 4, 0)
  }

  /** The bytes of a code point in UTF-8. */
  function Utf8(n: nat): string
    requires n < 0x110000
  {
    if n <= 0x7F then [n as char]
    else if n <= 0x7FF then [(0xC0 + n / 64) as char, (0x80 + n % 64) as char]
    else if n <= 0xFFFF then [(0xE0 + n / 4096) as char, (0x80 + n / 64 % 64) as char, (0x80 + n % 64) as char]
    else [(0xF0 + n / 0x40000) as char, (0x80 + n / 4096 % 64) as char, (0x80 + n / 64 % 64) as char, (0x80 + n % 64) as char]
  }

  /** A code point escape, after its `u`: one unit, or a surrogate pair. */
  function Unicode(t: string): Parsed<string> {
    var first := HexUnit(t);
    if first.None? then None
    else
      var (n, rest) := first.value;
      if 0xD800 <= n <= 0xDBFF then
        if |rest| < 2 || rest[0] != '\\' || rest[1] != 'u' then None
        else
          var second := HexUnit(rest[2..]);
          if second.None? || !(0xDC00 <= second.value.0 <= 0xDFFF) then None
          else Some((Utf8(0x10000 + (n - 0xD800) * 1024 + (second.value.0 - 0xDC00)), second.value.1))
      else if 0xDC00 <= n <= 0xDFFF then None
      else Some((Utf8(n), rest))
  }

  /** An escape, after its backslash. */
  function Escape(t: string): (r: Parsed<string>)
    ensures r.Some? ==> |r.value.1| < |t|
  {
    if t == "" then None
    else if t[0] == '\"' || t[0] == '\\' || t[0] == '/' then Some(([t[0]], t[1..]))
    else if t[0] == 'b' then Some(([8 as char], t[1..]))
    else if t[0] == 'f' then Some(([12 as char], t[1..]))
    else if t[0] == 'n' then Some(("\n", t[1..]))
    else if t[0] == 'r' then Some(("\r", t[1..]))
    else if t[0] == 't' then Some(("\t", t[1..]))
    else if t[0] == 'u' then Unicode(t[1..])
    else None
  }

  /** The rest of a string, after its opening quote. */
  function Chars(t: string): (r: Parsed<string>)
    ensures r.Some? ==> |r.value.1| < |t|
  {
    if t == "" then None
    else if t[0] == '\"' then Some(("", t[1..]))
    else if t[0] == '\\' then
      var e := Escape(t[1..]);
      if e.None? then None
      else
        var more := Chars(e.value.1);
        if more.None? then None else Some((e.value.0 + more.value.0, more.value.1))
    else if t[0] < ' ' then None
    else
      var more := Chars(t[1..]);
      if more.None? then None else Some(([t[0]] + more.value.0, more.value.1))
  }

  // ---------- Values ----------

  function SkipSpace(t: string): (rest: string)
    ensures |rest| <= |t|
  {
    if t != "" && IsSpace(t[0]) then SkipSpace(t[1..]) else t
  }

  function Literal(t: string, word: string, value: Json): Parsed<Json> {
    if |word| <= |t| && t[..|word|] == word then Some((value, t[|word|..])) else None
  }

  /** Add a field in key order; None if the key is there already. */
  function InsertField(fields: seq<Member>, key: string, value: Json): Option<seq<Member>> {
    if fields == [] || Less(key, fields[0].key) then Some([Member(key, value)] + fields)
    else if fields[0].key == key then None
    else
      var rest := InsertField(fields[1..], key, value);
      if rest.None? then None else Some([fields[0]] + rest.value)
  }

  function Value(t: string): (r: Parsed<Json>)
    ensures r.Some? ==> |r.value.1| < |t|
    decreases |t|, 0
  {
    var u := SkipSpace(t);
    if u == "" then None
    else if u[0] == '{' then
      var v := SkipSpace(u[1..]);
      if Starts(v, '}') then Some((JObject([]), v[1..])) else Fields(v, [])
    else if u[0] == '[' then
      var v := SkipSpace(u[1..]);
      if Starts(v, ']') then Some((JArray([]), v[1..])) else Items(v, [])
    else if u[0] == '\"' then
      var s := Chars(u[1..]);
      if s.None? then None else Some((JString(s.value.0), s.value.1))
    else if u[0] == 't' then Literal(u, "true", JBool(true))
    else if u[0] == 'f' then Literal(u, "false", JBool(false))
    else if u[0] == 'n' then Literal(u, "null", JNull)
    else if u[0] == '-' || IsDigit(u[0]) then NumberShrinks(u); ParseNumber(u)
    else None
  }

  /** The items of an array, after those read so far. */
  function Items(t: string, items: seq<Json>): (r: Parsed<Json>)
    ensures r.Some? ==> |r.value.1| < |t|
    decreases |t|, 1
  {
    var v := Value(t);
    if v.None? then None
    else
      var u, items' := SkipSpace(v.value.1), items + [v.value.0];
      if Starts(u, ']') then Some((JArray(items'), u[1..]))
      else if Starts(u, ',') then Items(u[1..], items')
      else None
  }

  /** The fields of an object, after those read so far. */
  function Fields(t: string, fields: seq<Member>): (r: Parsed<Json>)
    ensures r.Some? ==> |r.value.1| < |t|
    decreases |t|, 1
  {
    var u := SkipSpace(t);
    if !Starts(u, '\"') then None
    else
      var key := Chars(u[1..]);
      if key.None? then None
      else
        var c := SkipSpace(key.value.1);
        if !Starts(c, ':') then None
        else
          var v := Value(c[1..]);
          if v.None? then None
          else
            var fields' := InsertField(fields, key.value.0, v.value.0);
            if fields'.None? then None
            else
              var e := SkipSpace(v.value.1);
              if Starts(e, '}') then Some((JObject(fields'.value), e[1..]))
              else if Starts(e, ',') then Fields(e[1..], fields'.value)
              else None
  }

  lemma TailShrinks(t: string)
    ensures Tail(t).Some? ==> |Tail(t).value| <= |t|
  {
  }

  lemma NumberShrinks(t: string)
    ensures ParseNumber(t).Some? ==> |ParseNumber(t).value.1| < |t|
  {
    var u := if Starts(t, '-') then t[1..] else t;
    if u != "" {
      TailShrinks(u[1..]);
      TailShrinks(DropDigits(u));
    }
  }

  /** A whole text: one value and nothing after it but space. */
  function ParseJson(t: string): Option<Json> {
    var v := Value(t);
    if v.None? || SkipSpace(v.value.1) != "" then None else Some(v.value.0)
  }

  // ---------- Writing ----------

  function IntegerFields(): seq<string> {
    ["account_id", "amount", "base_asset_id", "credit_amount", "debit_amount", "engine_sequence", "engine_timestamp_ms",
     "fill_id", "index_price", "interval_end_ms", "interval_start_ms", "leverage", "maker_order_id", "maker_user_id",
     "market_id", "order_id", "position_id", "price", "quantity", "quote_asset_id", "released_amount", "released_quantity",
     "source_input_offset", "source_sequence", "source_timestamp_ms", "taker_order_id", "taker_user_id", "trade_id",
     "user_id", "wallet_id", "entry_price", "exit_price", "mark_price", "published_at_ms", "rate", "rate_scale",
     "valid_until_ms"]
  }

  function WriteText(field: string, text: string): string {
    if field in IntegerFields() && IsJsonInteger(text) then text else Quote(text)
  }

  function WriteValue(field: string, v: Payload): string
    decreases v
  {
    match v
    case PNull => "null"
    case PBool(b) => if b then "true" else "false"
    case PNumber(text) => if IsJsonNumber(text) then text else Quote(text)
    case PString(text) => WriteText(field, text)
    case PArray(items) => "[" + WriteItems(items) + "]"
    case PObject(fields) => "{" + WriteFields(fields) + "}"
  }

  function WriteItems(items: seq<Payload>): string
    decreases items
  {
    if items == [] then ""
    else if |items| == 1 then WriteValue("", items[0])
    else WriteValue("", items[0]) + "," + WriteItems(items[1..])
  }

  function WriteField(f: Field): string
    decreases f
  {
    Quote(f.key) + ":" + WriteValue(f.key, f.value)
  }

  function WriteFields(fields: seq<Field>): string
    decreases fields
  {
    if fields == [] then ""
    else if |fields| == 1 then WriteField(fields[0])
    else WriteField(fields[0]) + "," + WriteFields(fields[1..])
  }

  /** An output record: its type and its payload fields, in no particular order. */
  datatype OutputRecord = OutputRecord(kind: string, payload: seq<Field>)

  function InsertSorted(fields: seq<Field>, f: Field): seq<Field> {
    if fields == [] || Less(f.key, fields[0].key) then [f] + fields else [fields[0]] + InsertSorted(fields[1..], f)
  }

  function SortFields(fields: seq<Field>): seq<Field> {
    if fields == [] then [] else InsertSorted(SortFields(fields[1..]), fields[0])
  }

  function Serialize(r: OutputRecord): string {
    "{\"type\":" + Quote(r.kind) + ",\"payload\":{" + WriteFields(SortFields(r.payload)) + "}}"
  }

  // ---------- What is meant ----------

  /** What a payload value becomes: integer-named texts that are integers, and number texts that are numbers, are numbers. */
  function Normalize(field: string, v: Payload): Json
    decreases v
  {
    match v
    case PNull => JNull
    case PBool(b) => JBool(b)
    case PNumber(text) => if IsJsonNumber(text) then JNumber(text) else JString(text)
    case PString(text) => if field in IntegerFields() && IsJsonInteger(text) then JNumber(text) else JString(text)
    case PArray(items) => JArray(NormalizeItems(items))
    case PObject(fields) => JObject(NormalizeFields(fields))
  }

  function NormalizeItems(items: seq<Payload>): seq<Json>
    decreases items
  {
    if items == [] then [] else [Normalize("", items[0])] + NormalizeItems(items[1..])
  }

  function NormalizeFields(fields: seq<Field>): seq<Member>
    decreases fields
  {
    if fields == [] then [] else [Member(fields[0].key, Normalize(fields[0].key, fields[0].value))] + NormalizeFields(fields[1..])
  }
}
