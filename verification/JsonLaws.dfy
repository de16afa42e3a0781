/** Whatever the serializer writes, the parser reads back. */
module JsonLaws {
  import opened Types
  import opened JsonSpec

  // ---------- Strings ----------

  lemma HexRoundTrip(n: nat)
    requires n < 16
    ensures HexValue(HexDigit(n)) == Some(n)
  {
  }

  lemma ControlEscape(c: char, t: string)
    requires c < ' '
    ensures Unicode("00" + [HexDigit(c as nat / 16), HexDigit(c as nat % 16)] + t) == Some(([c], t))
  {
    var a, b := c as nat / 16, c as nat % 16;
    HexRoundTrip(a);
    HexRoundTrip(b);
    var u := "00" + [HexDigit(a), HexDigit(b)] + t;
    assert u[1..] == "0" + [HexDigit(a), HexDigit(b)] + t;
    assert u[1..][1..] == [HexDigit(a), HexDigit(b)] + t;
    assert u[1..][1..][1..] == [HexDigit(b)] + t;
    assert u[1..][1..][1..][1..] == t;
    assert HexDigits(u, 4, 0) == HexDigits(u[1..], 3, 0);
    assert HexDigits(u[1..], 3, 0) == HexDigits(u[1..][1..], 2, 0);
    assert HexDigits(u[1..][1..], 2, 0) == HexDigits(u[1..][1..][1..], 1, a);
    assert HexDigits(u[1..][1..][1..], 1, a) == HexDigits(t, 0, 16 * a + b);
  }

  lemma ControlText(h: string, t: string)
    ensures var e := ("\\u00" + h)[1..] + t;
            e != "" && e[0] == 'u' && e[1..] == "00" + h + t
  {
    var e := ("\\u00" + h)[1..] + t;
    assert ("\\u00" + h)[1..] == "u00" + h;
    assert e == "u" + ("00" + h + t);
  }

  lemma EscapeStep(c: char, t: string)
    requires EscapeChar(c) != [c]
    ensures EscapeChar(c) == ['\\'] + EscapeChar(c)[1..]
    ensures Escape(EscapeChar(c)[1..] + t) == Some(([c], t))
  {
    hide Unicode;
    var e := EscapeChar(c)[1..] + t;
    if |EscapeChar(c)| == 2 {
      assert e[1..] == t;
    } else {
      ControlEscape(c, t);
      ControlText([HexDigit(c as nat / 16), HexDigit(c as nat % 16)], t);
    }
  }

  /** One written byte is read back, before any text that itself reads as the rest of a string. */
  lemma CharRoundTrip(c: char, t: string)
    requires Chars(t).Some?
    ensures Chars(EscapeChar(c) + t) == Some(([c] + Chars(t).value.0, Chars(t).value.1))
  {
    hide Escape;
    var u := EscapeChar(c) + t;
    if EscapeChar(c) == [c] {
      assert u[1..] == t;
    } else {
      EscapeStep(c, t);
      assert u[1..] == EscapeChar(c)[1..] + t;
    }
  }

  lemma EscapeCons(s: string, rest: string)
    requires s != ""
    ensures EscapeAll(s) + "\"" + rest == EscapeChar(s[0]) + (EscapeAll(s[1..]) + "\"" + rest)
    ensures [s[0]] + s[1..] == s
  {
    hide EscapeChar;
    Regroup(EscapeChar(s[0]), EscapeAll(s[1..]), "\"", rest);
  }

  lemma Regroup(a: string, b: string, c: string, d: string)
    ensures (a + b) + c + d == a + (b + c + d)
  {
  }

  lemma ClosingQuote(rest: string)
    ensures Chars(EscapeAll("") + "\"" + rest) == Some(("", rest))
  {
    assert EscapeAll("") + "\"" + rest == "\"" + rest;
    assert ("\"" + rest)[1..] == rest;
  }

  /** Any byte string survives quoting. */
  lemma {:induction false} StringRoundTrip(s: string, rest: string)
    ensures Chars(EscapeAll(s) + "\"" + rest) == Some((s, rest))
  {
    hide EscapeChar, Chars, EscapeAll;
    if s == "" {
      ClosingQuote(rest);
    } else {
      StringRoundTrip(s[1..], rest);
      CharRoundTrip(s[0], EscapeAll(s[1..]) + "\"" + rest);
      EscapeCons(s, rest);
    }
  }

  lemma QuoteRoundTrip(s: string, rest: string)
    ensures Quote(s) + rest != "" && (Quote(s) + rest)[0] == '\"'
    ensures Chars((Quote(s) + rest)[1..]) == Some((s, rest))
    ensures Value(Quote(s) + rest) == Some((JString(s), rest))
  {
    hide Chars;
    StringRoundTrip(s, rest);
    assert (Quote(s) + rest)[1..] == EscapeAll(s) + "\"" + rest;
  }

  // ---------- Numbers ----------

  /** A text that ends a value: nothing, or a separator or closing bracket. */
  predicate Ends(rest: string) {
    rest == "" || rest[0] == ',' || rest[0] == '}' || rest[0] == ']'
  }

  lemma {:induction false} DropDigitsBefore(t: string, rest: string)
    requires Ends(rest)
    ensures DropDigits(t + rest) == DropDigits(t) + rest
  {
    if t == "" {
      assert t + rest == rest;
    } else if IsDigit(t[0]) {
      assert (t + rest)[1..] == t[1..] + rest;
      DropDigitsBefore(t[1..], rest);
    }
  }

  lemma SomeDigitsBefore(t: string, rest: string)
    requires Ends(rest) && SomeDigits(t).Some?
    ensures SomeDigits(t + rest) == Some(SomeDigits(t).value + rest)
  {
    DropDigitsBefore(t, rest);
  }

  lemma FractionBefore(t: string, rest: string)
    requires Ends(rest) && Fraction(t).Some?
    ensures Fraction(t + rest) == Some(Fraction(t).value + rest)
  {
    hide DropDigits;
    if Starts(t, '.') {
      assert (t + rest)[1..] == t[1..] + rest;
      SomeDigitsBefore(t[1..], rest);
    }
  }

  lemma ExponentBefore(t: string, rest: string)
    requires Ends(rest) && Exponent(t).Some?
    ensures Exponent(t + rest) == Some(Exponent(t).value + rest)
  {
    hide DropDigits;
    if StartsExponent(t) {
      assert (t + rest)[1..] == t[1..] + rest;
      if Starts(t[1..], '+') || Starts(t[1..], '-') {
        assert (t + rest)[2..] == t[2..] + rest;
        SomeDigitsBefore(t[2..], rest);
      } else {
        SomeDigitsBefore(t[1..], rest);
      }
    }
  }

  lemma TailBefore(t: string, rest: string)
    requires Ends(rest) && Tail(t).Some?
    ensures Tail(t + rest) == Some(Tail(t).value + rest)
  {
    hide Fraction, Exponent;
    FractionBefore(t, rest);
    ExponentBefore(Fraction(t).value, rest);
  }

  lemma TailDigit(t: string)
    requires Tail(t) == Some("")
    ensures t == "" || !IsDigit(t[0])
  {
  }

  /** The serializer calls a number exactly what the parser reads as one number and nothing more. */
  lemma NumbersAgree(t: string)
    ensures IsJsonNumber(t) <==> NumberRest(t) == Some("")
  {
    hide DropDigits, Tail;
    var u := if Starts(t, '-') then t[1..] else t;
    if u != "" && u[0] == '0' && Tail(u[1..]) == Some("") { TailDigit(u[1..]); }
  }

  lemma NumberBefore(t: string, rest: string)
    requires IsJsonNumber(t) && Ends(rest)
    ensures NumberRest(t + rest) == Some(rest)
  {
    hide DropDigits, Tail;
    var u := if Starts(t, '-') then t[1..] else t;
    assert (if Starts(t + rest, '-') then (t + rest)[1..] else t + rest) == u + rest;
    if u[0] == '0' {
      TailDigit(u[1..]);
      TailBefore(u[1..], rest);
      assert (u + rest)[1..] == u[1..] + rest;
    } else {
      DropDigitsBefore(u, rest);
      TailBefore(DropDigits(u), rest);
    }
    assert "" + rest == rest && (u + rest)[0] == u[0];
  }

  lemma NumberRoundTrip(t: string, rest: string)
    requires IsJsonNumber(t) && Ends(rest)
    ensures Value(t + rest) == Some((JNumber(t), rest))
  {
    hide NumberRest;
    NumberBefore(t, rest);
    NumberStarts(t);
    assert (t + rest)[..|t|] == t;
    assert SkipSpace(t + rest) == t + rest;
  }

  lemma NumberStarts(t: string)
    requires IsJsonNumber(t)
    ensures t != "" && (t[0] == '-' || IsDigit(t[0]))
  {
    hide Tail, DropDigits;
  }

  lemma {:induction false} AllDigits(t: string)
    requires OnlyDigits(t)
    ensures DropDigits(t) == ""
  {
    if t != "" { AllDigits(t[1..]); }
  }

  lemma IntegersAreNumbers(t: string)
    requires IsJsonInteger(t)
    ensures IsJsonNumber(t)
  {
    var u := if Starts(t, '-') then t[1..] else t;
    AllDigits(u);
    assert Tail("") == Some("");
    if u[0] == '0' { assert u[1..] == ""; }
  }

  // ---------- Keys ----------

  lemma {:induction false} LessAsymmetric(a: string, b: string)
    requires Less(a, b)
    ensures !Less(b, a) && a != b
  {
    if a != "" && a[0] == b[0] { LessAsymmetric(a[1..], b[1..]); }
  }

  lemma {:induction false} LessTransitive(a: string, b: string, c: string)
    requires Less(a, b) && Less(b, c)
    ensures Less(a, c)
  {
    if a != "" && a[0] == b[0] == c[0] { LessTransitive(a[1..], b[1..], c[1..]); }
  }

  lemma {:induction false} LessTotal(a: string, b: string)
    ensures Less(a, b) || Less(b, a) || a == b
  {
    if a != "" && b != "" && a[0] == b[0] {
      LessTotal(a[1..], b[1..]);
      assert a == [a[0]] + a[1..] && b == [b[0]] + b[1..];
    }
  }

  lemma {:induction false} InsertLast(fields: seq<Member>, key: string, value: Json)
    requires forall m <- fields :: Less(m.key, key)
    ensures InsertField(fields, key, value) == Some(fields + [Member(key, value)])
  {
    if fields != [] {
      assert fields[0] in fields;
      LessAsymmetric(fields[0].key, key);
      InsertLast(fields[1..], key, value);
      assert [fields[0]] + (fields[1..] + [Member(key, value)]) == fields + [Member(key, value)];
    } else {
      assert [Member(key, value)] + [] == [] + [Member(key, value)];
    }
  }

  // ---------- Values ----------

  ghost predicate KeysAscend(fields: seq<Field>) {
    forall i, j :: 0 <= i < j < |fields| ==> Less(fields[i].key, fields[j].key)
  }

  /** Every object inside has its keys in ascending order, as an ordered map has. */
  ghost predicate WellFormed(v: Payload)
    decreases v
  {
    match v
    case PArray(items) => forall x <- items :: WellFormed(x)
    case PObject(fields) => KeysAscend(fields) && forall f <- fields :: WellFormed(f.value)
    case _ => true
  }

  lemma LiteralRoundTrip(word: string, rest: string, value: Json)
    requires word != "" && !IsSpace(word[0])
    ensures Literal(SkipSpace(word + rest), word, value) == Some((value, rest))
  {
    var t := word + rest;
    assert SkipSpace(t) == t;
    assert t[..|word|] == word && t[|word|..] == rest;
  }

  /** A written value is read back as its normal form, before any text that ends a value. */
  lemma {:induction false} ValueRoundTrip(field: string, v: Payload, rest: string)
    requires WellFormed(v) && Ends(rest)
    ensures Value(WriteValue(field, v) + rest) == Some((Normalize(field, v), rest))
    decreases v
  {
    hide Chars, NumberRest, Items, Fields, IntegerFields, EscapeAll, IsJsonInteger, IsJsonNumber, SkipSpace;
    match v
    case PNull => LiteralRoundTrip("null", rest, JNull);
    case PBool(b) => if b { LiteralRoundTrip("true", rest, JBool(true)); } else { LiteralRoundTrip("false", rest, JBool(false)); }
    case PNumber(text) => if IsJsonNumber(text) { NumberRoundTrip(text, rest); } else { QuoteRoundTrip(text, rest); }
    case PString(text) =>
      if field in IntegerFields() && IsJsonInteger(text) {
        IntegersAreNumbers(text);
        NumberRoundTrip(text, rest);
      } else {
        QuoteRoundTrip(text, rest);
      }
    case PArray(items) =>
      if items == [] {
        EmptyArray(rest);
        assert "[" + "" + "]" + rest == "[]" + rest;
      } else {
        ItemsRoundTrip(items, rest, []);
        OpenArray(items, rest);
        assert [] + NormalizeItems(items) == NormalizeItems(items);
      }
    case PObject(fields) =>
      if fields == [] {
        EmptyObject(rest);
        assert "{" + "" + "}" + rest == "{}" + rest;
      } else {
        FieldsRoundTrip(fields, rest, []);
        OpenObject(fields, rest);
        assert [] + NormalizeFields(fields) == NormalizeFields(fields);
      }
  }

  lemma EmptyArray(rest: string)
    ensures Value("[]" + rest) == Some((JArray([]), rest))
  {
    var t := "[]" + rest;
    assert SkipSpace(t) == t && t[1..] == "]" + rest && SkipSpace(t[1..]) == t[1..] && t[1..][1..] == rest;
  }

  lemma EmptyObject(rest: string)
    ensures Value("{}" + rest) == Some((JObject([]), rest))
  {
    var t := "{}" + rest;
    assert SkipSpace(t) == t && t[1..] == "}" + rest && SkipSpace(t[1..]) == t[1..] && t[1..][1..] == rest;
  }

  /** A written value starts with neither space nor a closing bracket. */
  lemma ValueStarts(field: string, v: Payload)
    ensures var w := WriteValue(field, v); w != "" && !IsSpace(w[0]) && w[0] != ']' && w[0] != '}'
  {
    hide EscapeAll, Tail, DropDigits, WriteItems, WriteFields, IntegerFields;
    if v.PString? && IsJsonInteger(v.text) { IntegerStarts(v.text); }
    if v.PNumber? && IsJsonNumber(v.text) { NumberStarts(v.text); }
  }

  lemma IntegerStarts(t: string)
    requires IsJsonInteger(t)
    ensures t != "" && (t[0] == '-' || IsDigit(t[0]))
  {
  }

  lemma OpenArray(items: seq<Payload>, rest: string)
    requires items != []
    ensures Value("[" + WriteItems(items) + "]" + rest) == Items(WriteItems(items) + "]" + rest, [])
  {
    hide Items, WriteValue;
    var body := WriteItems(items) + "]" + rest;
    var t := "[" + WriteItems(items) + "]" + rest;
    ValueStarts("", items[0]);
    assert SkipSpace(t) == t && t[1..] == body && SkipSpace(body) == body;
  }

  lemma Spread(a: string, b: string, c: string, d: string)
    ensures (a + "," + b) + c + d == a + ("," + (b + c + d))
  {
  }

  lemma Shift<T>(done: seq<T>, x: T, more: seq<T>)
    ensures (done + [x]) + more == done + ([x] + more)
  {
  }

  lemma WriteItemsOne(items: seq<Payload>, rest: string, done: seq<Json>)
    requires |items| == 1
    ensures WriteItems(items) + "]" + rest == WriteValue("", items[0]) + ("]" + rest)
    ensures done + NormalizeItems(items) == done + [Normalize("", items[0])]
  {
    hide WriteValue, Normalize;
    assert items[1..] == [] && NormalizeItems([]) == [];
  }

  lemma WriteItemsMore(items: seq<Payload>, rest: string, done: seq<Json>)
    requires |items| > 1
    ensures WriteItems(items) + "]" + rest == WriteValue("", items[0]) + ("," + (WriteItems(items[1..]) + "]" + rest))
    ensures (done + [Normalize("", items[0])]) + NormalizeItems(items[1..]) == done + NormalizeItems(items)
  {
    hide WriteValue, Normalize;
    Spread(WriteValue("", items[0]), WriteItems(items[1..]), "]", rest);
    Shift(done, Normalize("", items[0]), NormalizeItems(items[1..]));
  }

  lemma WriteFieldsOne(fields: seq<Field>, rest: string, done: seq<Member>)
    requires |fields| == 1
    ensures WriteFields(fields) + "}" + rest == WriteField(fields[0]) + ("}" + rest)
    ensures done + NormalizeFields(fields) == done + [Member(fields[0].key, Normalize(fields[0].key, fields[0].value))]
  {
    hide WriteField, Normalize;
    assert fields[1..] == [] && NormalizeFields([]) == [];
  }

  lemma WriteFieldsMore(fields: seq<Field>, rest: string, done: seq<Member>)
    requires |fields| > 1
    ensures WriteFields(fields) + "}" + rest == WriteField(fields[0]) + ("," + (WriteFields(fields[1..]) + "}" + rest))
    ensures (done + [Member(fields[0].key, Normalize(fields[0].key, fields[0].value))]) + NormalizeFields(fields[1..])
            == done + NormalizeFields(fields)
  {
    hide WriteField, Normalize;
    Spread(WriteField(fields[0]), WriteFields(fields[1..]), "}", rest);
    Shift(done, Member(fields[0].key, Normalize(fields[0].key, fields[0].value)), NormalizeFields(fields[1..]));
  }

  /** The last item, then the bracket. */
  lemma ItemsEnd(t: string, n: Json, rest: string, done: seq<Json>)
    requires Value(t) == Some((n, "]" + rest))
    ensures Items(t, done) == Some((JArray(done + [n]), rest))
  {
    hide Value, SkipSpace;
    NoSkip("]" + rest);
    assert ("]" + rest)[1..] == rest;
  }

  lemma ItemsMore(t: string, n: Json, more: string, done: seq<Json>)
    requires Value(t) == Some((n, "," + more))
    ensures Items(t, done) == Items(more, done + [n])
  {
    hide Value, SkipSpace;
    NoSkip("," + more);
    assert ("," + more)[1..] == more;
  }

  lemma {:induction false} ItemsRoundTrip(items: seq<Payload>, rest: string, done: seq<Json>)
    requires items != [] && forall x <- items :: WellFormed(x)
    ensures Items(WriteItems(items) + "]" + rest, done) == Some((JArray(done + NormalizeItems(items)), rest))
    decreases items
  {
    hide WriteValue, Normalize, WellFormed, Value, Items, WriteItems, NormalizeItems;
    var w, n := WriteValue("", items[0]), Normalize("", items[0]);
    assert items[0] in items;
    if |items| == 1 {
      ValueRoundTrip("", items[0], "]" + rest);
      WriteItemsOne(items, rest, done);
      ItemsEnd(w + ("]" + rest), n, rest, done);
    } else {
      var more := WriteItems(items[1..]) + "]" + rest;
      ValueRoundTrip("", items[0], "," + more);
      WriteItemsMore(items, rest, done);
      ItemsMore(w + ("," + more), n, more, done);
      ItemsRoundTrip(items[1..], rest, done + [n]);
    }
  }

  lemma NoSkip(t: string)
    requires t != "" && !IsSpace(t[0])
    ensures SkipSpace(t) == t
  {
  }

  lemma OpenObject(fields: seq<Field>, rest: string)
    requires fields != []
    ensures Value("{" + WriteFields(fields) + "}" + rest) == Fields(WriteFields(fields) + "}" + rest, [])
  {
    hide Fields, WriteValue, EscapeAll;
    var body := WriteFields(fields) + "}" + rest;
    var t := "{" + WriteFields(fields) + "}" + rest;
    assert WriteField(fields[0])[0] == '\"';
    assert t[1..] == body && body[0] == '\"';
    NoSkip(t);
    NoSkip(body);
  }

  /** Reading one written field. */
  lemma FieldRoundTrip(f: Field, after: string)
    requires WellFormed(f.value) && Ends(after)
    ensures var t := WriteField(f) + after;
            && SkipSpace(t) == t && Starts(t, '\"')
            && Chars(t[1..]) == Some((f.key, ":" + WriteValue(f.key, f.value) + after))
            && SkipSpace(":" + WriteValue(f.key, f.value) + after) == ":" + WriteValue(f.key, f.value) + after
            && Value((":" + WriteValue(f.key, f.value) + after)[1..]) == Some((Normalize(f.key, f.value), after))
    decreases f, 0
  {
    hide WriteValue, Normalize, WellFormed, Value, Chars;
    var w := WriteValue(f.key, f.value);
    QuoteRoundTrip(f.key, ":" + w + after);
    assert WriteField(f) + after == Quote(f.key) + (":" + w + after);
    ValueRoundTrip(f.key, f.value, after);
    assert (":" + w + after)[1..] == w + after;
  }

  /** The last field, then the brace. */
  lemma FieldsEnd(f: Field, rest: string, done: seq<Member>)
    requires WellFormed(f.value) && forall m <- done :: Less(m.key, f.key)
    ensures Fields(WriteField(f) + ("}" + rest), done)
            == Some((JObject(done + [Member(f.key, Normalize(f.key, f.value))]), rest))
    decreases f, 1
  {
    hide WriteField, Normalize, WellFormed, Value, Chars, Less, InsertField, SkipSpace, WriteValue;
    FieldRoundTrip(f, "}" + rest);
    InsertLast(done, f.key, Normalize(f.key, f.value));
    NoSkip("}" + rest);
    assert ("}" + rest)[1..] == rest;
  }

  lemma FieldsMore(f: Field, more: string, done: seq<Member>)
    requires WellFormed(f.value) && forall m <- done :: Less(m.key, f.key)
    ensures Fields(WriteField(f) + ("," + more), done) == Fields(more, done + [Member(f.key, Normalize(f.key, f.value))])
    decreases f, 1
  {
    hide WriteField, Normalize, WellFormed, Value, Chars, Less, InsertField, SkipSpace, WriteValue;
    FieldRoundTrip(f, "," + more);
    InsertLast(done, f.key, Normalize(f.key, f.value));
    NoSkip("," + more);
    assert ("," + more)[1..] == more;
  }

  lemma {:induction false} FieldsRoundTrip(fields: seq<Field>, rest: string, done: seq<Member>)
    requires fields != [] && KeysAscend(fields) && forall f <- fields :: WellFormed(f.value)
    requires forall m <- done, f <- fields :: Less(m.key, f.key)
    ensures Fields(WriteFields(fields) + "}" + rest, done) == Some((JObject(done + NormalizeFields(fields)), rest))
    decreases fields
  {
    hide WriteField, Normalize, WellFormed, Less, Fields, WriteFields, NormalizeFields;
    var f := fields[0];
    assert f in fields;
    if |fields| == 1 {
      FieldsEnd(f, rest, done);
      WriteFieldsOne(fields, rest, done);
    } else {
      var n := Member(f.key, Normalize(f.key, f.value));
      FieldsMore(f, WriteFields(fields[1..]) + "}" + rest, done);
      WriteFieldsMore(fields, rest, done);
      NextFields(fields, done, n);
      FieldsRoundTrip(fields[1..], rest, done + [n]);
    }
  }

  lemma NextFields(fields: seq<Field>, done: seq<Member>, n: Member)
    requires |fields| > 1 && KeysAscend(fields) && n.key == fields[0].key
    requires forall m <- done, f <- fields :: Less(m.key, f.key)
    ensures KeysAscend(fields[1..]) && forall m <- done + [n], f <- fields[1..] :: Less(m.key, f.key)
  {
    hide Less;
    forall m <- done + [n], f <- fields[1..] ensures Less(m.key, f.key) {
      var i :| 0 <= i < |fields[1..]| && fields[1..][i] == f;
      assert f == fields[i + 1] && f in fields;
    }
  }

  // ---------- Records ----------

  ghost predicate DistinctKeys(fields: seq<Field>) {
    forall i, j :: 0 <= i < j < |fields| ==> fields[i].key != fields[j].key
  }

  lemma {:induction false} InsertSortedMember(fields: seq<Field>, f: Field, x: Field)
    ensures x in InsertSorted(fields, f) <==> x in fields || x == f
  {
    if fields != [] && !Less(f.key, fields[0].key) {
      InsertSortedMember(fields[1..], f, x);
      assert fields == [fields[0]] + fields[1..];
    }
  }

  lemma {:induction false} InsertSortedAscends(fields: seq<Field>, f: Field)
    requires KeysAscend(fields) && forall x <- fields :: x.key != f.key
    ensures KeysAscend(InsertSorted(fields, f))
  {
    hide Less;
    if fields == [] {
    } else if Less(f.key, fields[0].key) {
      forall j | 0 <= j < |fields| ensures Less(f.key, fields[j].key) {
        if j > 0 { LessTransitive(f.key, fields[0].key, fields[j].key); }
      }
    } else {
      assert fields[0] in fields;
      LessTotal(f.key, fields[0].key);
      InsertSortedAscends(fields[1..], f);
      var r := InsertSorted(fields[1..], f);
      forall j | 0 <= j < |r| ensures Less(fields[0].key, r[j].key) { InsertSortedMember(fields[1..], f, r[j]); }
    }
  }

  /** Sorting distinctly named fields lists the same fields by ascending name. */
  lemma {:induction false} SortedFields(fields: seq<Field>)
    requires DistinctKeys(fields)
    ensures KeysAscend(SortFields(fields)) && forall x :: x in SortFields(fields) <==> x in fields
  {
    if fields != [] {
      var rest := SortFields(fields[1..]);
      SortedFields(fields[1..]);
      forall x <- rest ensures x.key != fields[0].key { assert x in fields[1..]; }
      InsertSortedAscends(rest, fields[0]);
      assert fields == [fields[0]] + fields[1..];
      forall x ensures x in SortFields(fields) <==> x in fields { InsertSortedMember(rest, fields[0], x); }
    }
  }

  /** The payload as the parser should see it. */
  function Meaning(r: OutputRecord): Json {
    JObject([Member("payload", JObject(NormalizeFields(SortFields(r.payload)))), Member("type", JString(r.kind))])
  }

  lemma PayloadLess()
    ensures Less("payload", "type") && !Less("type", "payload")
  {
    assert "payload"[0] < "type"[0];
  }

  /**
    For every output record, parsing its serialized text succeeds and gives back its type and its payload, up to the
    defined normalization, whatever bytes its strings hold.
   */
  lemma RecordRoundTrip(r: OutputRecord)
    requires DistinctKeys(r.payload) && forall f <- r.payload :: WellFormed(f.value)
    ensures ParseJson(Serialize(r)) == Some(Meaning(r))
  {
    hide Value, Chars, WriteFields, EscapeAll, NormalizeFields, SortFields;
    SortedFields(r.payload);
    FixedKeys();
    ReadRecord(r, Field("payload", PObject(SortFields(r.payload))));
  }

  lemma FixedKeys()
    ensures Quote("type") == "\"type\"" && Quote("payload") == "\"payload\""
  {
    hide EscapeAll;
    Plain("type");
    Plain("payload");
  }

  lemma {:induction false} Plain(s: string)
    requires forall i :: 0 <= i < |s| ==> ' ' <= s[i] && s[i] != '\"' && s[i] != '\\'
    ensures EscapeAll(s) == s
  {
    if s != "" {
      Plain(s[1..]);
      assert s == [s[0]] + s[1..];
    }
  }

  lemma RecordText(r: OutputRecord, b: Field)
    requires b == Field("payload", PObject(SortFields(r.payload)))
    requires Quote("type") == "\"type\"" && Quote("payload") == "\"payload\""
    ensures Serialize(r) == "{" + (Quote("type") + (":" + (Quote(r.kind) + ("," + (WriteField(b) + "}")))))
  {
    hide WriteFields, EscapeAll, SortFields, Quote;
  }

  /** The first field of a record, then its second. */
  lemma ReadRecord(r: OutputRecord, b: Field)
    requires b == Field("payload", PObject(SortFields(r.payload))) && WellFormed(b.value)
    requires Quote("type") == "\"type\"" && Quote("payload") == "\"payload\""
    ensures ParseJson(Serialize(r)) == Some(Meaning(r))
  {
    hide WellFormed, Chars, WriteValue, EscapeAll, NormalizeFields, SortFields, Less, Quote, SkipSpace, InsertField, Value,
      Fields, WriteField;
    RecordText(r, b);
    var last := WriteField(b) + "}";
    var one, two := Member("type", JString(r.kind)), Member("payload", Normalize("payload", b.value));
    LastField(b, one);
    FirstField(r.kind, last, one);
    OpenRecord(Quote("type") + (":" + (Quote(r.kind) + ("," + last))));
  }

  /** A text that is one object. */
  lemma OpenRecord(t: string)
    requires t != "" && t[0] == '\"'
    ensures Value("{" + t) == Fields(t, [])
    ensures SkipSpace("") == ""
  {
    hide Fields;
    NoSkip("{" + t);
    NoSkip(t);
    assert ("{" + t)[1..] == t;
  }

  lemma FirstField(kind: string, last: string, one: Member)
    requires one == Member("type", JString(kind))
    ensures var t := Quote("type") + (":" + (Quote(kind) + ("," + last)));
            t != "" && t[0] == '\"' && Fields(t, []) == Fields(last, [one])
  {
    hide Value, Chars, SkipSpace, Less;
    var v := Quote(kind) + ("," + last);
    var c := ":" + v;
    QuoteRoundTrip("type", c);
    QuoteRoundTrip(kind, "," + last);
    NoSkip(Quote("type") + c);
    NoSkip(c);
    NoSkip("," + last);
    assert c[1..] == v && ("," + last)[1..] == last;
    assert [one] + [] == [one];
  }

  lemma LastField(b: Field, one: Member)
    requires WellFormed(b.value) && one.key == "type" && b.key == "payload"
    ensures Fields(WriteField(b) + "}", [one])
            == Some((JObject([Member("payload", Normalize("payload", b.value)), one]), ""))
  {
    hide Value, Chars, SkipSpace, WellFormed, WriteField, WriteValue, Normalize, Less;
    FieldRoundTrip(b, "}");
    NoSkip("}");
    PayloadLess();
    assert [Member("payload", Normalize("payload", b.value))] + [one] == [Member("payload", Normalize("payload", b.value)), one];
  }
}
