/** The recursive-descent parser, with its cursor, and the serializer's loops. */
module JsonCode {
  import opened Types
  import opened JsonSpec

  /** `more` is what is left to read of `goal`, after `done` has been read. */
  ghost predicate ReadSoFar(goal: Parsed<string>, done: string, more: Parsed<string>) {
    if more.None? then goal.None? else goal == Some((done + more.value.0, more.value.1))
  }

  /** A parser over a text.  A method that returns None has met a parse error. */
  class Parser {
    const text: string
    var pos: nat

    ghost predicate Valid()
      reads this
    {
      pos <= |text|
    }

    /** The text not read yet. */
    ghost function Rest(): string
      reads this
      requires Valid()
    {
      text[pos..]
    }

    constructor (text: string)
      ensures this.text == text && Valid() && Rest() == text
    {
      this.text, pos := text, 0;
    }

    method SkipWhitespace()
      requires Valid()
      modifies this
      ensures Valid() && Rest() == SkipSpace(old(Rest()))
    {
      while pos < |text| && IsSpace(text[pos])
        invariant Valid() && SkipSpace(Rest()) == SkipSpace(old(Rest()))
      {
        assert Rest()[1..] == text[pos + 1..];
        pos := pos + 1;
      }
    }

    method Consume(expected: char) returns (found: bool)
      requires Valid()
      modifies this
      ensures Valid() && found == Starts(old(Rest()), expected)
      ensures Rest() == if found then old(Rest())[1..] else old(Rest())
    {
      if pos < |text| && text[pos] == expected {
        assert Rest()[1..] == text[pos + 1..];
        pos := pos + 1;
        return true;
      }
      return false;
    }

    method ConsumeDigits()
      requires Valid()
      modifies this
      ensures Valid() && Rest() == DropDigits(old(Rest()))
    {
      while pos < |text| && IsDigit(text[pos])
        invariant Valid() && DropDigits(Rest()) == DropDigits(old(Rest()))
      {
        assert Rest()[1..] == text[pos + 1..];
        pos := pos + 1;
      }
    }

    /** One or more digits. */
    method RequireDigits() returns (ok: bool)
      requires Valid()
      modifies this
      ensures Valid() && ok == SomeDigits(old(Rest())).Some?
      ensures ok ==> Rest() == SomeDigits(old(Rest())).value
    {
      if pos >= |text| || !IsDigit(text[pos]) { return false; }
      ConsumeDigits();
      return true;
    }

    method ParseExponent() returns (ok: bool)
      requires Valid()
      modifies this
      ensures Valid() && ok == Exponent(old(Rest())).Some?
      ensures ok ==> Rest() == Exponent(old(Rest())).value
    {
      hide SomeDigits;
      ok := true;
      ghost var t := Rest();
      if pos < |text| && (text[pos] == 'e' || text[pos] == 'E') {
        pos := pos + 1;
        assert Rest() == t[1..];
        if pos < |text| && (text[pos] == '+' || text[pos] == '-') {
          pos := pos + 1;
          assert Rest() == t[2..];
        }
        ok := RequireDigits();
      }
    }

    method ParseTail() returns (ok: bool)
      requires Valid()
      modifies this
      ensures Valid() && ok == Tail(old(Rest())).Some?
      ensures ok ==> Rest() == Tail(old(Rest())).value
    {
      hide SomeDigits, Exponent;
      var point := Consume('.');
      if point {
        ok := RequireDigits();
        if !ok { return; }
      }
      assert Fraction(old(Rest())) == Some(Rest());
      ok := ParseExponent();
    }

    /** Move past a number. */
    method PassNumber() returns (ok: bool)
      requires Valid()
      modifies this
      ensures Valid() && ok == NumberRest(old(Rest())).Some?
      ensures ok ==> Rest() == NumberRest(old(Rest())).value && pos >= old(pos)
    {
      hide DropDigits, Tail;
      var minus := Consume('-');
      ghost var u := Rest();
      if pos >= |text| { return false; }
      var zero := Consume('0');
      if zero {
        if pos < |text| && IsDigit(text[pos]) { return false; }
      } else if IsDigit(text[pos]) {
        ConsumeDigits();
      } else {
        return false;
      }
      ok := ParseTail();
      if ok { TailShrinks(if zero then u[1..] else DropDigits(u)); }
    }

    method ParseNumber() returns (r: Option<Json>)
      requires Valid()
      modifies this
      ensures Valid() && r.Some? == JsonSpec.ParseNumber(old(Rest())).Some?
      ensures r.Some? ==> (r.value, Rest()) == JsonSpec.ParseNumber(old(Rest())).value
    {
      hide NumberRest;
      var start := pos;
      ghost var t := Rest();
      var ok := PassNumber();
      if !ok { return None; }
      assert t[..|t| - |Rest()|] == text[start..pos];
      return Some(JNumber(text[start..pos]));
    }

    method ParseHexCodeUnit() returns (r: Option<nat>)
      requires Valid()
      modifies this
      ensures Valid() && r.Some? == HexUnit(old(Rest())).Some?
      ensures r.Some? ==> (r.value, Rest()) == HexUnit(old(Rest())).value
    {
      hide HexValue;
      ghost var goal := HexDigits(Rest(), 4, 0);
      if pos + 4 > |text| {
        HexDigitsLaw(Rest(), 4, 0);
        return None;
      }
      var value: nat := 0;
      for i := 0 to 4
        invariant Valid() && HexDigits(Rest(), 4 - i, value) == goal && pos + (4 - i) <= |text|
      {
        var digit := HexValue(text[pos]);
        if digit.None? { return None; }
        assert Rest()[1..] == text[pos + 1..];
        pos := pos + 1;
        value := 16 * value + digit.value;
      }
      return Some(value);
    }

    method ParseUnicode() returns (r: Option<string>)
      requires Valid()
      modifies this
      ensures Valid() && r.Some? == Unicode(old(Rest())).Some?
      ensures r.Some? ==> (r.value, Rest()) == Unicode(old(Rest())).value
    {
      hide HexUnit;
      ghost var t := Rest();
      var first := ParseHexCodeUnit();
      if first.None? { return None; }
      var n := first.value;
      ghost var rest := Rest();
      assert n < 0x10000;
      if 0xD800 <= n <= 0xDBFF {
        var slash := Consume('\\');
        if !slash { return None; }
        var letter := Consume('u');
        if !letter { return None; }
        assert Rest() == rest[2..];
        var second := ParseHexCodeUnit();
        if second.None? || !(0xDC00 <= second.value <= 0xDFFF) { return None; }
        return Some(Utf8(0x10000 + (n - 0xD800) * 1024 + (second.value - 0xDC00)));
      }
      if 0xDC00 <= n <= 0xDFFF { return None; }
      return Some(Utf8(n));
    }

    method ParseEscape() returns (r: Option<string>)
      requires Valid()
      modifies this
      ensures Valid() && r.Some? == Escape(old(Rest())).Some?
      ensures r.Some? ==> (r.value, Rest()) == Escape(old(Rest())).value
    {
      hide Unicode;
      if pos >= |text| { return None; }
      var escaped := text[pos];
      ghost var t := Rest();
      pos := pos + 1;
      assert Rest() == t[1..];
      match escaped
      case '\"' => return Some("\"");
      case '\\' => return Some("\\");
      case '/' => return Some("/");
      case 'b' => return Some([8 as char]);
      case 'f' => return Some([12 as char]);
      case 'n' => return Some("\n");
      case 'r' => return Some("\r");
      case 't' => return Some("\t");
      case 'u' => r := ParseUnicode();
      case _ => return None;
    }

    /** A string, with its quotes. */
    method ParseString() returns (r: Option<string>)
      requires Valid()
      modifies this
      ensures Valid() && r.Some? == StringAt(old(Rest())).Some?
      ensures r.Some? ==> (r.value, Rest()) == StringAt(old(Rest())).value
    {
      hide Escape, Chars;
      var open := Consume('\"');
      if !open { return None; }
      ghost var goal := Chars(Rest());
      var result := "";
      ReadNothing(goal);
      while pos < |text|
        invariant Valid() && ReadSoFar(goal, result, Chars(Rest()))
        decreases |text| - pos
      {
        var current := text[pos];
        ghost var t := Rest();
        pos := pos + 1;
        assert Rest() == t[1..];
        CharsStep(t);
        if current == '\"' {
          assert result + "" == result;
          return Some(result);
        }
        if current == '\\' {
          var escaped := ParseEscape();
          if escaped.None? { return None; }
          EscapeShrinks(t[1..]);
          ReadMore(goal, result, escaped.value, Chars(Rest()));
          result := result + escaped.value;
        } else if current < ' ' {
          return None;
        } else {
          ReadMore(goal, result, [current], Chars(Rest()));
          result := result + [current];
        }
      }
      CharsEnd(Rest());
      return None;
    }

    method ParseLiteral(word: string) returns (ok: bool)
      requires Valid()
      modifies this
      ensures Valid() && ok == (|word| <= |old(Rest())| && old(Rest())[..|word|] == word)
      ensures ok ==> Rest() == old(Rest())[|word|..]
    {
      ghost var t := Rest();
      if pos + |word| > |text| || text[pos..pos + |word|] != word {
        assert |word| <= |t| ==> t[..|word|] == text[pos..pos + |word|];
        return false;
      }
      assert t[..|word|] == text[pos..pos + |word|];
      pos := pos + |word|;
      return true;
    }

    method ParseValue() returns (r: Option<Json>)
      requires Valid()
      modifies this
      ensures Valid() && r.Some? == Value(old(Rest())).Some?
      ensures r.Some? ==> (r.value, Rest()) == Value(old(Rest())).value
      decreases |text| - pos, 1
    {
      hide Items, Fields, Chars, JsonSpec.ParseNumber, SkipSpace;
      SkipWhitespace();
      ghost var u := Rest();
      if pos >= |text| { return None; }
      var current := text[pos];
      if current == '{' {
        r := ParseObject();
      } else if current == '[' {
        r := ParseArray();
      } else if current == '\"' {
        var s := ParseString();
        return if s.None? then None else Some(JString(s.value));
      } else if current == 't' {
        var ok := ParseLiteral("true");
        return if ok then Some(JBool(true)) else None;
      } else if current == 'f' {
        var ok := ParseLiteral("false");
        return if ok then Some(JBool(false)) else None;
      } else if current == 'n' {
        var ok := ParseLiteral("null");
        return if ok then Some(JNull) else None;
      } else if current == '-' || IsDigit(current) {
        r := ParseNumber();
      } else {
        return None;
      }
    }

    method ParseArray() returns (r: Option<Json>)
      requires Valid() && Starts(Rest(), '[')
      modifies this
      ensures Valid() && r.Some? == ArrayAt(old(Rest())).Some?
      ensures r.Some? ==> (r.value, Rest()) == ArrayAt(old(Rest())).value
      decreases |text| - pos, 0
    {
      hide Items, Value, SkipSpace;
      ghost var start := pos;
      var open := Consume('[');
      SkipWhitespace();
      ghost var goal := Items(Rest(), []);
      var close := Consume(']');
      if close { return Some(JArray([])); }
      var items: seq<Json> := [];
      while true
        invariant Valid() && pos > start && Items(Rest(), items) == goal
        decreases |text| - pos
      {
        ghost var t := Rest();
        ItemsStep(t, items);
        var v := ParseValue();
        if v.None? { return None; }
        items := items + [v.value];
        SkipWhitespace();
        close := Consume(']');
        if close { return Some(JArray(items)); }
        var comma := Consume(',');
        if !comma { return None; }
      }
    }

    method ParseObject() returns (r: Option<Json>)
      requires Valid() && Starts(Rest(), '{')
      modifies this
      ensures Valid() && r.Some? == ObjectAt(old(Rest())).Some?
      ensures r.Some? ==> (r.value, Rest()) == ObjectAt(old(Rest())).value
      decreases |text| - pos, 0
    {
      hide Fields, Value, SkipSpace, Chars, InsertField;
      ghost var start := pos;
      var open := Consume('{');
      SkipWhitespace();
      ghost var goal := Fields(Rest(), []);
      var close := Consume('}');
      if close { return Some(JObject([])); }
      var fields: seq<Member> := [];
      while true
        invariant Valid() && pos > start && Fields(Rest(), fields) == goal
        decreases |text| - pos
      {
        FieldsStep(Rest(), fields);
        SkipWhitespace();
        var key := ParseString();
        if key.None? { return None; }
        SkipWhitespace();
        var colon := Consume(':');
        if !colon { return None; }
        var v := ParseValue();
        if v.None? { return None; }
        var inserted := InsertField(fields, key.value, v.value);
        if inserted.None? { return None; }
        fields := inserted.value;
        SkipWhitespace();
        close := Consume('}');
        if close { return Some(JObject(fields)); }
        var comma := Consume(',');
        if !comma { return None; }
      }
    }

    /** Parse the whole text. */
    method Parse() returns (r: Option<Json>)
      requires pos == 0
      modifies this
      ensures r == ParseJson(text)
    {
      hide Value, SkipSpace;
      assert Rest() == text;
      r := ParseValue();
      if r.None? { return; }
      SkipWhitespace();
      if pos < |text| { return None; }
    }
  }

  // ---------- One step of the reference ----------

  function StringAt(t: string): Parsed<string> {
    if Starts(t, '\"') then Chars(t[1..]) else None
  }

  function ArrayAt(t: string): Parsed<Json>
    requires t != ""
  {
    var v := SkipSpace(t[1..]);
    if Starts(v, ']') then Some((JArray([]), v[1..])) else Items(v, [])
  }

  function ObjectAt(t: string): Parsed<Json>
    requires t != ""
  {
    var v := SkipSpace(t[1..]);
    if Starts(v, '}') then Some((JObject([]), v[1..])) else Fields(v, [])
  }

  lemma ReadNothing(goal: Parsed<string>)
    ensures ReadSoFar(goal, "", goal)
  {
    if goal.Some? { assert "" + goal.value.0 == goal.value.0; }
  }

  lemma ReadMore(goal: Parsed<string>, done: string, next: string, more: Parsed<string>)
    requires ReadSoFar(goal, done, if more.None? then None else Some((next + more.value.0, more.value.1)))
    ensures ReadSoFar(goal, done + next, more)
  {
    if more.Some? { assert done + (next + more.value.0) == (done + next) + more.value.0; }
  }

  lemma EscapeShrinks(t: string)
    ensures Escape(t).Some? ==> |Escape(t).value.1| < |t|
  {
  }

  /** What the next byte of a string means. */
  lemma CharsStep(t: string)
    requires t != ""
    ensures var more := if t[0] == '\\' then (if Escape(t[1..]).Some? then Chars(Escape(t[1..]).value.1) else None)
                        else Chars(t[1..]);
            Chars(t) == if t[0] == '\"' then Some(("", t[1..]))
                        else if t[0] != '\\' && t[0] < ' ' then None
                        else if more.None? then None
                        else Some(((if t[0] == '\\' then Escape(t[1..]).value.0 else [t[0]]) + more.value.0, more.value.1))
  {
    hide Escape;
  }

  lemma CharsEnd(t: string)
    requires t == ""
    ensures Chars(t) == None
  {
  }

  lemma ItemsStep(t: string, items: seq<Json>)
    ensures var v := Value(t);
            Items(t, items)
            == if v.None? then None
               else
                 var u, items' := SkipSpace(v.value.1), items + [v.value.0];
                 if Starts(u, ']') then Some((JArray(items'), u[1..]))
                 else if Starts(u, ',') then Items(u[1..], items')
                 else None
    ensures Value(t).Some? ==> |Value(t).value.1| < |t|
  {
    hide Value, SkipSpace;
  }

  lemma FieldsStep(t: string, fields: seq<Member>)
    ensures var key := StringAt(SkipSpace(t));
            Fields(t, fields)
            == if key.None? then None
               else
                 var c := SkipSpace(key.value.1);
                 if !Starts(c, ':') then None
                 else
                   var v := Value(c[1..]);
                   if v.None? then None
                   else
                     var fields' := InsertField(fields, key.value.0, v.value.0);
                     if fields'.None? then None
                     else
                       var e := SkipSpace(v.value.1);
                       if Starts(e, '}') then Some((JObject(fields'.value), e[1..]))
                       else if Starts(e, ',') then Fields(e[1..], fields'.value)
                       else None
  {
    hide Value, SkipSpace, Chars, InsertField;
  }
}
