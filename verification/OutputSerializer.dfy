/** The serializer of output records, with the loops that write it. */
module OutputSerializer {
  import opened Types
  import opened JsonSpec

  /** Append a text as a JSON string. */
  method AppendJsonString(output: string, value: string) returns (out: string)
    ensures out == output + Quote(value)
  {
    hide EscapeChar;
    out := output + "\"";
    assert value[0..] == value;
    for i := 0 to |value|
      invariant out + EscapeAll(value[i..]) == output + "\"" + EscapeAll(value)
    {
      assert value[i..][1..] == value[i + 1..];
      out := out + EscapeChar(value[i]);
    }
    assert EscapeAll(value[|value|..]) == "" && out + "" == out;
    out := out + "\"";
    assert out == output + ("\"" + EscapeAll(value) + "\"");
  }

  method IsIntegerPayloadField(field: string) returns (found: bool)
    ensures found == (field in IntegerFields())
  {
    hide IntegerFields;
    var fields := IntegerFields();
    for i := 0 to |fields|
      invariant forall j :: 0 <= j < i ==> fields[j] != field
    {
      if fields[i] == field { return true; }
    }
    return false;
  }

  /** Whether a text is a JSON integer. */
  method TestJsonInteger(value: string) returns (ok: bool)
    ensures ok == IsJsonInteger(value)
  {
    if value == "" { return false; }
    var offset := 0;
    if value[0] == '-' {
      if |value| == 1 { return false; }
      offset := 1;
    }
    ghost var u := value[offset..];
    assert u == if Starts(value, '-') then value[1..] else value;
    if value[offset] == '0' && |value| - offset > 1 { return false; }
    for i := offset to |value|
      invariant forall j :: 0 <= j < i - offset ==> IsDigit(u[j])
    {
      if !IsDigit(value[i]) {
        assert !IsDigit(u[i - offset]);
        return false;
      }
    }
    return true;
  }

  /** Move past digits; false if there were none. */
  method ConsumeDigits(value: string, start: nat) returns (ok: bool, offset: nat)
    requires start <= |value|
    ensures offset <= |value| && ok == SomeDigits(value[start..]).Some?
    ensures value[offset..] == DropDigits(value[start..])
  {
    offset := start;
    while offset < |value| && IsDigit(value[offset])
      invariant start <= offset <= |value| && DropDigits(value[offset..]) == DropDigits(value[start..])
      invariant offset > start <==> start < |value| && IsDigit(value[start]) && offset != start
      invariant offset > start ==> IsDigit(value[start])
    {
      assert value[offset..][1..] == value[offset + 1..];
      offset := offset + 1;
    }
    return offset > start, offset;
  }

  /** The fraction and exponent of a number, from an offset on. */
  method TestTail(value: string, start: nat) returns (ok: bool)
    requires start <= |value|
    ensures ok == (Tail(value[start..]) == Some(""))
  {
    hide DropDigits;
    var offset := start;
    if offset < |value| && value[offset] == '.' {
      assert value[offset..][1..] == value[offset + 1..];
      ok, offset := ConsumeDigits(value, offset + 1);
      if !ok { return; }
    }
    ghost var t := value[offset..];
    assert Fraction(value[start..]) == Some(t);
    if offset < |value| && (value[offset] == 'e' || value[offset] == 'E') {
      assert t[1..] == value[offset + 1..];
      offset := offset + 1;
      if offset < |value| && (value[offset] == '+' || value[offset] == '-') {
        assert t[2..] == value[offset + 1..];
        offset := offset + 1;
      }
      ok, offset := ConsumeDigits(value, offset);
      if !ok { return; }
    }
    return offset == |value|;
  }

  /** Whether a text is a JSON number. */
  method TestJsonNumber(value: string) returns (ok: bool)
    ensures ok == IsJsonNumber(value)
  {
    hide DropDigits, Tail;
    if value == "" { return false; }
    var offset := 0;
    if value[0] == '-' {
      offset := 1;
      if offset == |value| { return false; }
    }
    ghost var u := value[offset..];
    assert u == if Starts(value, '-') then value[1..] else value;
    if value[offset] == '0' {
      offset := offset + 1;
      assert value[offset..] == u[1..];
    } else if IsDigit(value[offset]) {
      ok, offset := ConsumeDigits(value, offset);
    } else {
      return false;
    }
    ok := TestTail(value, offset);
  }

  method AppendPayloadText(output: string, field: string, value: string) returns (out: string)
    ensures out == output + WriteText(field, value)
  {
    hide IntegerFields, IsJsonInteger, Quote;
    var named := IsIntegerPayloadField(field);
    var integer := TestJsonInteger(value);
    if named && integer {
      return output + value;
    }
    out := AppendJsonString(output, value);
  }

  method AppendPayloadValue(output: string, field: string, v: Payload) returns (out: string)
    ensures out == output + WriteValue(field, v)
    decreases v
  {
    hide WriteText, IsJsonNumber, Quote, WriteItems, WriteFields;
    match v
    case PNull => return output + "null";
    case PBool(b) => return output + if b then "true" else "false";
    case PNumber(text) =>
      var number := TestJsonNumber(text);
      if number { return output + text; }
      out := AppendJsonString(output, text);
    case PString(text) => out := AppendPayloadText(output, field, text);
    case PArray(items) => out := AppendPayloadArray(output, items);
    case PObject(fields) =>
      out := AppendPayloadFields(output + "{", fields);
      assert (output + "{" + WriteFields(fields)) + "}" == output + ("{" + WriteFields(fields) + "}");
      out := out + "}";
  }

  /** The comma in front of all but the first, and what is left to write. */
  ghost function ItemsLeft(items: seq<Payload>, i: nat): string
    requires i <= |items|
  {
    (if 0 < i < |items| then "," else "") + WriteItems(items[i..])
  }

  lemma ItemsLeftStep(items: seq<Payload>, i: nat)
    requires i < |items|
    ensures ItemsLeft(items, i) == (if i > 0 then "," else "") + WriteValue("", items[i]) + ItemsLeft(items, i + 1)
  {
    hide WriteValue;
    assert items[i..][1..] == items[i + 1..];
  }

  method AppendPayloadArray(output: string, items: seq<Payload>) returns (out: string)
    ensures out == output + ("[" + WriteItems(items) + "]")
    decreases items
  {
    hide WriteItems, WriteValue;
    out := output + "[";
    assert items[0..] == items;
    var first := true;
    for i := 0 to |items|
      invariant first == (i == 0)
      invariant out + ItemsLeft(items, i) == output + "[" + WriteItems(items)
    {
      ItemsLeftStep(items, i);
      if !first { out := out + ","; }
      first := false;
      out := AppendPayloadValue(out, "", items[i]);
    }
    NoItems(items);
    assert out + "" == out;
    out := out + "]";
    assert out == output + ("[" + WriteItems(items) + "]");
  }

  lemma NoItems(items: seq<Payload>)
    ensures ItemsLeft(items, |items|) == ""
  {
  }

  ghost function FieldsLeft(fields: seq<Field>, i: nat): string
    requires i <= |fields|
  {
    (if 0 < i < |fields| then "," else "") + WriteFields(fields[i..])
  }

  lemma FieldsLeftStep(fields: seq<Field>, i: nat)
    requires i < |fields|
    ensures FieldsLeft(fields, i) == (if i > 0 then "," else "") + WriteField(fields[i]) + FieldsLeft(fields, i + 1)
  {
    hide WriteField;
    assert fields[i..][1..] == fields[i + 1..];
  }

  lemma NoFields(fields: seq<Field>)
    ensures FieldsLeft(fields, |fields|) == ""
  {
  }

  method AppendPayloadField(output: string, f: Field) returns (out: string)
    ensures out == output + WriteField(f)
    decreases f
  {
    hide WriteValue, Quote;
    out := AppendJsonString(output, f.key);
    out := out + ":";
    out := AppendPayloadValue(out, f.key, f.value);
  }

  method AppendPayloadFields(output: string, fields: seq<Field>) returns (out: string)
    ensures out == output + WriteFields(fields)
    decreases fields
  {
    hide WriteFields, WriteField;
    out := output;
    assert fields[0..] == fields;
    var first := true;
    for i := 0 to |fields|
      invariant first == (i == 0)
      invariant out + FieldsLeft(fields, i) == output + WriteFields(fields)
    {
      FieldsLeftStep(fields, i);
      if !first { out := out + ","; }
      first := false;
      out := AppendPayloadField(out, fields[i]);
    }
    NoFields(fields);
  }

  /** Sort fields by name. */
  method Sorted(fields: seq<Field>) returns (sorted: seq<Field>)
    ensures sorted == SortFields(fields)
  {
    sorted := [];
    var i := |fields|;
    while i > 0
      invariant 0 <= i <= |fields| && sorted == SortFields(fields[i..])
    {
      i := i - 1;
      assert fields[i..][1..] == fields[i + 1..];
      sorted := InsertSorted(sorted, fields[i]);
    }
    assert fields[0..] == fields;
  }

  method SerializeRecord(r: OutputRecord) returns (out: string)
    ensures out == Serialize(r)
  {
    hide WriteFields, Quote, SortFields;
    out := AppendJsonString("{\"type\":", r.kind);
    out := out + ",\"payload\":{";
    var fields := Sorted(r.payload);
    out := AppendPayloadFields(out, fields);
    out := out + "}}";
  }
}
