/** Checkpoint file names: distinct for distinct ids, and in the order of the offsets they checkpoint. */
module FileNames {
  import opened JsonSpec
  import CS = CheckpointSpec

  predicate IsSafe(c: char) {
    'a' <= c <= 'z' || 'A' <= c <= 'Z' || '0' <= c <= '9' || c == '-' || c == '_' || c == '.'
  }

  /** A byte of an id inside a file name; ids are byte strings. */
  function NameByte(c: char): string {
    if IsSafe(c) then [c]
    else ['%', CS.HexUpper(c as nat / 16 % 16), CS.HexUpper(c as nat % 16)]
  }

  function NameText(id: string): string {
    if id == "" then "" else NameByte(id[0]) + NameText(id[1..])
  }

  const Extension := ".checkpoint"

  function FileName(id: string): string {
    (if NameText(id) == "" then "checkpoint" else NameText(id)) + Extension
  }

  /** Ids are made of bytes. */
  predicate Bytes(id: string) {
    forall i :: 0 <= i < |id| ==> id[i] as nat < 256
  }

  method EncodeName(id: string) returns (name: string)
    ensures name == FileName(id)
  {
    hide NameByte;
    name := "";
    assert id[0..] == id;
    for i := 0 to |id|
      invariant name + NameText(id[i..]) == NameText(id)
    {
      assert id[i..][1..] == id[i + 1..];
      name := name + NameByte(id[i]);
    }
    assert name + "" == name;
    if name == "" { name := "checkpoint"; }
    name := name + Extension;
  }

  // ---------- Distinct ids, distinct names ----------

  lemma HexUpperInjective(a: nat, b: nat)
    requires a < 16 && b < 16 && CS.HexUpper(a) == CS.HexUpper(b)
    ensures a == b
  {
  }

  /** The first byte of a name tells the first byte of the id, and how much of the name it took. */
  lemma NameByteInjective(a: char, b: char, s: string, t: string)
    requires a as nat < 256 && b as nat < 256 && NameByte(a) + s == NameByte(b) + t
    ensures a == b && s == t
  {
    hide CS.HexUpper;
    var u := NameByte(a) + s;
    assert u[0] == NameByte(a)[0] == NameByte(b)[0];
    if !IsSafe(a) {
      assert u[1] == NameByte(a)[1] == NameByte(b)[1] && u[2] == NameByte(a)[2] == NameByte(b)[2];
      HexUpperInjective(a as nat / 16 % 16, b as nat / 16 % 16);
      HexUpperInjective(a as nat % 16, b as nat % 16);
      assert a as nat == b as nat;
    }
    assert u[|NameByte(a)|..] == s && u[|NameByte(b)|..] == t;
  }

  lemma {:induction false} NameTextInjective(a: string, b: string)
    requires Bytes(a) && Bytes(b) && NameText(a) == NameText(b)
    ensures a == b
  {
    hide NameByte;
    NameTextEmpty(a);
    NameTextEmpty(b);
    if a != "" && b != "" {
      NameByteInjective(a[0], b[0], NameText(a[1..]), NameText(b[1..]));
      NameTextInjective(a[1..], b[1..]);
      assert a == [a[0]] + a[1..] && b == [b[0]] + b[1..];
    }
  }

  lemma NameTextEmpty(id: string)
    ensures NameText(id) == "" <==> id == ""
  {
  }

  lemma {:induction false} SafeText(id: string)
    requires forall i :: 0 <= i < |id| ==> IsSafe(id[i])
    ensures NameText(id) == id
  {
    if id != "" {
      SafeText(id[1..]);
      assert id == [id[0]] + id[1..];
    }
  }

  /** Two ids share a file name only if they are the same, or one is empty and the other is the default name. */
  lemma FileNamesCollide(a: string, b: string)
    requires Bytes(a) && Bytes(b)
    ensures FileName(a) == FileName(b) <==> a == b || (a == "" && b == "checkpoint") || (a == "checkpoint" && b == "")
  {
    hide NameText;
    NameTextEmpty(a);
    NameTextEmpty(b);
    SafeText("checkpoint");
    var x := if NameText(a) == "" then "checkpoint" else NameText(a);
    var y := if NameText(b) == "" then "checkpoint" else NameText(b);
    if FileName(a) == FileName(b) {
      assert FileName(a)[..|FileName(a)| - |Extension|] == x && FileName(b)[..|FileName(b)| - |Extension|] == y;
      if a != "" && b != "" { NameTextInjective(a, b); }
      if a == "" && b != "" { NameTextInjective("checkpoint", b); }
      if a != "" && b == "" { NameTextInjective(a, "checkpoint"); }
    }
  }

  // ---------- Names in the order of offsets ----------

  /** The last w decimal digits of a number. */
  function Fixed(n: nat, w: nat): string {
    if w == 0 then "" else Fixed(n / 10, w - 1) + ['0' + (n % 10) as char]
  }

  function Zeros(w: nat): string {
    seq(w, _ => '0')
  }

  /** A number in decimal, padded on the left with zeros. */
  function Padded(n: nat, w: nat): string {
    var t := CS.NatText(n);
    if |t| >= w then t else Zeros(w - |t|) + t
  }

  function Pow10(w: nat): nat {
    if w == 0 then 1 else 10 * Pow10(w - 1)
  }

  lemma {:induction false} FixedZero(w: nat)
    ensures Fixed(0, w) == Zeros(w)
  {
    if w > 0 {
      FixedZero(w - 1);
      assert Zeros(w) == Zeros(w - 1) + ['0'];
    }
  }

  lemma {:induction false} FixedLength(n: nat, w: nat)
    ensures |Fixed(n, w)| == w
  {
    if w > 0 { FixedLength(n / 10, w - 1); }
  }

  /** Padding to a width that is wide enough writes exactly that many digits. */
  lemma {:induction false} PaddedFixed(n: nat, w: nat)
    requires n < Pow10(w) && w > 0
    ensures |CS.NatText(n)| <= w && Padded(n, w) == Fixed(n, w)
    decreases w
  {
    var t := CS.NatText(n);
    if n < 10 {
      FixedZero(w - 1);
      assert n / 10 == 0 && n % 10 == n;
      if w == 1 { assert Zeros(0) == ""; }
    } else {
      assert w > 1 by { assert Pow10(1) == 10 * Pow10(0); }
      PaddedFixed(n / 10, w - 1);
      var u := CS.NatText(n / 10);
      if |u| < w - 1 {
        assert Zeros(w - |t|) + t == (Zeros(w - 1 - |u|) + u) + ['0' + (n % 10) as char];
      }
    }
  }

  lemma {:induction false} LessExtends(x: string, y: string, u: string, v: string)
    requires |x| == |y| && Less(x, y)
    ensures Less(x + u, y + v)
  {
    if x[0] == y[0] {
      LessExtends(x[1..], y[1..], u, v);
      assert (x + u)[1..] == x[1..] + u && (y + v)[1..] == y[1..] + v;
    }
  }

  lemma {:induction false} LessAfter(p: string, u: string, v: string)
    requires Less(u, v)
    ensures Less(p + u, p + v)
  {
    if p == "" {
      assert p + u == u && p + v == v;
    } else {
      LessAfter(p[1..], u, v);
      assert (p + u)[1..] == p[1..] + u && (p + v)[1..] == p[1..] + v;
    }
  }

  lemma {:induction false} FixedOrder(a: nat, b: nat, w: nat)
    requires a < b < Pow10(w)
    ensures Less(Fixed(a, w), Fixed(b, w))
  {
    FixedLength(a / 10, w - 1);
    FixedLength(b / 10, w - 1);
    var u, v := ['0' + (a % 10) as char], ['0' + (b % 10) as char];
    if a / 10 < b / 10 {
      FixedOrder(a / 10, b / 10, w - 1);
      LessExtends(Fixed(a / 10, w - 1), Fixed(b / 10, w - 1), u, v);
    } else {
      LessAfter(Fixed(a / 10, w - 1), u, v);
    }
  }

  /** The id of a checkpoint: its source, then its offset in twenty digits. */
  function CheckpointId(source: string, next: nat): string {
    source + "-o" + Padded(next, 20)
  }

  lemma {:induction false} NameTextAppend(a: string, b: string)
    ensures NameText(a + b) == NameText(a) + NameText(b)
  {
    hide NameByte;
    if a == "" {
      assert a + b == b;
    } else {
      assert (a + b)[1..] == a[1..] + b;
      NameTextAppend(a[1..], b);
    }
  }

  lemma {:induction false} FixedDigits(n: nat, w: nat)
    ensures forall i :: 0 <= i < |Fixed(n, w)| ==> '0' <= Fixed(n, w)[i] <= '9'
  {
    if w > 0 { FixedDigits(n / 10, w - 1); }
  }

  /** For one source, a later offset has the greater file name, so the greatest name is the latest checkpoint. */
  lemma NamesInOffsetOrder(source: string, a: nat, b: nat)
    requires a < b < Pow10(20)
    ensures Less(FileName(CheckpointId(source, a)), FileName(CheckpointId(source, b)))
  {
    hide NameText, Fixed, Padded, Pow10, Less;
    PaddedFixed(a, 20);
    PaddedFixed(b, 20);
    FixedLength(a, 20);
    FixedLength(b, 20);
    FixedOrder(a, b, 20);
    NameOf(source, a);
    NameOf(source, b);
    var p, x, y := NameText(source + "-o"), Fixed(a, 20), Fixed(b, 20);
    LessExtends(x, y, Extension, Extension);
    LessAfter(p, x + Extension, y + Extension);
    assert (p + x) + Extension == p + (x + Extension) && (p + y) + Extension == p + (y + Extension);
  }

  lemma NameOf(source: string, n: nat)
    requires Padded(n, 20) == Fixed(n, 20)
    ensures FileName(CheckpointId(source, n)) == NameText(source + "-o") + Fixed(n, 20) + Extension
  {
    hide NameByte, NameText, Padded, Fixed;
    FixedDigits(n, 20);
    FixedLength(n, 20);
    SafeText(Fixed(n, 20));
    NameTextAppend(source + "-o", Fixed(n, 20));
    NameTextEmpty(CheckpointId(source, n));
  }
}
