/** The parser accepts exactly the texts of the grammar's trees, and gives their meaning. */
module JsonGrammarLaws {
  import opened Types
  import opened JsonSpec
  import opened JsonLaws
  import opened JsonGrammar

  // ---------- Space ----------

  lemma {:induction false} SkipExact(w: string, t: string)
    requires Spaces(w) && (t != "" ==> !IsSpace(t[0]))
    ensures SkipSpace(w + t) == t
  {
    if w == "" {
      assert w + t == t;
    } else {
      assert forall c <- w[1..] :: c in w;
      assert w[0] in w && (w + t)[1..] == w[1..] + t;
      SkipExact(w[1..], t);
    }
  }

  lemma {:induction false} SkipSplit(t: string) returns (w: string)
    ensures Spaces(w) && t == w + SkipSpace(t) && (SkipSpace(t) != "" ==> !IsSpace(SkipSpace(t)[0]))
  {
    if t != "" && IsSpace(t[0]) {
      var more := SkipSplit(t[1..]);
      w := [t[0]] + more;
      assert t == [t[0]] + t[1..];
    } else {
      w := "";
      assert t == "" + t;
    }
  }

  lemma SkipAll(w: string)
    requires Spaces(w)
    ensures SkipSpace(w) == ""
  {
    SkipExact(w, "");
    assert w + "" == w;
  }

  /** Leading space does not matter to a value. */
  lemma SkipTwice(t: string)
    ensures SkipSpace(SkipSpace(t)) == SkipSpace(t)
    ensures Value(SkipSpace(t)) == Value(t)
  {
    hide Chars, Fields, Items, ParseNumber, Literal, SkipSpace, Starts;
    var w := SkipSplit(t);
    var u := SkipSpace(t);
    assert "" + u == u;
    SkipExact("", u);
  }

  // ---------- Strings ----------

  lemma HexMeans(c: char)
    ensures HexValue(c) == if IsHex(c) then Some(HexOf(c)) else None
  {
  }

  lemma FourDigits(t: string)
    ensures HexUnit(t).Some? <==> |t| >= 4 && FourHex(t[..4])
    ensures HexUnit(t).Some? ==> HexUnit(t).value == (UnitOf(t[..4]), t[4..])
  {
    hide HexValue, HexOf, IsHex;
    HexSteps(t, 4, 0);
    if |t| >= 1 {
      HexMeans(t[0]);
      HexSteps(t[1..], 3, HexOr(t[0]));
    }
    if |t| >= 2 {
      HexMeans(t[1]);
      HexSteps(t[2..], 2, 16 * HexOr(t[0]) + HexOr(t[1]));
    }
    if |t| >= 3 {
      HexMeans(t[2]);
      HexSteps(t[3..], 1, 16 * (16 * HexOr(t[0]) + HexOr(t[1])) + HexOr(t[2]));
    }
    if |t| >= 4 {
      HexMeans(t[3]);
      assert HexDigits(t[4..], 0, 16 * (16 * (16 * HexOr(t[0]) + HexOr(t[1])) + HexOr(t[2])) + HexOr(t[3]))
             == Some((16 * (16 * (16 * HexOr(t[0]) + HexOr(t[1])) + HexOr(t[2])) + HexOr(t[3]), t[4..]));
    }
  }

  function HexOr(c: char): nat {
    if HexValue(c).Some? then HexValue(c).value else 0
  }

  lemma HexSteps(t: string, n: nat, value: nat)
    requires n > 0
    ensures HexDigits(t, n, value)
            == if t == "" || HexValue(t[0]).None? then None else HexDigits(t[1..], n - 1, 16 * value + HexOr(t[0]))
  {
  }

  lemma UnitExact(h: string, t: string)
    requires FourHex(h)
    ensures HexUnit(h + t) == Some((UnitOf(h), t))
  {
    hide HexUnit;
    assert (h + t)[..4] == h && (h + t)[4..] == t;
    FourDigits(h + t);
  }

  lemma PointExact(h: string, t: string)
    requires PieceOk(Point(h))
    ensures Unicode(h + t) == Some((Bytes(Point(h)), t))
  {
    hide HexUnit, FourHex, UnitOf, Utf8;
    UnitExact(h, t);
    CodeBound(Point(h));
  }

  lemma PairExact(h: string, l: string, t: string)
    requires PieceOk(Pair(h, l))
    ensures Unicode(h + ("\\u" + (l + t))) == Some((Bytes(Pair(h, l)), t))
  {
    hide HexUnit, FourHex, UnitOf, Utf8;
    UnitExact(h, "\\u" + (l + t));
    assert ("\\u" + (l + t))[2..] == l + t;
    UnitExact(l, t);
    CodeBound(Pair(h, l));
  }

  /** A code unit or a surrogate pair, after its `u`. */
  lemma UnicodeExact(p: Piece, t: string)
    requires PieceOk(p) && (p.Point? || p.Pair?)
    ensures Unicode(PieceText(p)[2..] + t) == Some((Bytes(p), t))
  {
    hide Unicode, PieceOk, Bytes;
    match p
    case Point(h) =>
      assert PieceText(p)[2..] == h;
      PointExact(h, t);
    case Pair(h, l) =>
      assert PieceText(p)[2..] == h + ("\\u" + l);
      assert PieceText(p)[2..] + t == h + ("\\u" + (l + t));
      PairExact(h, l, t);
  }

  lemma UnicodeSplit(t: string) returns (p: Piece)
    requires Unicode(t).Some?
    ensures PieceOk(p) && (p.Point? || p.Pair?) && t == PieceText(p)[2..] + Unicode(t).value.1 && Bytes(p) == Unicode(t).value.0
  {
    hide HexUnit, HexOf, IsHex, Utf8;
    FourDigits(t);
    var h, rest := t[..4], t[4..];
    assert t == h + rest;
    var n := UnitOf(h);
    if 0xD800 <= n <= 0xDBFF {
      FourDigits(rest[2..]);
      var l := rest[2..][..4];
      assert rest == "\\u" + (l + rest[2..][4..]);
      p := Pair(h, l);
      assert PieceText(p)[2..] == h + ("\\u" + l);
    } else {
      p := Point(h);
      assert PieceText(p)[2..] == h;
    }
  }

  lemma ShortExact(c: char, t: string)
    requires PieceOk(Short(c))
    ensures Escape([c] + t) == Some((Bytes(Short(c)), t))
  {
    hide Unicode;
    assert ([c] + t)[1..] == t;
  }

  lemma PointEscape(t: string)
    ensures Escape("u" + t) == Unicode(t)
  {
    hide Unicode;
    assert ("u" + t)[1..] == t;
  }

  lemma EscapeExact(p: Piece, t: string)
    requires PieceOk(p) && !p.Plain?
    ensures Escape(PieceText(p)[1..] + t) == Some((Bytes(p), t))
  {
    hide Escape, Unicode, PieceOk, Bytes, PieceText;
    if p.Short? {
      ShortText(p.c);
      ShortExact(p.c, t);
    } else {
      UnicodeExact(p, t);
      UnitText(p);
      var x := PieceText(p)[2..];
      AfterSlash(x);
      assert ("u" + x) + t == "u" + (x + t);
      PointEscape(x + t);
    }
  }

  lemma UnitText(p: Piece)
    requires PieceOk(p) && (p.Point? || p.Pair?)
    ensures PieceText(p) == "\\u" + PieceText(p)[2..]
  {
    hide PieceOk;
    if p.Pair? { assert PieceText(p)[2..] == p.high + ("\\u" + p.low); }
  }

  lemma ShortSplit(t: string)
    requires Escape(t).Some? && t[0] != 'u'
    ensures PieceOk(Short(t[0])) && Escape(t).value == (Bytes(Short(t[0])), t[1..])
  {
    hide Unicode;
  }

  lemma PointSplit(t: string)
    requires Escape(t).Some?
    ensures t != "" && (t[0] == 'u' ==> Escape(t) == Unicode(t[1..]))
  {
    hide Unicode;
  }

  lemma AfterSlash(x: string)
    ensures ("\\u" + x)[1..] == "u" + x && forall c :: (['\\', c])[1..] == [c]
  {
  }

  lemma EscapeSplit(t: string) returns (p: Piece)
    requires Escape(t).Some?
    ensures PieceOk(p) && !p.Plain? && t == PieceText(p)[1..] + Escape(t).value.1 && Bytes(p) == Escape(t).value.0
  {
    hide Unicode, Escape, PieceOk, Bytes, PieceText;
    PointSplit(t);
    Heads(t);
    if t[0] == 'u' {
      p := UnicodeSplit(t[1..]);
      UnitText(p);
      AfterSlash(PieceText(p)[2..]);
    } else {
      ShortSplit(t);
      p := Short(t[0]);
      ShortText(t[0]);
    }
  }

  lemma ShortText(c: char)
    ensures PieceText(Short(c))[1..] == [c]
  {
  }

  lemma {:induction false} CharsExact(ps: seq<Piece>, rest: string)
    requires PiecesOk(ps)
    ensures Chars(PiecesText(ps) + ("\"" + rest)) == Some((PiecesBytes(ps), rest))
  {
    hide Escape, PieceText, Bytes;
    var t := PiecesText(ps) + ("\"" + rest);
    if ps == [] {
      assert t == "\"" + rest && t[1..] == rest;
    } else {
      var more := PiecesText(ps[1..]) + ("\"" + rest);
      assert ps[0] in ps;
      CharsExact(ps[1..], rest);
      assert t == PieceText(ps[0]) + more;
      OnePiece(ps[0], more);
    }
  }

  lemma CharsEscape(e: string)
    ensures Chars("\\" + e) == if Escape(e).None? || Chars(Escape(e).value.1).None? then None
                               else Some((Escape(e).value.0 + Chars(Escape(e).value.1).value.0, Chars(Escape(e).value.1).value.1))
  {
    hide Escape;
    assert ("\\" + e)[1..] == e;
  }

  lemma CharsPlain(c: char, t: string)
    requires PieceOk(Plain(c))
    ensures Chars([c] + t) == if Chars(t).None? then None else Some(([c] + Chars(t).value.0, Chars(t).value.1))
  {
    assert ([c] + t)[1..] == t;
  }

  lemma OnePiece(p: Piece, t: string)
    requires PieceOk(p) && Chars(t).Some?
    ensures Chars(PieceText(p) + t) == Some((Bytes(p) + Chars(t).value.0, Chars(t).value.1))
  {
    hide Escape, PieceOk, Bytes, Chars, PieceText;
    if p.Plain? {
      PlainText(p.c);
      CharsPlain(p.c, t);
    } else {
      EscapeExact(p, t);
      EscapeFirst(p);
      assert PieceText(p) + t == "\\" + (PieceText(p)[1..] + t);
      CharsEscape(PieceText(p)[1..] + t);
    }
  }

  lemma EscapeFirst(p: Piece)
    requires PieceOk(p) && !p.Plain?
    ensures PieceText(p) != "" && PieceText(p)[0] == '\\'
    ensures PieceText(p) == "\\" + PieceText(p)[1..]
  {
    hide PieceOk;
    if p.Short? { assert PieceText(p)[1..] == [p.c]; } else { UnitText(p); }
  }

  lemma PiecesCons(p: Piece, more: seq<Piece>, end: string)
    requires PieceOk(p) && PiecesOk(more)
    ensures PiecesOk([p] + more) && PiecesBytes([p] + more) == Bytes(p) + PiecesBytes(more)
    ensures PiecesText([p] + more) + end == PieceText(p) + (PiecesText(more) + end)
  {
    hide PieceText, Bytes, PieceOk;
    assert ([p] + more)[1..] == more;
  }

  /** What the rest of a string begins with. */
  lemma CharsHead(t: string)
    requires Chars(t).Some?
    ensures t != ""
    ensures t[0] == '\"' ==> Chars(t).value == ("", t[1..])
    ensures t[0] == '\\' ==>
              && Escape(t[1..]).Some? && Chars(Escape(t[1..]).value.1).Some?
              && Chars(t).value == (Escape(t[1..]).value.0 + Chars(Escape(t[1..]).value.1).value.0,
                                    Chars(Escape(t[1..]).value.1).value.1)
    ensures t[0] != '\"' && t[0] != '\\' ==>
              && PieceOk(Plain(t[0])) && Chars(t[1..]).Some?
              && Chars(t).value == ([t[0]] + Chars(t[1..]).value.0, Chars(t[1..]).value.1)
  {
    hide Escape;
  }

  lemma {:induction false} CharsSplit(t: string) returns (ps: seq<Piece>)
    requires Chars(t).Some?
    ensures PiecesOk(ps) && PiecesBytes(ps) == Chars(t).value.0 && t == PiecesText(ps) + ("\"" + Chars(t).value.1)
    decreases |t|
  {
    hide Escape, PieceText, Bytes, Chars, PieceOk;
    CharsHead(t);
    Heads(t);
    var end := "\"" + Chars(t).value.1;
    if t[0] == '\"' {
      ps := [];
    } else if t[0] == '\\' {
      var p := EscapeSplit(t[1..]);
      EscapeFirst(p);
      var rest := Escape(t[1..]).value.1;
      var more := CharsSplit(rest);
      ps := [p] + more;
      PiecesCons(p, more, end);
      assert t == PieceText(p) + rest;
    } else {
      var more := CharsSplit(t[1..]);
      ps := [Plain(t[0])] + more;
      PiecesCons(Plain(t[0]), more, end);
      PlainText(t[0]);
    }
  }

  lemma PlainText(c: char)
    ensures PieceText(Plain(c)) == [c]
    ensures PieceOk(Plain(c)) ==> Bytes(Plain(c)) == [c]
  {
  }

  // ---------- Numbers ----------

  predicate AllDigits(d: string) {
    forall c <- d :: '0' <= c <= '9'
  }

  /** The text cannot go on with a number. */
  predicate NumberEnds(t: string) {
    t == "" || !('0' <= t[0] <= '9' || t[0] == '.' || t[0] == 'e' || t[0] == 'E')
  }

  lemma {:induction false} DropExact(d: string, t: string)
    requires AllDigits(d) && (t != "" ==> !IsDigit(t[0]))
    ensures DropDigits(d + t) == t
  {
    if d == "" {
      assert d + t == t;
    } else {
      assert forall c <- d[1..] :: c in d;
      assert d[0] in d && (d + t)[1..] == d[1..] + t;
      DropExact(d[1..], t);
    }
  }

  lemma {:induction false} DropSplit(t: string) returns (d: string)
    ensures AllDigits(d) && t == d + DropDigits(t) && (t != "" && IsDigit(t[0]) ==> d != "" && d[0] == t[0])
  {
    if t != "" && IsDigit(t[0]) {
      var more := DropSplit(t[1..]);
      d := [t[0]] + more;
      assert t == [t[0]] + t[1..];
    } else {
      d := "";
      assert t == "" + t;
    }
  }

  lemma SomeExact(d: string, t: string)
    requires Digits(d) && (t != "" ==> !IsDigit(t[0]))
    ensures SomeDigits(d + t) == Some(t)
  {
    assert d[0] in d && (d + t)[0] == d[0];
    DropExact(d, t);
  }

  lemma FractionExact(f: string, t: string)
    requires FractionOk(f) && (t != "" ==> !IsDigit(t[0]) && t[0] != '.')
    ensures Fraction(f + t) == Some(t)
  {
    if f == "" {
      assert f + t == t;
    } else {
      assert (f + t)[1..] == f[1..] + t;
      SomeExact(f[1..], t);
    }
  }

  lemma ExponentExact(e: string, t: string)
    requires ExponentOk(e) && NumberEnds(t)
    ensures Exponent(e + t) == Some(t)
  {
    if e == "" {
      assert e + t == t;
    } else {
      assert (e + t)[1..] == e[1..] + t;
      if Digits(e[1..]) {
        assert e[1] in e[1..];
        SomeExact(e[1..], t);
      } else {
        assert (e + t)[2..] == e[2..] + t;
        SomeExact(e[2..], t);
      }
    }
  }

  lemma TailExact(f: string, e: string, t: string)
    requires FractionOk(f) && ExponentOk(e) && NumberEnds(t)
    ensures Tail(f + (e + t)) == Some(t)
  {
    hide Fraction, Exponent;
    if e == "" { assert e + t == t; }
    FractionExact(f, e + t);
    ExponentExact(e, t);
  }

  /** What follows a number without its sign. */
  function Unsigned(u: string): Option<string> {
    if u == "" then None
    else if u[0] == '0' then if u[1..] != "" && IsDigit(u[1]) then None else Tail(u[1..])
    else if IsDigit(u[0]) then Tail(DropDigits(u))
    else None
  }

  lemma SignExact(minus: string, u: string)
    requires (minus == "" || minus == "-") && !Starts(u, '-')
    ensures NumberRest(minus + u) == Unsigned(u)
  {
    hide Tail;
    if minus == "" { assert minus + u == u; } else { assert (minus + u)[1..] == u; }
  }

  lemma WholeExact(w: string, more: string)
    requires WholeOk(w) && (more != "" ==> !IsDigit(more[0]))
    ensures Unsigned(w + more) == Tail(more) && !Starts(w + more, '-')
  {
    hide Tail;
    if w == "0" {
      assert (w + more)[1..] == more;
    } else {
      assert w[0] in w;
      DropExact(w, more);
    }
  }

  lemma NumberText(n: Tree, t: string)
    requires n.Number?
    ensures TreeText(n) + t == n.minus + (n.whole + (n.fraction + (n.exponent + t)))
  {
    Regroup(n.minus, n.whole, n.fraction + n.exponent, t);
  }

  lemma NumberParsed(text: string, t: string)
    requires NumberRest(text + t) == Some(t)
    ensures ParseNumber(text + t) == Some((JNumber(text), t))
  {
    hide NumberRest;
    assert (text + t)[..|text|] == text;
  }

  lemma NumberExact(n: Tree, t: string)
    requires n.Number? && TreeOk(n) && NumberEnds(t)
    ensures ParseNumber(TreeText(n) + t) == Some((JNumber(TreeText(n)), t))
  {
    hide Tail, FractionOk, ExponentOk, WholeOk, NumberRest, Unsigned, NumberEnds, TreeText, ParseNumber;
    NumberParts(n);
    var more := n.fraction + (n.exponent + t);
    TailExact(n.fraction, n.exponent, t);
    TailNoDigit(n.fraction, n.exponent, t);
    WholeExact(n.whole, more);
    SignExact(n.minus, n.whole + more);
    NumberText(n, t);
    NumberParsed(TreeText(n), t);
  }

  lemma NumberParts(n: Tree)
    requires n.Number? && TreeOk(n)
    ensures (n.minus == "" || n.minus == "-") && WholeOk(n.whole) && FractionOk(n.fraction) && ExponentOk(n.exponent)
  {
  }

  lemma TailNoDigit(f: string, e: string, t: string)
    requires FractionOk(f) && ExponentOk(e) && NumberEnds(t)
    ensures var more := f + (e + t); more != "" ==> !IsDigit(more[0])
  {
  }

  lemma FractionSplit(t: string) returns (f: string)
    requires Fraction(t).Some?
    ensures FractionOk(f) && t == f + Fraction(t).value
  {
    if Starts(t, '.') {
      var d := DropSplit(t[1..]);
      f := "." + d;
      assert f[1..] == d;
      assert t == "." + t[1..];
    } else {
      f := "";
      assert t == "" + t;
    }
  }

  lemma SignedExponent(mark: string, d: string)
    requires (mark == "e" || mark == "E") && Digits(d)
    ensures ExponentOk(mark + d) && ExponentOk(mark + ("+" + d)) && ExponentOk(mark + ("-" + d))
  {
    assert (mark + d)[1..] == d && (mark + ("+" + d))[2..] == d && (mark + ("-" + d))[2..] == d;
  }

  lemma SomeSplit(t: string) returns (d: string)
    requires SomeDigits(t).Some?
    ensures Digits(d) && t == d + SomeDigits(t).value
  {
    d := DropSplit(t);
  }

  lemma Heads(t: string)
    requires t != ""
    ensures t == [t[0]] + t[1..]
    ensures |t| > 1 ==> t == [t[0]] + ([t[1]] + t[2..])
  {
  }

  /** What an exponent begins with. */
  lemma ExponentHead(t: string)
    requires Exponent(t).Some?
    ensures StartsExponent(t) ==>
              && ([t[0]] == "e" || [t[0]] == "E")
              && if |t| > 1 && (t[1] == '+' || t[1] == '-') then SomeDigits(t[2..]) == Exponent(t) else SomeDigits(t[1..]) == Exponent(t)
    ensures !StartsExponent(t) ==> Exponent(t).value == t
  {
    hide SomeDigits;
  }

  lemma ExponentSplit(t: string) returns (e: string)
    requires Exponent(t).Some?
    ensures ExponentOk(e) && t == e + Exponent(t).value
  {
    hide ExponentOk, Digits, SomeDigits, Exponent;
    ExponentHead(t);
    if StartsExponent(t) {
      Heads(t);
      if |t| > 1 && (t[1] == '+' || t[1] == '-') {
        var d := SomeSplit(t[2..]);
        SignedExponent([t[0]], d);
        e := [t[0]] + ([t[1]] + d);
        Regroup([t[0]], [t[1]], d, Exponent(t).value);
        assert [t[1]] == "+" || [t[1]] == "-";
      } else {
        var d := SomeSplit(t[1..]);
        SignedExponent([t[0]], d);
        e := [t[0]] + d;
      }
    } else {
      NoExponent();
      e := "";
    }
  }

  lemma NoExponent()
    ensures ExponentOk("")
  {
  }

  lemma TailSplit(t: string) returns (f: string, e: string)
    requires Tail(t).Some?
    ensures FractionOk(f) && ExponentOk(e) && t == f + (e + Tail(t).value)
  {
    hide Fraction, Exponent;
    f := FractionSplit(t);
    e := ExponentSplit(Fraction(t).value);
  }

  lemma WholeSplit(u: string) returns (w: string, rest: string)
    requires u != "" && (if u[0] == '0' then u[1..] == "" || !IsDigit(u[1]) else IsDigit(u[0]))
    ensures WholeOk(w) && u == w + rest && rest == if u[0] == '0' then u[1..] else DropDigits(u)
  {
    if u[0] == '0' {
      w, rest := "0", u[1..];
      assert u == "0" + u[1..];
    } else {
      w := DropSplit(u);
      rest := DropDigits(u);
    }
  }

  lemma NumberSplit(t: string) returns (n: Tree)
    requires ParseNumber(t).Some?
    ensures n.Number? && TreeOk(n) && t == TreeText(n) + ParseNumber(t).value.1 && ParseNumber(t).value.0 == JNumber(TreeText(n))
  {
    hide Tail, FractionOk, ExponentOk, WholeOk, TreeText;
    var minus := if Starts(t, '-') then "-" else "";
    var u := if Starts(t, '-') then t[1..] else t;
    assert t == minus + u;
    var w, more := WholeSplit(u);
    var f, e := TailSplit(more);
    n := Number(minus, w, f, e);
    NumberJoined(t, n, NumberRest(t).value);
  }

  lemma NumberJoined(t: string, n: Tree, rest: string)
    requires n.Number? && t == n.minus + (n.whole + (n.fraction + (n.exponent + rest)))
    ensures t == TreeText(n) + rest && t[..|t| - |rest|] == TreeText(n)
  {
    assert t == TreeText(n) + rest;
  }

  // ---------- Members by key ----------

  /** What inserting a member into ascending fields gives. */
  ghost predicate Inserted(fields: seq<Member>, key: string, value: Json, r: Option<seq<Member>>) {
    && (r.None? <==> exists m <- fields :: m.key == key)
    && (r.Some? ==> Ascends(r.value) && forall m :: m in r.value <==> m in fields || m == Member(key, value))
  }

  lemma InsertedFirst(fields: seq<Member>, key: string, value: Json)
    requires Ascends(fields) && (fields != [] ==> Less(key, fields[0].key))
    ensures Inserted(fields, key, value, Some([Member(key, value)] + fields))
  {
    forall m | m in fields ensures Less(key, m.key) {
      var i :| 0 <= i < |fields| && fields[i] == m;
      if i > 0 { LessTransitive(key, fields[0].key, m.key); }
    }
    KeyApart(fields, key);
  }

  lemma InsertedLater(fields: seq<Member>, key: string, value: Json, r: Option<seq<Member>>)
    requires Ascends(fields) && fields != [] && fields[0].key != key && !Less(key, fields[0].key)
    requires Inserted(fields[1..], key, value, r)
    ensures Inserted(fields, key, value, if r.None? then None else Some([fields[0]] + r.value))
  {
    LessTotal(key, fields[0].key);
    assert fields == [fields[0]] + fields[1..];
    if r.Some? {
      var rest := r.value;
      forall j | 0 <= j < |rest| ensures Less(fields[0].key, rest[j].key) {
        assert rest[j] in rest;
        if rest[j] in fields[1..] {
          var i :| 0 <= i < |fields[1..]| && fields[1..][i] == rest[j];
          assert fields[i + 1] == rest[j];
        }
      }
    } else {
      var m :| m in fields[1..] && m.key == key;
      assert m in fields;
    }
  }

  lemma {:induction false} InsertFieldLaw(fields: seq<Member>, key: string, value: Json)
    requires Ascends(fields)
    ensures Inserted(fields, key, value, InsertField(fields, key, value))
  {
    hide Ascends, Inserted, Less;
    if fields == [] || Less(key, fields[0].key) {
      InsertedFirst(fields, key, value);
    } else if fields[0].key != key {
      AscendsTail(fields);
      InsertFieldLaw(fields[1..], key, value);
      InsertedLater(fields, key, value, InsertField(fields[1..], key, value));
    } else {
      InsertedTwice(fields, value);
    }
  }

  lemma InsertedTwice(fields: seq<Member>, value: Json)
    requires fields != []
    ensures Inserted(fields, fields[0].key, value, None)
  {
    assert fields[0] in fields;
  }

  lemma AscendsTail(fields: seq<Member>)
    requires Ascends(fields) && fields != []
    ensures Ascends(fields[1..])
  {
  }

  lemma KeyApart(fields: seq<Member>, key: string)
    requires forall m <- fields :: Less(key, m.key)
    ensures forall m <- fields :: m.key != key
  {
    forall m <- fields ensures m.key != key { LessAsymmetric(key, m.key); }
  }

  lemma SortsNone()
    ensures Sorts([], [])
  {
  }

  /** Reading one more member. */
  lemma InsertSorts(fields: seq<Member>, read: seq<Member>, m: Member)
    requires Sorts(fields, read)
    ensures InsertField(fields, m.key, m.value).Some? <==> forall x <- read :: x.key != m.key
    ensures InsertField(fields, m.key, m.value).Some? ==> Sorts(InsertField(fields, m.key, m.value).value, read + [m])
  {
    hide InsertField, Ascends;
    InsertFieldLaw(fields, m.key, m.value);
    if x :| x in fields && x.key == m.key { assert x in read; }
  }

  /** What was read determines the order. */
  lemma {:induction false} SortsOnce(a: seq<Member>, b: seq<Member>)
    requires Ascends(a) && Ascends(b) && forall m :: m in a <==> m in b
    ensures a == b
  {
    if a == [] {
      if b != [] { SomeMember(b); }
    } else {
      assert a[0] in a && a[0] in b;
      assert b[0] in b && b[0] in a;
      var i :| 0 <= i < |b| && b[i] == a[0];
      var j :| 0 <= j < |a| && a[j] == b[0];
      if i > 0 && j > 0 { LessAsymmetric(a[0].key, b[0].key); }
      AscendsTail(a);
      AscendsTail(b);
      TailMembers(a);
      TailMembers(b);
      SortsOnce(a[1..], b[1..]);
    }
  }

  lemma SomeMember(a: seq<Member>)
    requires a != []
    ensures a[0] in a
  {
  }

  lemma TailMembers(a: seq<Member>)
    requires Ascends(a) && a != []
    ensures forall m :: m in a[1..] <==> m in a && m != a[0]
  {
    assert a == [a[0]] + a[1..];
    forall m | m in a[1..] ensures m != a[0] {
      var i :| 0 <= i < |a[1..]| && a[1..][i] == m;
      assert Less(a[0].key, a[i + 1].key);
      LessAsymmetric(a[0].key, m.key);
    }
  }

  /** A part of what is sorted without a repeated key has none either. */
  lemma PrefixApart(read: seq<Member>, m: Member, more: seq<Member>, sorted: seq<Member>)
    requires Sorts(sorted, read + ([m] + more))
    ensures forall x <- read :: x.key != m.key
  {
    hide Ascends;
    var whole := read + ([m] + more);
    assert whole[|read|] == m;
    forall x | x in read ensures x.key != m.key {
      var i :| 0 <= i < |read| && read[i] == x;
      assert whole[i] == x;
    }
  }

  // ---------- Trees are read back ----------

  lemma TreeStarts(t: Tree)
    requires TreeOk(t)
    ensures TreeText(t) != ""
    ensures var c := TreeText(t)[0]; !IsSpace(c) && c != ']' && c != '}' && c != ',' && c != ':'
    ensures t.Number? <==> TreeText(t)[0] == '-' || IsDigit(TreeText(t)[0])
    ensures TreeText(t)[0] == match t case Null => 'n' case True => 't' case False => 'f' case Text(_) => '\"' case Array(_, _) => '['
                              case Object(_, _, _) => '{' case Number(_, _, _, _) => TreeText(t)[0]
  {
    hide SlotsText, EntriesText, PiecesText;
    if t.Number? && t.minus == "" && t.whole != "0" { assert t.whole[0] in t.whole; }
  }

  lemma ValueAt(w: string, u: string)
    requires Spaces(w) && u != "" && !IsSpace(u[0])
    ensures Value(w + u) == Value(u)
  {
    hide Value;
    SkipExact(w, u);
    SkipTwice(w + u);
  }

  /** What the next character makes of a value. */
  lemma ValueStep(u: string)
    requires u != "" && !IsSpace(u[0])
    ensures u[0] == '{' ==> var v := SkipSpace(u[1..]);
                            Value(u) == if Starts(v, '}') then Some((JObject([]), v[1..])) else Fields(v, [])
    ensures u[0] == '[' ==> var v := SkipSpace(u[1..]);
                            Value(u) == if Starts(v, ']') then Some((JArray([]), v[1..])) else Items(v, [])
    ensures u[0] == '\"' ==> Value(u) == if Chars(u[1..]).None? then None
                                         else Some((JString(Chars(u[1..]).value.0), Chars(u[1..]).value.1))
    ensures u[0] == '-' || IsDigit(u[0]) ==> Value(u) == ParseNumber(u)
    ensures u[0] == 't' ==> Value(u) == Literal(u, "true", JBool(true))
    ensures u[0] == 'f' ==> Value(u) == Literal(u, "false", JBool(false))
    ensures u[0] == 'n' ==> Value(u) == Literal(u, "null", JNull)
    ensures u[0] != '{' && u[0] != '[' && u[0] != '\"' && u[0] != '-' && !IsDigit(u[0]) && u[0] != 't' && u[0] != 'f' && u[0] != 'n'
            ==> Value(u) == None
  {
    hide Chars, Fields, Items, ParseNumber, Literal;
    SkipExact("", u);
    assert "" + u == u;
  }

  lemma LiteralExact(word: string, value: Json, rest: string)
    ensures Literal(word + rest, word, value) == Some((value, rest))
  {
  }

  /** A tree other than an array or object is read back. */
  lemma SimpleExact(t: Tree, rest: string)
    requires TreeOk(t) && !t.Array? && !t.Object? && (t.Number? ==> NumberEnds(rest))
    ensures Value(TreeText(t) + rest) == Some((ValueOf(t), rest))
  {
    hide Value, PiecesText, PiecesBytes, Chars, ParseNumber, Literal, WholeOk, FractionOk, ExponentOk;
    TreeStarts(t);
    ValueStep(TreeText(t) + rest);
    match t
    case Null => LiteralExact("null", JNull, rest);
    case True => LiteralExact("true", JBool(true), rest);
    case False => LiteralExact("false", JBool(false), rest);
    case Number(_, _, _, _) => NumberExact(t, rest);
    case Text(ps) =>
      CharsExact(ps, rest);
      assert (TreeText(t) + rest)[1..] == PiecesText(ps) + ("\"" + rest);
  }

  lemma {:induction false} ValueExact(w: string, t: Tree, rest: string)
    requires Spaces(w) && TreeOk(t) && TreeSorted(t) && (t.Number? ==> NumberEnds(rest))
    ensures Value(w + (TreeText(t) + rest)) == Some((ValueOf(t), rest))
    decreases t, 1
  {
    hide Value, TreeText, NumberEnds;
    TreeStarts(t);
    ValueAt(w, TreeText(t) + rest);
    match t
    case Array(gap, slots) => ArrayExact(gap, slots, rest);
    case Object(gap, entries, sorted) => ObjectExact(gap, entries, sorted, rest);
    case _ => SimpleExact(t, rest);
  }

  lemma ArrayTree(gap: string, slots: seq<Slot>, rest: string)
    requires Spaces(gap) && SlotsOk(slots) && SlotsSorted(slots)
    ensures Means(Array(gap, slots), JArray(ValuesOf(slots)))
    ensures TreeText(Array(gap, slots)) + rest == "[" + ((if slots == [] then gap else SlotsText(slots)) + ("]" + rest))
  {
    hide SlotsText;
  }

  lemma {:induction false} ArrayExact(gap: string, slots: seq<Slot>, rest: string)
    requires Spaces(gap) && SlotsOk(slots) && SlotsSorted(slots)
    ensures Value(TreeText(Array(gap, slots)) + rest) == Some((JArray(ValuesOf(slots)), rest))
    decreases slots, 2
  {
    hide Value, SlotsText, Items, TreeText;
    ArrayTree(gap, slots, rest);
    var v := (if slots == [] then gap else SlotsText(slots)) + ("]" + rest);
    assert ("[" + v)[1..] == v;
    ValueStep("[" + v);
    if slots == [] {
      SkipExact(gap, "]" + rest);
      assert ("]" + rest)[1..] == rest;
    } else {
      SlotsStart(slots, "]" + rest);
      ItemsExact(slots, rest, []);
      ItemsSkip(v, []);
      assert [] + ValuesOf(slots) == ValuesOf(slots);
    }
  }

  lemma ItemsSkip(t: string, done: seq<Json>)
    ensures Items(SkipSpace(t), done) == Items(t, done)
  {
    hide Value;
    SkipTwice(t);
  }

  lemma FieldsSkip(t: string, done: seq<Member>)
    ensures Fields(SkipSpace(t), done) == Fields(t, done)
  {
    hide Value, Chars;
    SkipTwice(t);
  }

  /** After its space, a list of items begins with a value. */
  lemma SlotsStart(slots: seq<Slot>, more: string)
    requires SlotsOk(slots) && slots != []
    ensures !Starts(SkipSpace(SlotsText(slots) + more), ']')
  {
    hide TreeText;
    var s := slots[0];
    TreeStarts(s.tree);
    var tail := if |slots| == 1 then "" else "," + SlotsText(slots[1..]);
    assert SlotsText(slots) + more == s.before + (TreeText(s.tree) + (s.after + tail + more));
    SkipExact(s.before, TreeText(s.tree) + (s.after + tail + more));
  }

  lemma EntriesStart(entries: seq<Entry>, more: string)
    requires EntriesOk(entries) && entries != []
    ensures !Starts(SkipSpace(EntriesText(entries) + more), '}')
  {
    hide TreeText, PiecesText;
    var e := entries[0];
    var tail := if |entries| == 1 then "" else "," + EntriesText(entries[1..]);
    var after := PiecesText(e.key) + ("\"" + (e.gap + (":" + SlotText(e.slot)))) + tail + more;
    assert EntriesText(entries) + more == e.before + ("\"" + after);
    SkipExact(e.before, "\"" + after);
  }

  /** What follows an item: its space, then a closing bracket or a comma, which end a number. */
  lemma AfterEnds(after: string, c: char, more: string)
    requires Spaces(after) && (c == ']' || c == '}' || c == ',')
    ensures NumberEnds(after + ([c] + more)) && SkipSpace(after + ([c] + more)) == [c] + more
  {
    SkipExact(after, [c] + more);
    if after != "" { assert after[0] in after; } else { assert after + ([c] + more) == [c] + more; }
  }

  /** One item read, and what then remains to be read. */
  lemma ItemsStep(s: Slot, c: char, more: string, done: seq<Json>)
    requires TreeOk(s.tree) && Spaces(s.after) && (c == ']' || c == ',')
    requires Value(s.before + (TreeText(s.tree) + (s.after + ([c] + more)))) == Some((ValueOf(s.tree), s.after + ([c] + more)))
    ensures Items(SlotText(s) + ([c] + more), done)
            == if c == ']' then Some((JArray(done + [ValueOf(s.tree)]), more)) else Items(more, done + [ValueOf(s.tree)])
  {
    hide Value, TreeText;
    AfterEnds(s.after, c, more);
    assert SlotText(s) + ([c] + more) == s.before + (TreeText(s.tree) + (s.after + ([c] + more)));
    assert ([c] + more)[1..] == more;
  }

  lemma {:induction false} ItemsExact(slots: seq<Slot>, rest: string, done: seq<Json>)
    requires slots != [] && SlotsOk(slots) && SlotsSorted(slots)
    ensures Items(SlotsText(slots) + ("]" + rest), done) == Some((JArray(done + ValuesOf(slots)), rest))
    decreases slots, 1
  {
    hide Value, TreeText, Items, SlotText, Spaces;
    var s := slots[0];
    if |slots| == 1 {
      AfterEnds(s.after, ']', rest);
      ValueExact(s.before, s.tree, s.after + ("]" + rest));
      ItemsStep(s, ']', rest, done);
      OneValue(slots);
    } else {
      var more := SlotsText(slots[1..]) + ("]" + rest);
      AfterEnds(s.after, ',', more);
      ValueExact(s.before, s.tree, s.after + ("," + more));
      ItemsStep(s, ',', more, done);
      assert SlotsText(slots) + ("]" + rest) == SlotText(s) + ("," + more);
      ItemsExact(slots[1..], rest, done + [ValueOf(s.tree)]);
      assert done + ValuesOf(slots) == done + [ValueOf(s.tree)] + ValuesOf(slots[1..]);
    }
  }

  lemma OneValue(slots: seq<Slot>)
    requires SlotsOk(slots) && |slots| == 1
    ensures ValuesOf(slots) == [ValueOf(slots[0].tree)]
  {
    assert slots[1..] == [];
  }

  lemma ObjectTree(gap: string, entries: seq<Entry>, sorted: seq<Member>, rest: string)
    requires Spaces(gap) && EntriesOk(entries) && EntriesSorted(entries) && Sorts(sorted, Pairs(entries))
    ensures Means(Object(gap, entries, sorted), JObject(sorted))
    ensures TreeText(Object(gap, entries, sorted)) + rest == "{" + ((if entries == [] then gap else EntriesText(entries)) + ("}" + rest))
  {
    hide EntriesText, Sorts;
  }

  lemma {:induction false} ObjectExact(gap: string, entries: seq<Entry>, sorted: seq<Member>, rest: string)
    requires Spaces(gap) && EntriesOk(entries) && EntriesSorted(entries) && Sorts(sorted, Pairs(entries))
    ensures Value(TreeText(Object(gap, entries, sorted)) + rest) == Some((JObject(sorted), rest))
    decreases entries, 2
  {
    hide Value, EntriesText, Fields, TreeText, Sorts;
    ObjectTree(gap, entries, sorted, rest);
    var v := (if entries == [] then gap else EntriesText(entries)) + ("}" + rest);
    assert ("{" + v)[1..] == v;
    ValueStep("{" + v);
    if entries == [] {
      SkipExact(gap, "}" + rest);
      assert ("}" + rest)[1..] == rest;
      NothingSorted(sorted);
    } else {
      EntriesStart(entries, "}" + rest);
      SortsNone();
      assert [] + Pairs(entries) == Pairs(entries);
      FieldsExact(entries, rest, [], [], sorted);
      FieldsSkip(v, []);
    }
  }

  lemma NothingSorted(sorted: seq<Member>)
    requires Sorts(sorted, [])
    ensures sorted == []
  {
    if sorted != [] { SomeMember(sorted); }
  }

  /** The key of an entry and what stands between it and the value. */
  lemma KeyExact(e: Entry, more: string)
    requires Spaces(e.before) && PiecesOk(e.key) && Spaces(e.gap)
    ensures var t := e.before + ("\"" + (PiecesText(e.key) + ("\"" + (e.gap + (":" + more)))));
            var u := SkipSpace(t);
            && Starts(u, '\"') && Chars(u[1..]).Some? && Chars(u[1..]).value.0 == PiecesBytes(e.key)
            && var c := SkipSpace(Chars(u[1..]).value.1); Starts(c, ':') && c[1..] == more
  {
    hide Chars, PiecesText;
    var after := PiecesText(e.key) + ("\"" + (e.gap + (":" + more)));
    SkipExact(e.before, "\"" + after);
    assert ("\"" + after)[1..] == after;
    CharsExact(e.key, e.gap + (":" + more));
    SkipExact(e.gap, ":" + more);
    assert (":" + more)[1..] == more;
  }

  /** One member read, and what then remains to be read. */
  lemma FieldsStep(e: Entry, after: string, c: char, more: string, done: seq<Member>)
    requires Spaces(e.before) && PiecesOk(e.key) && Spaces(e.gap) && TreeOk(e.slot.tree) && (c == '}' || c == ',')
    requires Spaces(e.slot.after) && after == e.slot.after + ([c] + more)
    requires Value(e.slot.before + (TreeText(e.slot.tree) + after)) == Some((ValueOf(e.slot.tree), after))
    requires InsertField(done, PiecesBytes(e.key), ValueOf(e.slot.tree)).Some?
    ensures var done' := InsertField(done, PiecesBytes(e.key), ValueOf(e.slot.tree)).value;
            Fields(EntryText(e) + ([c] + more), done) == if c == '}' then Some((JObject(done'), more)) else Fields(more, done')
  {
    hide Value, TreeText, Chars, PiecesText, InsertField, PiecesBytes;
    var value := e.slot.before + (TreeText(e.slot.tree) + after);
    KeyExact(e, value);
    AfterEnds(e.slot.after, c, more);
    var t := e.before + ("\"" + (PiecesText(e.key) + ("\"" + (e.gap + (":" + value)))));
    EntryJoined(e, c, more);
    assert EntryText(e) + ([c] + more) == t;
    assert ([c] + more)[1..] == more;
  }

  lemma EntryJoined(e: Entry, c: char, more: string)
    ensures var value := e.slot.before + (TreeText(e.slot.tree) + (e.slot.after + ([c] + more)));
            EntryText(e) + ([c] + more) == e.before + ("\"" + (PiecesText(e.key) + ("\"" + (e.gap + (":" + value)))))
  {
    hide TreeText, PiecesText;
    var slot := SlotText(e.slot);
    var value := e.slot.before + (TreeText(e.slot.tree) + (e.slot.after + ([c] + more)));
    assert slot + ([c] + more) == value;
    var a := "\"" + (e.gap + (":" + slot));
    assert a + ([c] + more) == "\"" + (e.gap + (":" + value));
    Regroup(e.before, "\"", PiecesText(e.key) + a, [c] + more);
    Regroup("\"", PiecesText(e.key), a, [c] + more);
    assert EntryText(e) == e.before + ("\"" + (PiecesText(e.key) + a));
  }

  lemma Commas(a: string, b: string, c: string)
    ensures (a + ("," + b)) + c == a + ("," + (b + c))
  {
  }

  lemma EntriesParts(entries: seq<Entry>)
    requires entries != [] && EntriesOk(entries) && EntriesSorted(entries)
    ensures var e := entries[0];
            && Spaces(e.before) && PiecesOk(e.key) && Spaces(e.gap) && Spaces(e.slot.before) && Spaces(e.slot.after)
            && TreeOk(e.slot.tree) && TreeSorted(e.slot.tree) && EntriesOk(entries[1..]) && EntriesSorted(entries[1..])
            && Pairs(entries) == [Member(PiecesBytes(e.key), ValueOf(e.slot.tree))] + Pairs(entries[1..])
            && EntriesText(entries) == if |entries| == 1 then EntryText(e) else EntryText(e) + ("," + EntriesText(entries[1..]))
    ensures |entries| == 1 ==> Pairs(entries[1..]) == []
  {
    hide EntryText;
  }

  lemma {:induction false} FieldsExact(entries: seq<Entry>, rest: string, done: seq<Member>, read: seq<Member>, sorted: seq<Member>)
    requires entries != [] && EntriesOk(entries) && EntriesSorted(entries)
    requires Sorts(done, read) && Sorts(sorted, read + Pairs(entries))
    ensures Fields(EntriesText(entries) + ("}" + rest), done) == Some((JObject(sorted), rest))
    decreases entries, 1
  {
    hide Value, Fields, EntryText, TreeText, InsertField, PiecesBytes, Sorts, PiecesOk, EntriesText, Pairs, EntriesOk, EntriesSorted,
      Spaces, NumberEnds;
    EntriesParts(entries);
    var e := entries[0];
    var m := Member(PiecesBytes(e.key), ValueOf(e.slot.tree));
    PrefixApart(read, m, Pairs(entries[1..]), sorted);
    InsertSorts(done, read, m);
    var done' := InsertField(done, m.key, m.value).value;
    if |entries| == 1 {
      assert [m] + [] == [m];
      AfterEnds(e.slot.after, '}', rest);
      ValueExact(e.slot.before, e.slot.tree, e.slot.after + ("}" + rest));
      FieldsStep(e, e.slot.after + ("}" + rest), '}', rest, done);
      SameSort(done', sorted, read + [m]);
    } else {
      var more := EntriesText(entries[1..]) + ("}" + rest);
      AfterEnds(e.slot.after, ',', more);
      ValueExact(e.slot.before, e.slot.tree, e.slot.after + ("," + more));
      FieldsStep(e, e.slot.after + ("," + more), ',', more, done);
      Commas(EntryText(e), EntriesText(entries[1..]), "}" + rest);
      Shift(read, m, Pairs(entries[1..]));
      FieldsExact(entries[1..], rest, done', read + [m], sorted);
    }
  }

  lemma SameSort(a: seq<Member>, b: seq<Member>, read: seq<Member>)
    requires Sorts(a, read) && Sorts(b, read)
    ensures a == b
  {
    hide Ascends;
    SortsOnce(a, b);
  }

  // ---------- What is read is a tree ----------

  lemma LiteralSplit(u: string, word: string, value: Json)
    requires Literal(u, word, value).Some?
    ensures u == word + Literal(u, word, value).value.1 && Literal(u, word, value).value.0 == value
  {
  }

  /** A value other than an array or object, without leading space. */
  lemma SimpleSplit(u: string) returns (t: Tree)
    requires u != "" && !IsSpace(u[0]) && u[0] != '{' && u[0] != '[' && Value(u).Some?
    ensures Means(t, Value(u).value.0) && u == TreeText(t) + Value(u).value.1
  {
    hide Value, Chars, ParseNumber, Literal, PiecesText, PiecesBytes;
    ValueStep(u);
    if u[0] == '\"' {
      var ps := CharsSplit(u[1..]);
      t := Text(ps);
      assert u == "\"" + u[1..];
    } else if u[0] == '-' || IsDigit(u[0]) {
      t := NumberSplit(u);
    } else if u[0] == 't' {
      LiteralSplit(u, "true", JBool(true));
      t := True;
    } else if u[0] == 'f' {
      LiteralSplit(u, "false", JBool(false));
      t := False;
    } else {
      LiteralSplit(u, "null", JNull);
      t := Null;
    }
  }

  lemma {:induction false} ValueSplit(t: string) returns (w: string, tree: Tree)
    requires Value(t).Some?
    ensures Spaces(w) && Means(tree, Value(t).value.0) && t == w + (TreeText(tree) + Value(t).value.1)
    decreases |t|, 0
  {
    hide Value, TreeText, Means, Fields, Items;
    w := SkipSplit(t);
    var u := SkipSpace(t);
    SkipTwice(t);
    NoValue();
    if u[0] == '{' {
      tree := ObjectSplit(u);
    } else if u[0] == '[' {
      tree := ArraySplit(u);
    } else {
      tree := SimpleSplit(u);
    }
  }

  lemma NoValue()
    ensures Value("") == None
  {
  }

  lemma {:induction false} ArraySplit(u: string) returns (tree: Tree)
    requires u != "" && u[0] == '[' && Value(u).Some?
    ensures Means(tree, Value(u).value.0) && u == TreeText(tree) + Value(u).value.1
    decreases |u|, -1
  {
    hide Value, SlotsText, Items, TreeText, Means;
    ValueStep(u);
    var w := SkipSplit(u[1..]);
    var v := SkipSpace(u[1..]);
    assert u == "[" + u[1..];
    if Starts(v, ']') {
      tree := Array(w, []);
      ArrayTree(w, [], v[1..]);
      assert v == "]" + v[1..];
    } else {
      ItemsSkip(u[1..], []);
      var slots, values := ItemsSplit(u[1..], []);
      tree := Array("", slots);
      ArrayTree("", slots, Value(u).value.1);
      assert [] + values == values;
    }
  }

  /** What reading items begins with. */
  lemma ItemsHead(t: string, done: seq<Json>)
    requires Items(t, done).Some?
    ensures Value(t).Some?
    ensures var u, done' := SkipSpace(Value(t).value.1), done + [Value(t).value.0];
            && u != "" && (u[0] == ']' || u[0] == ',')
            && Items(t, done) == if u[0] == ']' then Some((JArray(done'), u[1..])) else Items(u[1..], done')
  {
    hide Value;
  }

  lemma SlotsOne(s: Slot)
    requires Spaces(s.before) && Spaces(s.after) && TreeOk(s.tree) && TreeSorted(s.tree)
    ensures SlotsOk([s]) && SlotsSorted([s]) && ValuesOf([s]) == [ValueOf(s.tree)] && SlotsText([s]) == SlotText(s)
  {
    assert [s][1..] == [];
  }

  lemma {:induction false} ItemsSplit(t: string, done: seq<Json>) returns (slots: seq<Slot>, values: seq<Json>)
    requires Items(t, done).Some?
    ensures slots != [] && SlotsOk(slots) && SlotsSorted(slots) && ValuesOf(slots) == values
    ensures Items(t, done).value.0 == JArray(done + values) && t == SlotsText(slots) + ("]" + Items(t, done).value.1)
    decreases |t|, 1
  {
    hide Value, TreeText, Items, SlotsOk, SlotsSorted, SlotsText, ValuesOf, Spaces;
    ItemsHead(t, done);
    var w, tree := ValueSplit(t);
    var after := Value(t).value.1;
    var a := SkipSplit(after);
    var u := SkipSpace(after);
    var s := Slot(w, tree, a);
    MeansParts(tree, Value(t).value.0);
    SlotJoined(t, s, u);
    if u[0] == ']' {
      SlotsOne(s);
      slots, values := [s], [ValueOf(tree)];
      assert u == "]" + u[1..];
    } else {
      var more, rest := ItemsSplit(u[1..], done + [ValueOf(tree)]);
      slots, values := [s] + more, [ValueOf(tree)] + rest;
      SlotsCons(s, more);
      assert u == "," + u[1..];
      assert done + values == done + [ValueOf(tree)] + rest;
    }
  }

  lemma SlotJoined(t: string, s: Slot, u: string)
    requires t == s.before + (TreeText(s.tree) + (s.after + u))
    ensures t == SlotText(s) + u
  {
    hide TreeText;
  }

  lemma SlotsCons(s: Slot, more: seq<Slot>)
    requires more != [] && SlotsOk(more) && SlotsSorted(more) && Spaces(s.before) && Spaces(s.after) && TreeOk(s.tree) && TreeSorted(s.tree)
    ensures var slots := [s] + more;
            && SlotsOk(slots) && SlotsSorted(slots) && ValuesOf(slots) == [ValueOf(s.tree)] + ValuesOf(more)
            && SlotsText(slots) == SlotText(s) + ("," + SlotsText(more))
  {
    assert ([s] + more)[1..] == more;
  }

  lemma {:induction false} ObjectSplit(u: string) returns (tree: Tree)
    requires u != "" && u[0] == '{' && Value(u).Some?
    ensures Means(tree, Value(u).value.0) && u == TreeText(tree) + Value(u).value.1
    decreases |u|, -1
  {
    hide Value, EntriesText, Fields, Sorts, TreeText, Means;
    ValueStep(u);
    SortsNone();
    var w := SkipSplit(u[1..]);
    var v := SkipSpace(u[1..]);
    assert u == "{" + u[1..];
    if Starts(v, '}') {
      tree := Object(w, [], []);
      ObjectTree(w, [], [], v[1..]);
      assert v == "}" + v[1..];
    } else {
      FieldsSkip(u[1..], []);
      var entries, sorted := FieldsSplit(u[1..], [], []);
      tree := Object("", entries, sorted);
      assert [] + Pairs(entries) == Pairs(entries);
      ObjectTree("", entries, sorted, Value(u).value.1);
    }
  }

  /** What reading fields begins with. */
  lemma FieldsHead(t: string, done: seq<Member>)
    requires Fields(t, done).Some?
    ensures var u := SkipSpace(t);
            && u != "" && u[0] == '\"' && Chars(u[1..]).Some?
            && var c := SkipSpace(Chars(u[1..]).value.1);
               && c != "" && c[0] == ':' && Value(c[1..]).Some?
               && InsertField(done, Chars(u[1..]).value.0, Value(c[1..]).value.0).Some?
               && var done', end := InsertField(done, Chars(u[1..]).value.0, Value(c[1..]).value.0).value, SkipSpace(Value(c[1..]).value.1);
                  && end != "" && (end[0] == '}' || end[0] == ',')
                  && Fields(t, done) == if end[0] == '}' then Some((JObject(done'), end[1..])) else Fields(end[1..], done')
  {
    hide Value, Chars, InsertField, SkipSpace;
  }

  lemma EntriesOne(e: Entry)
    requires Spaces(e.before) && PiecesOk(e.key) && Spaces(e.gap)
    requires Spaces(e.slot.before) && Spaces(e.slot.after) && TreeOk(e.slot.tree) && TreeSorted(e.slot.tree)
    ensures EntriesOk([e]) && EntriesSorted([e]) && EntriesText([e]) == EntryText(e)
    ensures Pairs([e]) == [Member(PiecesBytes(e.key), ValueOf(e.slot.tree))]
  {
    assert [e][1..] == [];
  }

  /** The first member read: its entry, and the text that is left. */
  lemma EntryRead(t: string, done: seq<Member>) returns (e: Entry, end: string)
    requires Fields(t, done).Some?
    ensures Spaces(e.before) && PiecesOk(e.key) && Spaces(e.gap)
    ensures Spaces(e.slot.before) && Spaces(e.slot.after) && TreeOk(e.slot.tree) && TreeSorted(e.slot.tree)
    ensures t == EntryText(e) + end && end != "" && |end| < |t| && (end[0] == '}' || end[0] == ',')
    ensures var r := InsertField(done, PiecesBytes(e.key), ValueOf(e.slot.tree));
            r.Some? && Fields(t, done) == if end[0] == '}' then Some((JObject(r.value), end[1..])) else Fields(end[1..], r.value)
    decreases |t|, 1
  {
    hide Value, TreeText, Chars, PiecesText, PiecesBytes, InsertField, EntryText, Fields, Spaces, PiecesOk;
    FieldsHead(t, done);
    var before := SkipSplit(t);
    var u := SkipSpace(t);
    var key := CharsSplit(u[1..]);
    var keyed := Chars(u[1..]).value.1;
    var gap := SkipSplit(keyed);
    var c := SkipSpace(keyed);
    var w, tree := ValueSplit(c[1..]);
    var after := Value(c[1..]).value.1;
    var a := SkipSplit(after);
    end := SkipSpace(after);
    e := Entry(before, key, gap, Slot(w, tree, a));
    MeansParts(tree, Value(c[1..]).value.0);
    EntrySplit(t, e, u, c, end);
  }

  lemma {:induction false} FieldsSplit(t: string, done: seq<Member>, read: seq<Member>) returns (entries: seq<Entry>, sorted: seq<Member>)
    requires Fields(t, done).Some? && Sorts(done, read)
    ensures entries != [] && EntriesOk(entries) && EntriesSorted(entries) && Sorts(sorted, read + Pairs(entries))
    ensures Fields(t, done).value.0 == JObject(sorted) && t == EntriesText(entries) + ("}" + Fields(t, done).value.1)
    decreases |t|, 2
  {
    hide Value, TreeText, PiecesText, PiecesBytes, InsertField, Sorts, EntryText, EntriesOk, EntriesSorted, EntriesText, Fields, Pairs,
      Spaces, PiecesOk;
    var e, end := EntryRead(t, done);
    var m := Member(PiecesBytes(e.key), ValueOf(e.slot.tree));
    InsertSorts(done, read, m);
    var done' := InsertField(done, m.key, m.value).value;
    if end[0] == '}' {
      EntriesOne(e);
      entries, sorted := [e], done';
      assert end == "}" + end[1..];
    } else {
      var more;
      more, sorted := FieldsSplit(end[1..], done', read + [m]);
      entries := [e] + more;
      EntriesCons(e, more);
      assert end == "," + end[1..];
      assert read + Pairs(entries) == read + [m] + Pairs(more);
    }
  }

  lemma EntrySplit(t: string, e: Entry, u: string, c: string, end: string)
    requires t == e.before + u && u != "" && u[0] == '\"' && u[1..] == PiecesText(e.key) + ("\"" + (e.gap + c))
    requires c != "" && c[0] == ':' && c[1..] == e.slot.before + (TreeText(e.slot.tree) + (e.slot.after + end))
    ensures t == EntryText(e) + end
  {
    hide TreeText, PiecesText;
    var slot := SlotText(e.slot);
    assert c == ":" + c[1..] && c[1..] == slot + end;
    assert u == "\"" + u[1..];
    var x := "\"" + (e.gap + (":" + slot));
    assert "\"" + (e.gap + c) == x + end;
    Regroup("\"", PiecesText(e.key), x, end);
    assert u == "\"" + (PiecesText(e.key) + x) + end;
    Regroup(e.before, "\"", PiecesText(e.key) + x, end);
    assert EntryText(e) == e.before + ("\"" + (PiecesText(e.key) + x));
  }

  lemma EntriesCons(e: Entry, more: seq<Entry>)
    requires more != [] && EntriesOk(more) && EntriesSorted(more) && Spaces(e.before) && PiecesOk(e.key) && Spaces(e.gap)
    requires Spaces(e.slot.before) && Spaces(e.slot.after) && TreeOk(e.slot.tree) && TreeSorted(e.slot.tree)
    ensures var entries := [e] + more;
            && EntriesOk(entries) && EntriesSorted(entries)
            && Pairs(entries) == [Member(PiecesBytes(e.key), ValueOf(e.slot.tree))] + Pairs(more)
            && EntriesText(entries) == EntryText(e) + ("," + EntriesText(more))
  {
    assert ([e] + more)[1..] == more;
  }

  // ---------- Whole texts ----------

  /** A text of the grammar that means the value, with space around. */
  ghost predicate Reads(text: string, v: Json) {
    exists w: string, t: Tree, x: string :: Spaces(w) && Spaces(x) && Means(t, v) && text == w + (TreeText(t) + x)
  }

  /** The parser accepts exactly the texts of the grammar, and gives what they mean. */
  lemma GrammarExact(text: string, v: Json)
    ensures ParseJson(text) == Some(v) <==> Reads(text, v)
  {
    hide Value, TreeText, Means;
    if ParseJson(text) == Some(v) {
      var w, t := ValueSplit(text);
      var x := SkipSplit(Value(text).value.1);
      assert x + "" == x;
    }
    if Reads(text, v) {
      var w: string, t: Tree, x: string :| Spaces(w) && Spaces(x) && Means(t, v) && text == w + (TreeText(t) + x);
      MeansParts(t, v);
      SpaceEnds(x);
      ValueExact(w, t, x);
      SkipAll(x);
    }
  }

  lemma MeansParts(t: Tree, v: Json)
    requires Means(t, v)
    ensures TreeOk(t) && TreeSorted(t) && ValueOf(t) == v
  {
  }

  lemma SpaceEnds(x: string)
    requires Spaces(x)
    ensures NumberEnds(x)
  {
    if x != "" { assert x[0] in x; }
  }

  /** Every serialized record is a text of the grammar, and means its type and payload. */
  lemma RecordsAreTexts(r: OutputRecord)
    requires DistinctKeys(r.payload) && forall f <- r.payload :: WellFormed(f.value)
    ensures Reads(Serialize(r), Meaning(r))
  {
    hide ParseJson, Serialize, Reads, Meaning, DistinctKeys;
    RecordRoundTrip(r);
    GrammarExact(Serialize(r), Meaning(r));
  }
}
