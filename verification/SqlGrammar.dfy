/** The grammar of a row of literals, and `literals` as its exact parser. */
module SqlGrammar {
  import opened Options
  import opened SqlLiterals

  // ---- The grammar, as what can be written and what it means ----

  /** One character of a string, written plainly or escaped. */
  datatype Unit = Plain(c: char) | Escaped(c: char)

  predicate UnitOk(x: Unit) {
    match x
    case Plain(c) => c != '\'' && c != '\\'
    case Escaped(c) => Escape(c).Some?
  }

  function UnitText(x: Unit): string {
    if x.Plain? then [x.c] else ['\\', x.c]
  }

  function UnitValue(x: Unit): string
    requires UnitOk(x)
  {
    if x.Plain? then [x.c] else Escape(x.c).value
  }

  predicate UnitsOk(units: seq<Unit>) {
    forall i :: 0 <= i < |units| ==> UnitOk(units[i])
  }

  function BodyText(units: seq<Unit>): string {
    if units == [] then "" else UnitText(units[0]) + BodyText(units[1..])
  }

  function BodyValue(units: seq<Unit>): string
    requires UnitsOk(units)
  {
    if units == [] then "" else UnitValue(units[0]) + BodyValue(units[1..])
  }

  datatype Power = Power(mark: char, sign: string, digits: string)

  datatype Form =
    | Text(units: seq<Unit>)
    | Nothing
    | Bytes(digits: string)
    | Decimal(sign: string, whole: string, dot: bool, fraction: string, power: Option<Power>)

  predicate All(chars: set<char>, s: string) {
    forall c :: c in s ==> c in chars
  }

  predicate SignOk(s: string) {
    s == "" || s == "+" || s == "-"
  }

  predicate FormOk(u: Unicode, f: Form) {
    match f
    case Text(units) => UnitsOk(units)
    case Nothing => true
    case Bytes(digits) => All(HEX, digits) && digits != "" && |digits| % 2 == 0
    case Decimal(sign, whole, dot, fraction, power) =>
      && SignOk(sign) && All(u.digits, whole) && All(u.digits, fraction)
      && (whole == "" ==> fraction != "") && (!dot ==> fraction == "")
      && (power.Some? ==> PowerOk(u, power.value))
  }

  predicate PowerOk(u: Unicode, p: Power) {
    IsMark(p.mark) && SignOk(p.sign) && p.digits != "" && All(u.digits, p.digits)
  }

  function PowerText(p: Option<Power>): string {
    if p.None? then "" else [p.value.mark] + p.value.sign + p.value.digits
  }

  function MantissaText(whole: string, dot: bool, fraction: string): string {
    if dot then whole + "." + fraction else whole
  }

  function FormText(f: Form): string {
    match f
    case Text(units) => "'" + BodyText(units) + "'"
    case Nothing => "NULL"
    case Bytes(digits) => "0x" + digits
    case Decimal(sign, whole, dot, fraction, power) => sign + (MantissaText(whole, dot, fraction) + PowerText(power))
  }

  function FormValue(u: Unicode, f: Form): Literal
    requires FormOk(u, f)
  {
    match f
    case Text(units) => Str(BodyValue(units))
    case Nothing => Null
    case Bytes(digits) => Hex(digits)
    case Decimal(_, _, _, _, _) => Num(FormText(f))
  }

  datatype Cell = Cell(before: string, binary: bool, between: string, form: Form, after: string)

  predicate CellOk(u: Unicode, c: Cell) {
    All(u.spaces, c.before) && All(u.spaces, c.between) && All(u.spaces, c.after) && FormOk(u, c.form)
  }

  function CellText(c: Cell): string {
    c.before + ((if c.binary then "_binary" + c.between else "") + (FormText(c.form) + c.after))
  }

  predicate CellsOk(u: Unicode, cells: seq<Cell>) {
    forall i :: 0 <= i < |cells| ==> CellOk(u, cells[i])
  }

  /** The cells joined by commas. */
  function RowText(cells: seq<Cell>): string
    decreases |cells|, 0
  {
    if cells == [] then "" else CellText(cells[0]) + Tail(cells[1..])
  }

  function Tail(cells: seq<Cell>): string
    decreases |cells|, 1
  {
    if cells == [] then "" else "," + RowText(cells)
  }

  function RowValues(u: Unicode, cells: seq<Cell>): seq<Literal>
    requires CellsOk(u, cells)
  {
    if cells == [] then [] else [FormValue(u, cells[0].form)] + RowValues(u, cells[1..])
  }

  // ---- What is written is read back ----

  lemma Across(a: string, b: string)
    ensures (a + b)[|a|..] == b && (a + b)[..|a|] == a
  {
  }

  lemma {:induction false} RunText(chars: set<char>, t: string, rest: string)
    requires All(chars, t) && (rest == "" || rest[0] !in chars)
    ensures Run(chars, t + rest) == |t|
  {
    if t == "" {
      assert t + rest == rest;
    } else {
      assert (t + rest)[1..] == t[1..] + rest;
      assert All(chars, t[1..]);
      RunText(chars, t[1..], rest);
    }
  }

  lemma {:induction false} BodyRead(units: seq<Unit>, rest: string)
    requires UnitsOk(units)
    ensures QuotedRest(BodyText(units) + "'" + rest) == Some((BodyValue(units), |BodyText(units)| + 1))
  {
    var s := BodyText(units) + "'" + rest;
    if units == [] {
      assert s == "'" + rest;
    } else {
      var x, more := units[0], BodyText(units[1..]) + "'" + rest;
      BodyRead(units[1..], rest);
      assert s == UnitText(x) + more;
      assert s[|UnitText(x)|..] == more;
      assert UnitText(x) == s[..|UnitText(x)|];
    }
  }

  /** What may follow a literal: nothing, white space or a comma. */
  predicate Stop(u: Unicode, rest: string) {
    rest == "" || rest[0] == ',' || rest[0] in u.spaces
  }

  lemma SignRead(sign: string, rest: string)
    requires SignOk(sign) && (rest == "" || !IsSign(rest[0]))
    ensures Sign(sign + rest) == |sign| && (sign + rest)[|sign|..] == rest
  {
    if sign == "" {
      assert sign + rest == rest;
    } else {
      assert (sign + rest)[0] == sign[0];
    }
  }

  lemma MantissaRead(u: Unicode, whole: string, dot: bool, fraction: string, rest: string)
    requires Proper(u) && All(u.digits, whole) && All(u.digits, fraction)
    requires (whole == "" ==> fraction != "") && (!dot ==> fraction == "")
    requires rest == "" || (rest[0] !in u.digits && rest[0] != '.')
    ensures var m := MantissaText(whole, dot, fraction); Mantissa(u, m + rest) == |m| && |m| > 0
  {
    var m := MantissaText(whole, dot, fraction);
    if dot {
      var after := fraction + rest;
      assert m + rest == whole + ("." + after);
      RunText(u.digits, whole, "." + after);
      assert (whole + ("." + after))[|whole| + 1..] == after;
      RunText(u.digits, fraction, rest);
    } else {
      RunText(u.digits, whole, rest);
    }
  }

  lemma PowerRead(u: Unicode, p: Power, rest: string)
    requires Proper(u) && PowerOk(u, p) && Stop(u, rest)
    ensures Exponent(u, [p.mark] + (p.sign + (p.digits + rest))) == 1 + |p.sign| + |p.digits|
  {
    var after := p.digits + rest;
    var s := [p.mark] + (p.sign + after);
    assert s[1..] == p.sign + after;
    assert p.digits[0] in p.digits && after[0] == p.digits[0];
    SignRead(p.sign, after);
    assert s[1 + |p.sign|..] == after;
    RunText(u.digits, p.digits, rest);
  }

  lemma NoExponent(u: Unicode, rest: string)
    requires Proper(u) && Stop(u, rest)
    ensures Exponent(u, rest) == 0 && (rest == "" || (rest[0] !in u.digits && rest[0] != '.' && rest[0] != 'x'))
  {
  }

  lemma ExponentRead(u: Unicode, power: Option<Power>, rest: string)
    requires Proper(u) && (power.Some? ==> PowerOk(u, power.value)) && Stop(u, rest)
    ensures Exponent(u, PowerText(power) + rest) == |PowerText(power)|
    ensures var s := PowerText(power) + rest; s == "" || (s[0] !in u.digits && s[0] != '.' && s[0] != 'x')
  {
    hide Exponent;
    if power.None? {
      assert PowerText(power) + rest == rest;
      NoExponent(u, rest);
    } else {
      var p := power.value;
      PowerRead(u, p, rest);
      assert PowerText(power) + rest == [p.mark] + (p.sign + (p.digits + rest));
    }
  }

  lemma MantissaChars(u: Unicode, whole: string, dot: bool, fraction: string, i: nat)
    requires All(u.digits, whole) && All(u.digits, fraction) && i < |MantissaText(whole, dot, fraction)|
    ensures var c := MantissaText(whole, dot, fraction)[i]; c in u.digits || c == '.'
  {
    if i < |whole| {
      assert whole[i] in whole;
    } else if dot && i > |whole| {
      assert fraction[i - |whole| - 1] in fraction;
    }
  }

  lemma NumberRead(u: Unicode, f: Form, rest: string)
    requires Proper(u) && FormOk(u, f) && f.Decimal? && Stop(u, rest)
    ensures Number(u, FormText(f) + rest) == |FormText(f)| > 0
  {
    hide Mantissa, Exponent, PowerText, MantissaText, Sign;
    var m, p := MantissaText(f.whole, f.dot, f.fraction), PowerText(f.power);
    var s := FormText(f) + rest;
    assert s == f.sign + (m + (p + rest));
    ExponentRead(u, f.power, rest);
    MantissaRead(u, f.whole, f.dot, f.fraction, p + rest);
    MantissaChars(u, f.whole, f.dot, f.fraction, 0);
    SignRead(f.sign, m + (p + rest));
    DropTwo(f.sign, m, p + rest);
  }

  lemma DropTwo(a: string, b: string, c: string)
    ensures (a + (b + c))[|a|..] == b + c && (a + (b + c))[|a| + |b|..] == c
  {
  }

  /** No literal but a string starts with a quote, and none with `_`; only `NULL` starts with `N`. */
  lemma FormStarts(u: Unicode, f: Form)
    requires Proper(u) && FormOk(u, f)
    ensures FormText(f) != "" && FormText(f)[0] !in u.spaces && FormText(f)[0] != '_'
    ensures FormText(f)[0] == '\'' <==> f.Text?
    ensures FormText(f)[0] == 'N' <==> f.Nothing?
  {
    if f.Decimal? {
      var m := MantissaText(f.whole, f.dot, f.fraction);
      assert m[0] in u.digits || m[0] == '.';
      assert f.sign == "" ==> FormText(f) == m + PowerText(f.power);
      assert f.sign == "" ==> FormText(f)[0] == m[0];
    }
  }

  /** A number never reads as bytes: after a leading zero comes no `x`. */
  lemma NumberIsNotHex(u: Unicode, f: Form, rest: string)
    requires Proper(u) && FormOk(u, f) && f.Decimal? && Stop(u, rest)
    ensures !("0x" <= FormText(f) + rest)
  {
    hide PowerText, MantissaText, Exponent, PowerOk, All;
    var m, p := MantissaText(f.whole, f.dot, f.fraction), PowerText(f.power);
    var s := FormText(f) + rest;
    assert s == f.sign + (m + (p + rest));
    assert |m| > 0 by { MantissaSome(f.whole, f.dot, f.fraction); }
    ExponentRead(u, f.power, rest);
    if f.sign != "" {
      assert s[0] == f.sign[0];
    } else if |m| > 1 {
      assert s[1] == m[1];
      MantissaChars(u, f.whole, f.dot, f.fraction, 1);
    } else if p + rest != "" {
      assert s[1] == (p + rest)[0];
    }
  }

  lemma MantissaSome(whole: string, dot: bool, fraction: string)
    requires (whole == "" ==> fraction != "") && (!dot ==> fraction == "")
    ensures |MantissaText(whole, dot, fraction)| > 0
  {
  }

  lemma StopNotHex(u: Unicode, rest: string)
    requires Proper(u) && Stop(u, rest)
    ensures rest == "" || rest[0] !in HEX
  {
  }

  lemma TextRead(u: Unicode, units: seq<Unit>, rest: string)
    requires UnitsOk(units)
    ensures Token(u, "'" + BodyText(units) + "'" + rest) == Some((Str(BodyValue(units)), |BodyText(units)| + 2))
  {
    hide BodyText, BodyValue, QuotedRest, UnitsOk;
    var s := "'" + BodyText(units) + "'" + rest;
    BodyRead(units, rest);
    assert s[1..] == BodyText(units) + "'" + rest;
  }

  lemma BytesRead(u: Unicode, digits: string, rest: string)
    requires Proper(u) && All(HEX, digits) && digits != "" && |digits| % 2 == 0 && Stop(u, rest)
    ensures Token(u, "0x" + digits + rest) == Some((Hex(digits), 2 + |digits|))
  {
    var s := "0x" + digits + rest;
    StopNotHex(u, rest);
    hide Proper, All, Stop;
    RunText(HEX, digits, rest);
    hide Run, QuotedRest, Number;
    assert s == "0x" + (digits + rest);
    Across("0x", digits + rest);
    Across(digits, rest);
    assert s[0] == '0' && s[1] == 'x';
  }

  lemma DecimalRead(u: Unicode, f: Form, rest: string)
    requires Proper(u) && FormOk(u, f) && f.Decimal? && Stop(u, rest)
    ensures Token(u, FormText(f) + rest) == Some((Num(FormText(f)), |FormText(f)|))
  {
    var s := FormText(f) + rest;
    FormStarts(u, f);
    NumberRead(u, f, rest);
    NumberIsNotHex(u, f, rest);
    hide FormText, FormOk, Proper, Stop, Number, QuotedRest;
    assert s[0] == FormText(f)[0];
    assert s[..|FormText(f)|] == FormText(f);
  }

  lemma TokenRead(u: Unicode, f: Form, rest: string)
    requires Proper(u) && FormOk(u, f) && Stop(u, rest)
    ensures Token(u, FormText(f) + rest) == Some((FormValue(u, f), |FormText(f)|))
  {
    match f
    case Text(units) =>
      TextRead(u, units, rest);
      assert FormText(f) + rest == "'" + BodyText(units) + "'" + rest;
    case Nothing =>
      assert (FormText(f) + rest)[..4] == "NULL";
    case Bytes(digits) =>
      BytesRead(u, digits, rest);
    case Decimal(_, _, _, _, _) =>
      DecimalRead(u, f, rest);
  }

  lemma LeadPlain(u: Unicode, before: string, body: string)
    requires All(u.spaces, before) && body != "" && body[0] !in u.spaces && body[0] != '_'
    ensures Lead(u, before + body) == |before| && (before + body)[|before|..] == body
  {
    RunText(u.spaces, before, body);
    hide Run;
    assert (before + body)[|before|..] == body;
  }

  lemma LeadBinary(u: Unicode, before: string, between: string, body: string)
    requires Proper(u) && All(u.spaces, before) && All(u.spaces, between) && body != "" && body[0] !in u.spaces
    ensures var s := before + ("_binary" + (between + body)); var n := |before| + 7 + |between|;
            Lead(u, s) == n && s[n..] == body
  {
    var more := "_binary" + (between + body);
    var s := before + more;
    assert more[0] == '_';
    RunText(u.spaces, before, more);
    RunText(u.spaces, between, body);
    hide Run, Proper, All;
    assert s[|before|..] == more && more[..7] == "_binary";
    assert s[|before| + 7..] == between + body;
    assert s[|before| + 7 + |between|..] == body;
  }

  lemma LeadRead(u: Unicode, c: Cell, rest: string)
    requires Proper(u) && CellOk(u, c)
    ensures var s := CellText(c) + rest; var n := Lead(u, s);
            n == |c.before| + (if c.binary then 7 + |c.between| else 0) && s[n..] == FormText(c.form) + (c.after + rest)
  {
    hide FormText, FormOk, Lead, Run;
    var body := FormText(c.form) + (c.after + rest);
    FormStarts(u, c.form);
    assert body[0] == FormText(c.form)[0];
    if c.binary {
      assert CellText(c) + rest == c.before + ("_binary" + (c.between + body));
      LeadBinary(u, c.before, c.between, body);
    } else {
      assert CellText(c) + rest == c.before + body;
      LeadPlain(u, c.before, body);
    }
  }

  lemma FieldIs(u: Unicode, s: string, n: nat, v: Literal, m: nat, a: nat)
    requires Lead(u, s) == n <= |s| && Token(u, s[n..]) == Some((v, m)) && m <= |s[n..]| && Skip(u, s[n..][m..]) == a
    ensures Field(u, s) == Some((v, n + m + a))
  {
    hide Lead, Token, Skip;
  }

  lemma CellRead(u: Unicode, c: Cell, rest: string)
    requires Proper(u) && CellOk(u, c) && (rest == "" || rest[0] == ',')
    ensures Field(u, CellText(c) + rest) == Some((FormValue(u, c.form), |CellText(c)|))
  {
    hide FormText, FormOk, Lead, Token, FormValue, Run, Proper, Stop, Field, CellText;
    var s := CellText(c) + rest;
    CellLength(c);
    LeadRead(u, c, rest);
    AfterStops(u, c.after, rest);
    TokenRead(u, c.form, c.after + rest);
    Across(FormText(c.form), c.after + rest);
    CommaIsNoSpace(u);
    RunText(u.spaces, c.after, rest);
    FieldIs(u, s, Lead(u, s), FormValue(u, c.form), |FormText(c.form)|, |c.after|);
  }

  lemma CellLength(c: Cell)
    ensures |CellText(c)| == |c.before| + (if c.binary then 7 + |c.between| else 0) + |FormText(c.form)| + |c.after|
  {
    hide FormText;
  }

  lemma CommaIsNoSpace(u: Unicode)
    requires Proper(u)
    ensures ',' !in u.spaces
  {
  }

  lemma AfterStops(u: Unicode, after: string, rest: string)
    requires All(u.spaces, after) && (rest == "" || rest[0] == ',')
    ensures Stop(u, after + rest)
  {
    if after == "" {
      assert after + rest == rest;
    } else {
      assert (after + rest)[0] == after[0] && after[0] in after;
    }
  }

  lemma FieldsStep(u: Unicode, s: string, v: Literal, n: nat, rest: string)
    requires Field(u, s) == Some((v, n)) && s[n..] == rest
    ensures rest == "" ==> Fields(u, s) == Some([v])
    ensures |rest| > 1 && rest[0] == ',' ==> Fields(u, s) == Before(v, Fields(u, rest[1..]))
  {
  }

  /** However it is written, a row of values is read back as those values. */
  lemma {:induction false} RowRead(u: Unicode, cells: seq<Cell>)
    requires Proper(u) && CellsOk(u, cells)
    ensures Literals(u, RowText(cells)) == Some(RowValues(u, cells))
    decreases |cells|
  {
    hide CellText, Field, CellOk, FormValue, FormOk, Fields;
    if cells != [] {
      var more := cells[1..];
      var rest := Tail(more);
      var s := CellText(cells[0]) + rest;
      assert CellsOk(u, more);
      CellRead(u, cells[0], rest);
      CellIsOk(u, cells[0]);
      CellNotEmpty(u, cells[0]);
      assert s[|CellText(cells[0])|..] == rest;
      FieldsStep(u, s, FormValue(u, cells[0].form), |CellText(cells[0])|, rest);
      if more == [] {
        assert RowValues(u, cells) == [FormValue(u, cells[0].form)];
      } else {
        RowRead(u, more);
        CellNotEmpty(u, more[0]);
        assert rest[1..] == RowText(more);
      }
    }
  }

  lemma CellIsOk(u: Unicode, c: Cell)
    requires CellOk(u, c)
    ensures FormOk(u, c.form)
  {
  }

  lemma CellNotEmpty(u: Unicode, c: Cell)
    requires Proper(u) && CellOk(u, c)
    ensures CellText(c) != ""
  {
    FormStarts(u, c.form);
  }

  // ---- What is read was written ----

  lemma {:induction false} QuotedWritten(s: string) returns (units: seq<Unit>)
    requires QuotedRest(s).Some?
    ensures UnitsOk(units) && BodyValue(units) == QuotedRest(s).value.0
    ensures s[..QuotedRest(s).value.1] == BodyText(units) + "'"
  {
    hide Escape;
    if s[0] == '\'' {
      units := [];
    } else {
      var x := if s[0] == '\\' then Escaped(s[1]) else Plain(s[0]);
      var k := |UnitText(x)|;
      var rest := QuotedWritten(s[k..]);
      units := [x] + rest;
      assert UnitText(x) == s[..k];
      assert s[..QuotedRest(s).value.1] == s[..k] + s[k..][..QuotedRest(s[k..]).value.1];
      assert units[1..] == rest;
      assert BodyText(units) + "'" == UnitText(x) + (BodyText(rest) + "'");
    }
  }

  lemma MantissaWritten(u: Unicode, s: string) returns (whole: string, dot: bool, fraction: string)
    requires Mantissa(u, s) > 0
    ensures All(u.digits, whole) && All(u.digits, fraction) && (whole == "" ==> fraction != "")
    ensures (!dot ==> fraction == "")
    ensures s[..Mantissa(u, s)] == MantissaText(whole, dot, fraction)
  {
    var w := Run(u.digits, s);
    whole, dot, fraction := s[..w], false, "";
    if w < |s| && s[w] == '.' {
      dot := true;
      var f := Run(u.digits, s[w + 1..]);
      fraction := s[w + 1..][..f];
      assert s[..w + 1 + f] == s[..w] + "." + s[w + 1..][..f];
    }
  }

  lemma SignWritten(s: string)
    ensures Sign(s) <= |s| && SignOk(s[..Sign(s)])
  {
    if s != "" && IsSign(s[0]) {
      assert s[..1] == [s[0]];
    }
  }

  lemma ExponentWritten(u: Unicode, s: string) returns (power: Option<Power>)
    ensures power.Some? ==> PowerOk(u, power.value)
    ensures s[..Exponent(u, s)] == PowerText(power)
  {
    power := None;
    if Exponent(u, s) > 0 {
      var t := s[1..];
      SignWritten(t);
      var g := Sign(t);
      var d := Run(u.digits, s[1 + g..]);
      power := Some(Power(s[0], t[..g], s[1 + g..][..d]));
      assert s[..1 + g + d] == [s[0]] + t[..g] + s[1 + g..][..d];
    }
  }

  lemma NumberWritten(u: Unicode, s: string) returns (f: Form)
    requires Number(u, s) > 0
    ensures FormOk(u, f) && f.Decimal? && FormText(f) == s[..Number(u, s)]
  {
    hide Mantissa, Exponent, MantissaText, PowerText;
    SignWritten(s);
    var g := Sign(s);
    var m := Mantissa(u, s[g..]);
    var whole, dot, fraction := MantissaWritten(u, s[g..]);
    var power := ExponentWritten(u, s[g + m..]);
    f := Decimal(s[..g], whole, dot, fraction, power);
    var e := Exponent(u, s[g + m..]);
    assert s[g..][..m] == s[g..g + m] && s[g + m..][..e] == s[g + m..g + m + e];
    assert s[..g + m + e] == s[..g] + (s[g..g + m] + s[g + m..g + m + e]);
    assert Number(u, s) == g + m + e;
  }

  lemma TokenWritten(u: Unicode, s: string) returns (f: Form)
    requires Token(u, s).Some?
    ensures FormOk(u, f) && FormValue(u, f) == Token(u, s).value.0 && FormText(f) == s[..Token(u, s).value.1]
  {
    hide Number, QuotedRest, BodyText, BodyValue;
    if s[0] == '\'' {
      var units := QuotedWritten(s[1..]);
      f := Text(units);
      assert s[..1 + QuotedRest(s[1..]).value.1] == "'" + s[1..][..QuotedRest(s[1..]).value.1];
      assert FormText(f) == "'" + (BodyText(units) + "'");
    } else if "NULL" <= s {
      f := Nothing;
    } else if "0x" <= s && Run(HEX, s[2..]) > 0 {
      f := Bytes(s[2..][..Run(HEX, s[2..])]);
      assert s[..2 + Run(HEX, s[2..])] == s[..2] + s[2..][..Run(HEX, s[2..])];
    } else {
      f := NumberWritten(u, s);
    }
  }

  lemma LeadWritten(u: Unicode, s: string) returns (before: string, binary: bool, between: string)
    ensures All(u.spaces, before) && All(u.spaces, between)
    ensures s[..Lead(u, s)] == before + if binary then "_binary" + between else ""
  {
    var k := Skip(u, s);
    before, binary, between := s[..k], "_binary" <= s[k..], "";
    if binary {
      var b := Skip(u, s[k + 7..]);
      between := s[k + 7..][..b];
      hide Skip, Run;
      assert s[k..][..7] == "_binary";
      TakeThree(s, k, 7, b);
    }
  }

  lemma TakeThree(s: string, k: nat, m: nat, b: nat)
    requires k + m + b <= |s|
    ensures s[..k + m + b] == s[..k] + (s[k..][..m] + s[k + m..][..b])
  {
  }

  lemma FieldWritten(u: Unicode, s: string) returns (c: Cell)
    requires Field(u, s).Some?
    ensures CellOk(u, c) && FormValue(u, c.form) == Field(u, s).value.0 && CellText(c) == s[..Field(u, s).value.1]
  {
    hide Token, FormOk, FormText, FormValue, Lead, Run;
    var before, binary, between := LeadWritten(u, s);
    var n := Lead(u, s);
    var t := s[n..];
    var f := TokenWritten(u, t);
    var m := Token(u, t).value.1;
    var a := Skip(u, t[m..]);
    SkipIsSpace(u, t[m..]);
    c := Cell(before, binary, between, f, t[m..][..a]);
    ThreeParts(s, n, m, a);
  }

  lemma SkipIsSpace(u: Unicode, s: string)
    ensures All(u.spaces, s[..Skip(u, s)])
  {
  }

  lemma ThreeParts(s: string, n: nat, m: nat, a: nat)
    requires n + m + a <= |s|
    ensures s[..n + m + a] == s[..n] + (s[n..][..m] + s[n..][m..][..a])
  {
    assert s[n..][..m] == s[n..n + m] && s[n..][m..][..a] == s[n + m..n + m + a];
  }

  /** What the parser accepts is a row of cells that mean the values returned. */
  lemma {:induction false} RowWritten(u: Unicode, s: string) returns (cells: seq<Cell>)
    requires Literals(u, s).Some?
    ensures CellsOk(u, cells) && RowText(cells) == s && RowValues(u, cells) == Literals(u, s).value
    decreases |s|
  {
    hide Field, CellOk, CellText, FormValue, FormOk;
    if s == "" {
      cells := [];
    } else {
      var c := FieldWritten(u, s);
      CellIsOk(u, c);
      var n := Field(u, s).value.1;
      var rest := s[n..];
      var more: seq<Cell> := [];
      if rest != "" {
        more := RowWritten(u, rest[1..]);
        assert rest == "," + rest[1..];
      }
      cells := [c] + more;
      assert cells[1..] == more && cells[0] == c;
      assert s == s[..n] + rest;
      assert more == [] ==> RowValues(u, cells) == [FormValue(u, c.form)] + [];
    }
  }

  /** The parser accepts exactly the rows of the grammar, and a row means one list of values. */
  lemma LiteralsExactly(u: Unicode, s: string, values: seq<Literal>)
    requires Proper(u)
    ensures Literals(u, s) == Some(values) <==>
      exists cells :: CellsOk(u, cells) && RowText(cells) == s && RowValues(u, cells) == values
  {
    if Literals(u, s) == Some(values) {
      var cells := RowWritten(u, s);
    }
    forall cells | CellsOk(u, cells) && RowText(cells) == s && RowValues(u, cells) == values
      ensures Literals(u, s) == Some(values)
    {
      RowRead(u, cells);
    }
  }

  // ---- A printer ----

  /** The letter that stands for a character behind a backslash. */
  function Letter(c: char): Option<char> {
    if c == 0 as char then Some('0')
    else if c == 8 as char then Some('b')
    else if c == 9 as char then Some('t')
    else if c == 10 as char then Some('n')
    else if c == 13 as char then Some('r')
    else if c == 26 as char then Some('Z')
    else if c == '\\' || c == '\'' || c == '"' then Some(c)
    else None
  }

  /** Control characters, quotes and backslashes are escaped; everything else, commas included, stands for itself. */
  function Units(text: string): (units: seq<Unit>)
    ensures UnitsOk(units) && BodyValue(units) == text
  {
    if text == "" then []
    else
      var x := if Letter(text[0]).Some? then Escaped(Letter(text[0]).value) else Plain(text[0]);
      var rest := Units(text[1..]);
      assert ([x] + rest)[1..] == rest && UnitOk(x) && UnitValue(x) == [text[0]];
      [x] + rest
  }

  function Cells(texts: seq<string>): (cells: seq<Cell>)
    ensures |cells| == |texts| && forall i :: 0 <= i < |texts| ==>
      cells[i] == Cell("", false, "", Text(Units(texts[i])), "")
  {
    if texts == [] then [] else [Cell("", false, "", Text(Units(texts[0])), "")] + Cells(texts[1..])
  }

  lemma {:induction false} ValuesAt(u: Unicode, cells: seq<Cell>, i: nat)
    requires CellsOk(u, cells) && i < |cells|
    ensures |RowValues(u, cells)| == |cells| && RowValues(u, cells)[i] == FormValue(u, cells[i].form)
  {
    if |cells| > 1 {
      ValuesAt(u, cells[1..], if i > 0 then i - 1 else 0);
    }
  }

  /** An escaped `%` or `_` keeps its backslash, and a backslash before any other letter is refused. */
  lemma OtherEscapes(c: char, rest: string)
    ensures c == '%' || c == '_' ==>
      QuotedRest(['\\', c] + rest) == Ahead(['\\', c], 2, QuotedRest(rest))
    ensures c !in "0bnrtZ\\'\"%_" ==> QuotedRest(['\\', c] + rest).None?
  {
    var s := ['\\', c] + rest;
    assert s[0] == '\\' && s[1] == c && s[2..] == rest;
    var letters := "0bnrtZ\\'\"%_";
    assert letters[0] == '0' && letters[1] == 'b' && letters[2] == 'n' && letters[3] == 'r' && letters[4] == 't';
    assert letters[5] == 'Z' && letters[6] == '\\' && letters[7] == '\'' && letters[8] == '"';
    assert letters[9] == '%' && letters[10] == '_';
  }

  /** Printed strings come back whole, whatever control characters, quotes, backslashes and commas they hold. */
  lemma PrintedStrings(u: Unicode, texts: seq<string>, i: nat)
    requires Proper(u) && i < |texts|
    ensures var r := Literals(u, RowText(Cells(texts)));
            r.Some? && |r.value| == |texts| && r.value[i] == Str(texts[i])
  {
    var cells := Cells(texts);
    assert CellsOk(u, cells);
    RowRead(u, cells);
    ValuesAt(u, cells, i);
  }
}
