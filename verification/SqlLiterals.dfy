/** The values of one dumped SQL row: tools/python/devex_clone_rows.py, lines 109-155. */
module SqlLiterals {
  import opened Options

  /** The white space and the decimal digits of the running Unicode version. */
  datatype Unicode = Unicode(spaces: set<char>, digits: set<char>)

  predicate IsSign(c: char) {
    c == '+' || c == '-'
  }

  predicate IsMark(c: char) {
    c == 'e' || c == 'E'
  }

  /** Characters that the grammar uses, the digit `0` aside. */
  predicate Structural(c: char) {
    c == '\'' || c == 'N' || c == '.' || c == '_' || c == ',' || c == 'x' || IsSign(c) || IsMark(c)
  }

  /** White space, digits and the characters of the grammar are apart, and `0` is a digit. */
  predicate Proper(u: Unicode) {
    && u.spaces !! u.digits && u.spaces !! HEX && (forall c :: '0' <= c <= '9' ==> c in u.digits)
    && forall c :: c in u.spaces || c in u.digits ==> !Structural(c)
  }

  /** A value; digits and numbers stay text. */
  datatype Literal = Str(text: string) | Null | Hex(digits: string) | Num(text: string)

  // ---- What the loops compute, on the rest of the line ----

  function Run(chars: set<char>, s: string): (n: nat)
    ensures n <= |s| && (n < |s| ==> s[n] !in chars) && forall c :: c in s[..n] ==> c in chars
  {
    if s != "" && s[0] in chars then 1 + Run(chars, s[1..]) else 0
  }

  function Skip(u: Unicode, s: string): (n: nat)
    ensures n <= |s|
  {
    Run(u.spaces, s)
  }

  function Escape(c: char): Option<string> {
    match c
    case '0' => Some(['\0'])
    case 'b' => Some("\U{0008}")
    case 'n' => Some("\n")
    case 'r' => Some("\r")
    case 't' => Some("\t")
    case 'Z' => Some("\U{001A}")
    case '\\' => Some("\\")
    case '\'' => Some("'")
    case '"' => Some("\"")
    case '%' => Some("\\%")
    case '_' => Some("\\_")
    case _ => None
  }

  /** The content of a string and the length it takes, closing quote included; None where the source raises. */
  function QuotedRest(s: string): (r: Option<(string, nat)>)
    ensures r.Some? ==> 0 < r.value.1 <= |s|
  {
    if s == "" then None
    else if s[0] == '\'' then Some(("", 1))
    else if s[0] != '\\' then Ahead([s[0]], 1, QuotedRest(s[1..]))
    else if |s| < 2 || Escape(s[1]).None? then None
    else Ahead(Escape(s[1]).value, 2, QuotedRest(s[2..]))
  }

  function Ahead(text: string, length: nat, r: Option<(string, nat)>): Option<(string, nat)> {
    if r.None? then None else Some((text + r.value.0, length + r.value.1))
  }

  const HEX := set c | c in "0123456789abcdefABCDEF"

  function Sign(s: string): nat {
    if s != "" && IsSign(s[0]) then 1 else 0
  }

  /** Digits with an optional fraction, or a fraction alone; 0 where there is neither. */
  function Mantissa(u: Unicode, s: string): (n: nat)
    ensures n <= |s|
  {
    var whole := Run(u.digits, s);
    if whole < |s| && s[whole] == '.' then
      var fraction := Run(u.digits, s[whole + 1..]);
      if whole + fraction == 0 then 0 else whole + 1 + fraction
    else whole
  }

  function Exponent(u: Unicode, s: string): (n: nat)
    ensures n <= |s|
  {
    if s == "" || !IsMark(s[0]) then 0
    else
      var sign := Sign(s[1..]);
      var digits := Run(u.digits, s[1 + sign..]);
      if digits == 0 then 0 else 1 + sign + digits
  }

  function Number(u: Unicode, s: string): (n: nat)
    ensures n <= |s|
  {
    var sign := Sign(s);
    var mantissa := Mantissa(u, s[sign..]);
    if mantissa == 0 then 0 else sign + mantissa + Exponent(u, s[sign + mantissa..])
  }

  /** One literal and its length. */
  function Token(u: Unicode, s: string): (r: Option<(Literal, nat)>)
    ensures r.Some? ==> 0 < r.value.1 <= |s|
  {
    if s != "" && s[0] == '\'' then
      var q := QuotedRest(s[1..]);
      if q.None? then None else Some((Str(q.value.0), 1 + q.value.1))
    else if "NULL" <= s then Some((Null, 4))
    else if "0x" <= s && Run(HEX, s[2..]) > 0 then
      var n := Run(HEX, s[2..]);
      if n % 2 == 1 then None else Some((Hex(s[2..][..n]), 2 + n))
    else if Number(u, s) == 0 then None
    else Some((Num(s[..Number(u, s)]), Number(u, s)))
  }

  /** Where the literal starts: after white space, `_binary`, white space. */
  function Lead(u: Unicode, s: string): (n: nat)
    ensures n <= |s|
  {
    var k := Skip(u, s);
    if "_binary" <= s[k..] then k + 7 + Skip(u, s[k + 7..]) else k
  }

  /** One value with the white space around it, and its length. */
  function Field(u: Unicode, s: string): (r: Option<(Literal, nat)>)
    ensures r.Some? ==> 0 < r.value.1 <= |s|
  {
    var t := s[Lead(u, s)..];
    var token := Token(u, t);
    if t == "" || token.None? then None
    else Some((token.value.0, Lead(u, s) + token.value.1 + Skip(u, t[token.value.1..])))
  }

  function Fields(u: Unicode, s: string): Option<seq<Literal>>
    decreases |s|
  {
    var f := Field(u, s);
    if f.None? then None
    else
      var rest := s[f.value.1..];
      if rest == "" then Some([f.value.0])
      else if rest[0] != ',' || |rest| == 1 then None
      else Before(f.value.0, Fields(u, rest[1..]))
  }

  function Before(first: Literal, rest: Option<seq<Literal>>): Option<seq<Literal>> {
    if rest.None? then None else Some([first] + rest.value)
  }

  /** `literals`; None where it raises. */
  function Literals(u: Unicode, s: string): Option<seq<Literal>> {
    if s == "" then Some([]) else Fields(u, s)
  }

  // ---- The loops ----

  method SkipFrom(u: Unicode, value: string, start: nat) returns (index: nat)
    requires start <= |value|
    ensures index == start + Skip(u, value[start..])
  {
    index := start;
    while index < |value| && value[index] in u.spaces
      invariant start <= index <= |value| && start + Skip(u, value[start..]) == index + Skip(u, value[index..])
    {
      assert value[index..][1..] == value[index + 1..];
      index := index + 1;
    }
  }

  /** `quoted`; the string starts at `position`. */
  method Quoted(value: string, position: nat) returns (r: Option<(string, nat)>)
    requires position < |value|
    ensures r == match QuotedRest(value[position + 1..]) case None => None case Some(q) => Some((q.0, position + 1 + q.1))
  {
    hide Escape;
    var output, index := "", position + 1;
    ghost var whole := QuotedRest(value[position + 1..]);
    AheadNone(whole);
    while index < |value|
      invariant position < index <= |value|
      invariant whole == Ahead(output, index - position - 1, QuotedRest(value[index..]))
    {
      if value[index] == '\'' {
        assert output + "" == output;
        return Some((output, index + 1));
      }
      ghost var from := index;
      var text := [value[index]];
      if value[index] == '\\' {
        index := index + 1;
        if index >= |value| || Escape(value[index]).None? {
          return None;
        }
        text := Escape(value[index]).value;
      }
      index := index + 1;
      Suffix(value, from, index - from);
      assert QuotedRest(value[from..]) == Ahead(text, index - from, QuotedRest(value[index..]));
      AheadTwice(output, from - position - 1, text, index - from, QuotedRest(value[index..]));
      output := output + text;
    }
    r := None;
  }

  lemma AheadNone(r: Option<(string, nat)>)
    ensures Ahead("", 0, r) == r
  {
    if r.Some? {
      assert "" + r.value.0 == r.value.0;
    }
  }

  lemma AheadTwice(a: string, m: nat, b: string, n: nat, r: Option<(string, nat)>)
    ensures Ahead(a, m, Ahead(b, n, r)) == Ahead(a + b, m + n, r)
  {
    if r.Some? {
      assert a + (b + r.value.0) == a + b + r.value.0;
    }
  }

  lemma Suffix(value: string, i: nat, k: nat)
    requires i + k <= |value|
    ensures value[i..][k..] == value[i + k..]
  {
  }

  method LeadFrom(u: Unicode, value: string, start: nat) returns (index: nat)
    requires start <= |value|
    ensures index == start + Lead(u, value[start..])
  {
    hide Skip;
    index := SkipFrom(u, value, start);
    Suffix(value, start, index - start);
    if "_binary" <= value[index..] {
      index := index + 7;
      Suffix(value, start, index - start);
      index := SkipFrom(u, value, index);
    }
  }

  method TokenFrom(u: Unicode, value: string, start: nat) returns (r: Option<(Literal, nat)>)
    requires start < |value|
    ensures r == match Token(u, value[start..]) case None => None case Some(t) => Some((t.0, start + t.1))
  {
    hide Token, QuotedRest;
    if value[start] == '\'' {
      var q := Quoted(value, start);
      QuotedToken(u, value[start..]);
      Suffix(value, start, 1);
      r := if q.None? then None else Some((Str(q.value.0), q.value.1));
    } else {
      var t := Token(u, value[start..]);
      r := if t.None? then None else Some((t.value.0, start + t.value.1));
    }
  }

  method FieldFrom(u: Unicode, value: string, start: nat) returns (r: Option<(Literal, nat)>)
    requires start <= |value|
    ensures r == match Field(u, value[start..]) case None => None case Some(f) => Some((f.0, start + f.1))
  {
    hide Skip, Token, Lead;
    var index := LeadFrom(u, value, start);
    Suffix(value, start, index - start);
    if index >= |value| {
      return None;
    }
    var t := TokenFrom(u, value, index);
    if t.None? {
      return None;
    }
    Suffix(value, index, t.value.1 - index);
    index := SkipFrom(u, value, t.value.1);
    r := Some((t.value.0, index));
  }

  lemma QuotedToken(u: Unicode, s: string)
    requires s != "" && s[0] == '\''
    ensures Token(u, s) == match QuotedRest(s[1..]) case None => None case Some(q) => Some((Str(q.0), 1 + q.1))
  {
  }

  /** `literals` as the loop it is. */
  method ParseLiterals(u: Unicode, value: string) returns (r: Option<seq<Literal>>)
    ensures r == Literals(u, value)
  {
    hide Field;
    var result: seq<Literal>, index := [], 0;
    assert value[0..] == value;
    JoinedNone(Literals(u, value));
    while index < |value|
      invariant index <= |value| && (index == |value| ==> value == "")
      invariant Literals(u, value) == Joined(result, Literals(u, value[index..]))
      decreases |value| - index
    {
      var f := FieldFrom(u, value, index);
      if f.None? {
        return None;
      }
      assert value[index..][f.value.1 - index..] == value[f.value.1..];
      result, index := result + [f.value.0], f.value.1;
      if index == |value| {
        return Some(result);
      }
      if value[index] != ',' || index + 1 == |value| {
        return None;
      }
      assert value[index..][1..] == value[index + 1..];
      JoinedStep(result[..|result| - 1], f.value.0, Literals(u, value[index + 1..]));
      assert result[..|result| - 1] + [f.value.0] == result;
      index := index + 1;
    }
    r := Some(result);
  }

  function Joined(first: seq<Literal>, rest: Option<seq<Literal>>): Option<seq<Literal>> {
    if rest.None? then None else Some(first + rest.value)
  }

  lemma JoinedNone(r: Option<seq<Literal>>)
    ensures Joined([], r) == r
  {
    if r.Some? {
      assert [] + r.value == r.value;
    }
  }

  lemma JoinedStep(first: seq<Literal>, item: Literal, r: Option<seq<Literal>>)
    ensures Joined(first, Before(item, r)) == Joined(first + [item], r)
  {
    if r.Some? {
      assert first + ([item] + r.value) == first + [item] + r.value;
    }
  }
}
