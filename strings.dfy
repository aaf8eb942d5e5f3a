/**
 * The pieces of Python's string machinery that the layout engine relies on:
 * `sep.join(xs)`, `str(n)` for integers, and the subset of `str.format` that
 * substitutes named placeholders such as `{col}` and `{row}`.
 */
module Strings {
  import opened Results

  /** `sep.join(xs)`. */
  function Join(sep: string, xs: seq<string>): string
  {
    if |xs| == 0 then ""
    else if |xs| == 1 then xs[0]
    else xs[0] + sep + Join(sep, xs[1..])
  }

  /** Joining one more item puts the separator and the item at the end. */
  lemma {:induction false} JoinAppend(sep: string, xs: seq<string>, x: string)
    requires |xs| > 0
    ensures Join(sep, xs + [x]) == Join(sep, xs) + sep + x
    decreases |xs|
  {
    if |xs| == 1 {
      assert xs + [x] == [xs[0], x] && [xs[0], x][1..] == [x];
    } else {
      JoinAppend(sep, xs[1..], x);
      assert (xs + [x])[1..] == xs[1..] + [x];
    }
  }

  // ---- Decimal notation of integers (`str(n)`) ----

  predicate IsDigit(c: char)
  {
    '0' <= c <= '9'
  }

  predicate AllDigits(s: string)
  {
    forall i :: 0 <= i < |s| ==> IsDigit(s[i])
  }

  function DigitChar(d: nat): (c: char)
    requires d < 10
    ensures IsDigit(c) && c as int - '0' as int == d
  {
    ('0' as int + d) as char
  }

  function NatToDecimal(n: nat): (s: string)
    ensures |s| > 0 && AllDigits(s)
    decreases n
  {
    if n < 10 then [DigitChar(n)] else NatToDecimal(n / 10) + [DigitChar(n % 10)]
  }

  /** `str(n)`: an optional minus sign followed by the digits of `|n|`. */
  function IntToDecimal(n: int): (s: string)
    ensures |s| > 0
  {
    if n < 0 then "-" + NatToDecimal(-n) else NatToDecimal(n)
  }

  /** The value of a string of decimal digits, read most significant first. */
  function DigitsValue(s: string): nat
    requires AllDigits(s)
  {
    if |s| == 0 then 0
    else DigitsValue(s[..|s| - 1]) * 10 + (s[|s| - 1] as int - '0' as int)
  }

  /** Reads back what IntToDecimal writes: an optional '-' and at least one digit. */
  function ParseInt(s: string): Option<int>
  {
    if |s| > 1 && s[0] == '-' && AllDigits(s[1..]) then Some(-(DigitsValue(s[1..]) as int))
    else if |s| > 0 && AllDigits(s) then Some(DigitsValue(s))
    else None
  }

  lemma {:induction false} NatToDecimalValue(n: nat)
    ensures DigitsValue(NatToDecimal(n)) == n
    decreases n
  {
    var s := NatToDecimal(n);
    if n >= 10 {
      NatToDecimalValue(n / 10);
      assert s[..|s| - 1] == NatToDecimal(n / 10);
    }
  }

  /** The decimal notation of an integer determines the integer. */
  lemma {:induction false} DecimalRoundTrip(n: int)
    ensures ParseInt(IntToDecimal(n)) == Some(n)
  {
    var s := IntToDecimal(n);
    if n < 0 {
      NatToDecimalValue(-n);
      assert s[1..] == NatToDecimal(-n);
    } else {
      NatToDecimalValue(n);
      assert IsDigit(s[0]);
    }
  }

  lemma {:induction false} DecimalInjective(a: int, b: int)
    requires IntToDecimal(a) == IntToDecimal(b)
    ensures a == b
  {
    DecimalRoundTrip(a);
    DecimalRoundTrip(b);
  }

  // ---- Named placeholders (`str.format(**bindings)`) ----

  /** Keyword arguments of a `str.format` call, each a name and its text. */
  type Bindings = seq<(string, string)>

  function Lookup(b: Bindings, name: string): (r: Option<string>)
    ensures r.Some? <==> name in Names(b)
  {
    if |b| == 0 then None
    else if b[0].0 == name then Some(b[0].1)
    else Lookup(b[1..], name)
  }

  function Names(b: Bindings): set<string>
  {
    set i | 0 <= i < |b| :: b[i].0
  }

  function Prepend(p: string, r: Result<string>): Result<string>
  {
    match r
    case Ok(s) => Ok(p + s)
    case Err(e) => Err(e)
  }

  /** The first index at or after `i` that holds '}', or `|s|` if there is none. */
  function CloseIndex(s: string, i: nat): (k: nat)
    requires i <= |s|
    ensures i <= k <= |s|
    ensures k < |s| ==> s[k] == '}'
    ensures forall j :: i <= j < k ==> s[j] != '}'
    decreases |s| - i
  {
    if i == |s| || s[i] == '}' then i else CloseIndex(s, i + 1)
  }

  /**
   * A field whose name is empty or all digits is positional: `{}` is argument 0
   * and `{4}` argument 4. With keyword arguments only, a positional field has
   * no value, however the keywords are named.
   */
  predicate Positional(name: string)
  {
    |name| == 0 || (IsDigit(name[0]) && AllDigits(name))
  }

  /** The value a keyword-only `str.format` finds for a field name. */
  function Keyword(b: Bindings, name: string): (r: Option<string>)
    ensures r.Some? <==> !Positional(name) && name in Names(b)
    ensures r.Some? ==> r == Lookup(b, name)
  {
    if Positional(name) then None else Lookup(b, name)
  }

  /**
   * The error of a field that has no value: Python's `IndexError` for a
   * positional field (with the argument index), its `KeyError` for a name.
   */
  function FieldError(name: string): (e: Error)
    ensures Positional(name) ==> e == IndexOutOfRange(DigitsValue(name))
    ensures !Positional(name) ==> e == MissingField(name)
  {
    if Positional(name) then IndexOutOfRange(DigitsValue(name)) else MissingField(name)
  }

  /**
   * `s.format(**b)`: `{{` and `}}` stand for single braces, `{name}` is replaced
   * by the text bound to `name`; a field without a value, a lone `}` and an
   * unclosed `{` are errors. Substituted text is not scanned again.
   */
  function Format(s: string, b: Bindings): Result<string>
    decreases |s|
  {
    if |s| == 0 then Ok("")
    else if |s| > 1 && s[0] == '{' && s[1] == '{' then Prepend("{", Format(s[2..], b))
    else if |s| > 1 && s[0] == '}' && s[1] == '}' then Prepend("}", Format(s[2..], b))
    else if s[0] == '}' then Err(SingleBrace)
    else if s[0] == '{' then
      var k := CloseIndex(s, 1);
      if k == |s| then Err(UnclosedBrace)
      else match Keyword(b, s[1..k])
        case None => Err(FieldError(s[1..k]))
        case Some(v) => Prepend(v, Format(s[k + 1..], b))
    else Prepend([s[0]], Format(s[1..], b))
  }

  predicate BraceFree(s: string)
  {
    forall i | 0 <= i < |s| :: s[i] != '{' && s[i] != '}'
  }

  /** Text that `str.format` copies unchanged: it holds no brace. */
  type Literal = s: string | BraceFree(s) witness ""

  /** The name of a keyword field as the templates write it: brace-free, and not positional, as it starts with a non-digit. */
  type KeywordName = s: string | BraceFree(s) && |s| > 0 && !IsDigit(s[0]) witness "x"

  /** Text without braces passes through `str.format` unchanged. */
  lemma {:induction false} FormatLiteral(a: string, rest: string, b: Bindings)
    requires BraceFree(a)
    ensures Format(a + rest, b) == Prepend(a, Format(rest, b))
    decreases |a|
  {
    if |a| > 0 {
      var s := a + rest;
      assert s[0] == a[0];
      assert s[1..] == a[1..] + rest;
      FormatLiteral(a[1..], rest, b);
      match Format(rest, b)
      case Ok(v) => assert [a[0]] + (a[1..] + v) == a + v;
      case Err(_) =>
    } else {
      assert a + rest == rest;
      match Format(rest, b)
      case Ok(v) => assert a + v == v;
      case Err(_) =>
    }
  }

  /** A placeholder `{name}` whose name is bound is replaced by its text. */
  lemma {:induction false} FormatField(name: string, rest: string, b: Bindings)
    requires BraceFree(name) && !Positional(name) && name in Names(b)
    ensures Format("{" + name + "}" + rest, b) == Prepend(Lookup(b, name).value, Format(rest, b))
  {
    var s := "{" + name + "}" + rest;
    assert s[|name| + 1] == '}';
    forall j | 1 <= j < |name| + 1 ensures s[j] != '}' {
      assert s[j] == name[j - 1];
    }
    assert CloseIndex(s, 1) == |name| + 1;
    assert s[1..|name| + 1] == name;
    assert s[|name| + 2..] == rest;
  }

  // ---- Templates: format strings kept as a list of literal text and placeholders ----

  /**
   * A format string taken apart: literal text and named placeholders, in order,
   * neither holding a brace, and no placeholder positional. `Render` gives back the Python string.
   */
  datatype Tpl = End | Lit(text: Literal, rest: Tpl) | Field(name: KeywordName, rest: Tpl)

  function Render(t: Tpl): string
  {
    match t
    case End => ""
    case Lit(s, r) => s + Render(r)
    case Field(n, r) => "{" + n + "}" + Render(r)
  }

  /** The placeholder names a template uses. */
  function Placeholders(t: Tpl): set<string>
  {
    match t
    case End => {}
    case Lit(_, r) => Placeholders(r)
    case Field(n, r) => {n} + Placeholders(r)
  }

  /** Substitutes every placeholder of `t` by its binding. */
  function Fill(t: Tpl, b: Bindings): string
    requires Placeholders(t) <= Names(b)
  {
    match t
    case End => ""
    case Lit(s, r) => s + Fill(r, b)
    case Field(n, r) => Lookup(b, n).value + Fill(r, b)
  }

  /** Filling a template is exactly `str.format` on its rendered string. */
  lemma {:induction false} FormatRender(t: Tpl, b: Bindings)
    requires Placeholders(t) <= Names(b)
    ensures Format(Render(t), b) == Ok(Fill(t, b))
  {
    match t
    case End =>
    case Lit(s, r) =>
      FormatRender(r, b);
      FormatLiteral(s, Render(r), b);
    case Field(n, r) =>
      FormatRender(r, b);
      FormatField(n, Render(r), b);
      assert Render(t) == "{" + n + "}" + Render(r);
  }
  // ---- Formatting piece by piece ----

  /** `str.format` turns `x` into `y`, whatever text follows `x`. */
  ghost predicate FormatsTo(x: string, b: Bindings, y: string)
  {
    forall rest :: Format(x + rest, b) == Prepend(y, Format(rest, b))
  }

  lemma {:induction false} PrependTwice(x: string, y: string, r: Result<string>)
    ensures Prepend(x, Prepend(y, r)) == Prepend(x + y, r)
  {
    match r
    case Ok(v) => assert x + (y + v) == x + y + v;
    case Err(_) =>
  }

  lemma {:induction false} LiteralFormats(a: string, b: Bindings)
    requires BraceFree(a)
    ensures FormatsTo(a, b, a)
  {
    forall rest ensures Format(a + rest, b) == Prepend(a, Format(rest, b)) {
      FormatLiteral(a, rest, b);
    }
  }

  lemma {:induction false} FormatsBefore(x: string, b: Bindings, y: string, rest: string)
    requires FormatsTo(x, b, y)
    ensures Format(x + rest, b) == Prepend(y, Format(rest, b))
  {
  }

  /** Concatenation of pieces, for any formatter that works left to right. */
  lemma {:induction false} ConcatGeneric(f: string -> Result<string>, x: string, y: string, x2: string, y2: string)
    requires forall rest :: f(x + rest) == Prepend(y, f(rest))
    requires forall rest :: f(x2 + rest) == Prepend(y2, f(rest))
    ensures forall rest :: f(x + x2 + rest) == Prepend(y + y2, f(rest))
  {
    forall rest ensures f(x + x2 + rest) == Prepend(y + y2, f(rest)) {
      assert x + x2 + rest == x + (x2 + rest);
      PrependTwice(y, y2, f(rest));
    }
  }

  /** What formats piece by piece formats as the concatenation of the pieces. */
  lemma {:induction false} ConcatFormats(x: string, y: string, x2: string, y2: string, b: Bindings)
    requires FormatsTo(x, b, y) && FormatsTo(x2, b, y2)
    ensures FormatsTo(x + x2, b, y + y2)
  {
    ConcatGeneric(s => Format(s, b), x, y, x2, y2);
  }

  lemma {:induction false} ErrGeneric(f: string -> Result<string>, x: string, y: string, rest: string)
    requires forall r :: f(x + r) == Prepend(y, f(r))
    requires f(rest).Err?
    ensures f(x + rest) == f(rest)
  {
  }

  /** An error after a piece that formats is the error of the whole. */
  lemma {:induction false} FormatsBeforeErr(x: string, b: Bindings, y: string, rest: string)
    requires FormatsTo(x, b, y) && Format(rest, b).Err?
    ensures Format(x + rest, b) == Format(rest, b)
  {
    ErrGeneric(s => Format(s, b), x, y, rest);
  }

  /** Regrouping the pieces around a placeholder, for any function of the text. */
  lemma {:induction false} RegroupField<R>(f: string -> R, pre: string, name: string, post: string)
    ensures f(pre + "{" + name + "}" + post) == f(pre + ("{" + name + "}" + post))
  {
    assert pre + "{" + name + "}" + post == pre + ("{" + name + "}" + post);
  }

  lemma {:induction false} RegroupThree<R>(f: string -> R, x: string, y: string, z: string)
    ensures f(x + y + z) == f(x + (y + z))
  {
    assert x + y + z == x + (y + z);
  }

  /** A text that formats to `y` before nothing formats to `y`. */
  lemma {:induction false} FormatsWhole(x: string, b: Bindings, y: string)
    requires FormatsTo(x, b, y)
    ensures Format(x, b) == Ok(y)
  {
    assert x + "" == x;
    assert Format(x + "", b) == Prepend(y, Format("", b));
    assert y + "" == y;
  }

  lemma {:induction false} RenderFormats(t: Tpl, b: Bindings)
    requires Placeholders(t) <= Names(b)
    ensures FormatsTo(Render(t), b, Fill(t, b))
  {
    match t
    case End =>
      LiteralFormats("", b);
    case Lit(s, r) =>
      RenderFormats(r, b);
      LiteralFormats(s, b);
      ConcatFormats(s, s, Render(r), Fill(r, b), b);
    case Field(n, r) =>
      RenderFormats(r, b);
      var v := Lookup(b, n).value;
      forall rest ensures Format("{" + n + "}" + rest, b) == Prepend(v, Format(rest, b)) {
        FormatField(n, rest, b);
      }
      ConcatFormats("{" + n + "}", v, Render(r), Fill(r, b), b);
  }

  /** A placeholder without a value, positional or unbound, is an error. */
  lemma {:induction false} UnboundFails(name: string, rest: string, b: Bindings)
    requires BraceFree(name) && (Positional(name) || name !in Names(b))
    ensures Format("{" + name + "}" + rest, b) == Err(FieldError(name))
  {
    var s := "{" + name + "}" + rest;
    assert s[|name| + 1] == '}';
    forall j | 1 <= j < |name| + 1 ensures s[j] != '}' {
      assert s[j] == name[j - 1];
    }
    assert CloseIndex(s, 1) == |name| + 1;
    assert s[1..|name| + 1] == name;
  }
}
