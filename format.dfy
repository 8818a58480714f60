/** String.Format(string, params object[]) restricted to the placeholders the
    client's templates use: `{{` and `}}` stand for one brace, `{n}` for the
    n-th argument, and any other brace is a FormatException. */
module Format {
  import opened Results

  /** A template after parsing: a literal character or a numbered hole. */
  datatype Token = Literal(c: char) | Hole(index: nat)

  predicate IsDigit(c: char) { '0' <= c <= '9' }

  /** Length of the run of decimal digits at the front of `s`. */
  function DigitRun(s: string): (n: nat)
    ensures n <= |s|
    ensures forall i :: 0 <= i < n ==> IsDigit(s[i])
    ensures n < |s| ==> !IsDigit(s[n])
  {
    if s == [] || !IsDigit(s[0]) then 0 else 1 + DigitRun(s[1..])
  }

  function DigitValue(c: char): (d: nat)
    requires IsDigit(c)
    ensures d < 10
  {
    c as int - '0' as int
  }

  function DigitChar(d: nat): (c: char)
    requires d < 10
    ensures IsDigit(c) && DigitValue(c) == d
  {
    ('0' as int + d) as char
  }

  /** The value of a string of decimal digits, most significant first. */
  function DecimalValue(s: string): nat
    requires forall i :: 0 <= i < |s| ==> IsDigit(s[i])
  {
    if s == [] then 0 else 10 * DecimalValue(s[..|s| - 1]) + DigitValue(s[|s| - 1])
  }

  /** The shortest decimal spelling of `n`. */
  function Decimal(n: nat): (s: string)
    ensures |s| >= 1
    ensures forall i :: 0 <= i < |s| ==> IsDigit(s[i])
  {
    (if n < 10 then [] else Decimal(n / 10)) + [DigitChar(n % 10)]
  }

  /** The literal tokens of a text, one per character. */
  function Literals(s: string): (tokens: seq<Token>)
    ensures |tokens| == |s|
  {
    if s == [] then [] else [Literal(s[0])] + Literals(s[1..])
  }

  /** The token at the front of a non-empty template and how many characters
      it takes up, or the FormatException String.Format throws there. */
  function Next(fmt: string): (r: Result<(Token, nat)>)
    requires fmt != []
    ensures r.Ok? ==> 1 <= r.value.1 <= |fmt|
  {
    if fmt[0] == '{' then
      if |fmt| >= 2 && fmt[1] == '{' then Ok((Literal('{'), 2))
      else
        var n := DigitRun(fmt[1..]);
        if n == 0 || n + 1 == |fmt| || fmt[n + 1] != '}' then Err(FormatException)
        else Ok((Hole(DecimalValue(fmt[1..n + 1])), n + 2))
    else if fmt[0] == '}' then
      if |fmt| >= 2 && fmt[1] == '}' then Ok((Literal('}'), 2))
      else Err(FormatException)
    else Ok((Literal(fmt[0]), 1))
  }

  /** The scan of String.Format's parser over the template, left to right. */
  function Parse(fmt: string): (r: Result<seq<Token>>)
    ensures r.Err? ==> r.error == FormatException
    decreases |fmt|
  {
    if fmt == [] then Ok([])
    else
      match Next(fmt)
      case Err(e) => Err(e)
      case Ok((t, k)) =>
        var rest := Parse(fmt[k..]);
        if rest.Ok? then Ok([t] + rest.value) else rest
  }

  /** The canonical template text of a token sequence: braces doubled, holes in decimal. */
  function Print(tokens: seq<Token>): string
  {
    if tokens == [] then [] else PrintToken(tokens[0]) + Print(tokens[1..])
  }

  function PrintToken(t: Token): string
  {
    match t
    case Literal(c) => if c == '{' || c == '}' then [c, c] else [c]
    case Hole(n) => "{" + Decimal(n) + "}"
  }

  /** Substitutes the arguments for the holes; a hole past the last argument is a FormatException. */
  function Render(tokens: seq<Token>, args: seq<string>): (r: Result<string>)
    ensures r.Err? ==> r.error == FormatException
  {
    if tokens == [] then Ok([])
    else
      var head := RenderToken(tokens[0], args);
      if head.Err? then head
      else
        var tail := Render(tokens[1..], args);
        if tail.Err? then tail else Ok(head.value + tail.value)
  }

  function RenderToken(t: Token, args: seq<string>): Result<string>
  {
    match t
    case Literal(c) => Ok([c])
    case Hole(n) => if n < |args| then Ok(args[n]) else Err(FormatException)
  }

  /** string.Format(fmt, args). A null argument is passed here as the empty
      string, which is what String.Format substitutes for it. */
  function StringFormat(fmt: string, args: seq<string>): (r: Result<string>)
    ensures r.Ok? <==> Placeholders(fmt).Ok? && AllBelow(Placeholders(fmt).value, |args|)
    ensures r.Err? ==> r.error == FormatException
  {
    var tokens :- Parse(fmt);
    RenderOk(tokens, args);
    Render(tokens, args)
  }

  /** True when the template has no unescaped brace of its own. */
  predicate NoBraces(s: string) { '{' !in s && '}' !in s }

  // ---- decimal numbers ----

  lemma {:induction false} DecimalRoundTrip(n: nat)
    ensures DecimalValue(Decimal(n)) == n
  {
    var s := Decimal(n);
    var q, r := n / 10, n % 10;
    assert n == 10 * q + r;
    var front: string := if n < 10 then [] else Decimal(q);
    var last := DigitChar(r);
    assert s == front + [last];
    assert s[..|s| - 1] == front && s[|s| - 1] == last;
    if n >= 10 {
      DecimalRoundTrip(q);
    }
    assert DecimalValue(front) == q;
  }

  lemma {:induction false} DigitRunStops(a: string, b: string)
    requires DigitRun(a) < |a|
    ensures DigitRun(a + b) == DigitRun(a)
  {
    if a != [] && IsDigit(a[0]) {
      assert (a + b)[1..] == a[1..] + b;
      DigitRunStops(a[1..], b);
    }
  }

  lemma {:induction false} DigitRunAll(digits: string, b: string)
    requires forall i :: 0 <= i < |digits| ==> IsDigit(digits[i])
    requires b != [] && !IsDigit(b[0])
    ensures DigitRun(digits + b) == |digits|
  {
    if digits != [] {
      assert (digits + b)[1..] == digits[1..] + b;
      DigitRunAll(digits[1..], b);
    } else {
      assert digits + b == b;
    }
  }

  // ---- the parser ----

  /** The tokens `prefix` followed by the outcome of parsing what comes after them. */
  function Then(prefix: seq<Token>, rest: Result<seq<Token>>): Result<seq<Token>>
  {
    if rest.Ok? then Ok(prefix + rest.value) else rest
  }

  /** A token read off a template is read the same way whatever follows the template. */
  lemma NextAppend(a: string, b: string)
    requires a != [] && Next(a).Ok?
    ensures Next(a + b) == Next(a)
  {
    assert (a + b)[0] == a[0];
    if a[0] == '{' && !(|a| >= 2 && a[1] == '{') {
      var n := DigitRun(a[1..]);
      assert (a + b)[1..] == a[1..] + b;
      DigitRunStops(a[1..], b);
      assert (a + b)[n + 1] == '}';
      assert (a + b)[1..n + 1] == a[1..n + 1];
    } else if |a| >= 2 {
      assert (a + b)[1] == a[1];
    }
  }

  /** Once a whole prefix parses, the parser carries on with the rest as if it stood alone. */
  lemma {:induction false} ParseAppend(a: string, b: string)
    requires Parse(a).Ok?
    ensures Parse(a + b) == Then(Parse(a).value, Parse(b))
    decreases |a|
  {
    if a == [] {
      assert a + b == b;
      if Parse(b).Ok? {
        assert [] + Parse(b).value == Parse(b).value;
      }
    } else {
      NextAppend(a, b);
      var (t, k) := Next(a).value;
      assert (a + b)[k..] == a[k..] + b;
      ParseAppend(a[k..], b);
      if Parse(b).Ok? {
        assert [t] + (Parse(a[k..]).value + Parse(b).value) == ([t] + Parse(a[k..]).value) + Parse(b).value;
      }
    }
  }

  lemma ParseToken(t: Token)
    ensures Parse(PrintToken(t)) == Ok([t])
  {
    var text := PrintToken(t);
    match t
    case Literal(c) =>
      var k := if c == '{' || c == '}' then 2 else 1;
      assert Next(text) == Ok((t, k));
      assert text[k..] == [];
      assert Parse(text) == Ok([t] + []);
      assert [t] + [] == [t];
    case Hole(n) =>
      var d := Decimal(n);
      assert text[1..] == d + "}";
      DigitRunAll(d, "}");
      assert text[1..|d| + 1] == d;
      assert text[|d| + 2..] == [];
      DecimalRoundTrip(n);
      assert Next(text) == Ok((Hole(n), |d| + 2));
      assert Parse(text[|d| + 2..]) == Ok([]);
      assert Parse(text) == Ok([Hole(n)] + []);
      assert [Hole(n)] + [] == [t];
  }

  /** Printing and parsing are inverse: every token sequence survives the round trip. */
  lemma {:induction false} ParsePrint(tokens: seq<Token>)
    ensures Parse(Print(tokens)) == Ok(tokens)
  {
    if tokens != [] {
      ParseToken(tokens[0]);
      ParseAppend(PrintToken(tokens[0]), Print(tokens[1..]));
      ParsePrint(tokens[1..]);
      assert [tokens[0]] + tokens[1..] == tokens;
    }
  }

  lemma {:induction false} ParseNoBraces(s: string)
    requires NoBraces(s)
    ensures Parse(s) == Ok(Literals(s))
  {
    if s != [] {
      ParseNoBraces(s[1..]);
    }
  }

  // ---- rendering ----

  lemma {:induction false} RenderAppend(ta: seq<Token>, tb: seq<Token>, args: seq<string>)
    requires Render(ta, args).Ok? && Render(tb, args).Ok?
    ensures Render(ta + tb, args) == Ok(Render(ta, args).value + Render(tb, args).value)
  {
    if ta == [] {
      assert ta + tb == tb;
      assert [] + Render(tb, args).value == Render(tb, args).value;
    } else {
      assert (ta + tb)[0] == ta[0];
      assert (ta + tb)[1..] == ta[1..] + tb;
      RenderAppend(ta[1..], tb, args);
      var h := RenderToken(ta[0], args).value;
      assert h + (Render(ta[1..], args).value + Render(tb, args).value)
          == (h + Render(ta[1..], args).value) + Render(tb, args).value;
    }
  }

  lemma {:induction false} RenderLiterals(s: string, args: seq<string>)
    ensures Render(Literals(s), args) == Ok(s)
  {
    if s != [] {
      RenderLiterals(s[1..], args);
      assert [s[0]] + s[1..] == s;
    }
  }

  // ---- string.Format ----

  /** A template that parses, followed by one that parses, formats to the two results one after the other. */
  lemma FormatAppend(a: string, b: string, args: seq<string>)
    requires StringFormat(a, args).Ok? && StringFormat(b, args).Ok?
    ensures StringFormat(a + b, args) == Ok(StringFormat(a, args).value + StringFormat(b, args).value)
  {
    ParseAppend(a, b);
    assert Parse(a + b) == Ok(Parse(a).value + Parse(b).value);
    RenderAppend(Parse(a).value, Parse(b).value, args);
  }

  /** Text with no braces is copied through unchanged, whatever the arguments. */
  lemma FormatPlain(s: string, args: seq<string>)
    requires NoBraces(s)
    ensures StringFormat(s, args) == Ok(s)
  {
    ParseNoBraces(s);
    RenderLiterals(s, args);
  }

  /** A hole whose index is within the arguments formats to that argument. */
  lemma FormatHole(n: nat, args: seq<string>)
    requires n < |args|
    ensures StringFormat("{" + Decimal(n) + "}", args) == Ok(args[n])
  {
    ParseHole(n);
    var tokens := [Hole(n)];
    assert tokens[0] == Hole(n) && tokens[1..] == [];
    assert Render(tokens[1..], args) == Ok([]);
    assert RenderToken(tokens[0], args) == Ok(args[n]);
    assert args[n] + [] == args[n];
    assert Render(tokens, args) == Ok(args[n]);
  }

  /** The holes the client's templates use, written out. */
  lemma FormatHole0(args: seq<string>)
    requires 0 < |args|
    ensures StringFormat("{0}", args) == Ok(args[0])
  {
    assert "{0}" == "{" + Decimal(0) + "}";
    FormatHole(0, args);
  }

  lemma FormatHole1(args: seq<string>)
    requires 1 < |args|
    ensures StringFormat("{1}", args) == Ok(args[1])
  {
    assert "{1}" == "{" + Decimal(1) + "}";
    FormatHole(1, args);
  }

  lemma FormatHole2(args: seq<string>)
    requires 2 < |args|
    ensures StringFormat("{2}", args) == Ok(args[2])
  {
    assert "{2}" == "{" + Decimal(2) + "}";
    FormatHole(2, args);
  }

  /** A doubled opening brace formats to one opening brace. */
  lemma FormatOpen(args: seq<string>)
    ensures StringFormat("{{", args) == Ok("{")
  {
    ParseOpenBrace();
    RenderLiterals("{", args);
  }

  /** A doubled closing brace formats to one closing brace. */
  lemma FormatClose(args: seq<string>)
    ensures StringFormat("}}", args) == Ok("}")
  {
    ParseCloseBrace();
    RenderLiterals("}", args);
  }

  /** Formatting two successful templates side by side joins their results. */
  lemma Step(a: string, b: string, args: seq<string>, x: string, y: string)
    requires StringFormat(a, args) == Ok(x) && StringFormat(b, args) == Ok(y)
    ensures StringFormat(a + b, args) == Ok(x + y)
  {
    FormatAppend(a, b, args);
  }

  // ---- the holes of a template ----

  /** The hole numbers of a token sequence, in order. */
  function Holes(tokens: seq<Token>): seq<nat>
  {
    if tokens == [] then []
    else (if tokens[0].Hole? then [tokens[0].index] else []) + Holes(tokens[1..])
  }

  lemma {:induction false} HolesAppend(a: seq<Token>, b: seq<Token>)
    ensures Holes(a + b) == Holes(a) + Holes(b)
  {
    if a == [] {
      assert a + b == b;
    } else {
      assert (a + b)[0] == a[0];
      assert (a + b)[1..] == a[1..] + b;
      HolesAppend(a[1..], b);
      var h := if a[0].Hole? then [a[0].index] else [];
      assert h + (Holes(a[1..]) + Holes(b)) == (h + Holes(a[1..])) + Holes(b);
    }
  }

  lemma {:induction false} HolesLiterals(s: string)
    ensures Holes(Literals(s)) == []
  {
    if s != [] {
      HolesLiterals(s[1..]);
    }
  }

  lemma ParseOpenBrace()
    ensures Parse("{{") == Ok(Literals("{"))
  {
    ParseToken(Literal('{'));
  }

  lemma ParseCloseBrace()
    ensures Parse("}}") == Ok(Literals("}"))
  {
    ParseToken(Literal('}'));
  }

  lemma ParseHole(n: nat)
    ensures Parse("{" + Decimal(n) + "}") == Ok([Hole(n)])
  {
    ParseToken(Hole(n));
  }

  /** The hole numbers of a template in order of appearance, or the
      FormatException String.Format throws on it. */
  function Placeholders(fmt: string): Result<seq<nat>>
  {
    var tokens :- Parse(fmt);
    Ok(Holes(tokens))
  }

  /** The holes of two templates side by side are those of the first, then those of the second. */
  lemma PlaceholdersStep(a: string, b: string, ha: seq<nat>, hb: seq<nat>)
    requires Placeholders(a) == Ok(ha) && Placeholders(b) == Ok(hb)
    ensures Placeholders(a + b) == Ok(ha + hb)
  {
    ParseAppend(a, b);
    HolesAppend(Parse(a).value, Parse(b).value);
  }

  /** A template piece without holes adds none. */
  lemma PlaceholdersThen(a: string, b: string, ha: seq<nat>)
    requires Placeholders(a) == Ok(ha) && Placeholders(b) == Ok([])
    ensures Placeholders(a + b) == Ok(ha)
  {
    PlaceholdersStep(a, b, ha, []);
    assert ha + [] == ha;
  }

  lemma PlaceholdersPlain(s: string)
    requires NoBraces(s)
    ensures Placeholders(s) == Ok([])
  {
    ParseNoBraces(s);
    HolesLiterals(s);
  }

  lemma PlaceholdersOpen()
    ensures Placeholders("{{") == Ok([])
  {
    ParseOpenBrace();
    HolesLiterals("{");
  }

  lemma PlaceholdersClose()
    ensures Placeholders("}}") == Ok([])
  {
    ParseCloseBrace();
    HolesLiterals("}");
  }

  lemma PlaceholdersHole(n: nat)
    ensures Placeholders("{" + Decimal(n) + "}") == Ok([n])
  {
    ParseHole(n);
    var tokens := [Hole(n)];
    assert tokens[1..] == [];
    assert Holes(tokens) == [n] + Holes(tokens[1..]);
    assert [n] + [] == [n];
  }

  /** The holes the client's templates use, written out. */
  lemma PlaceholdersHole0()
    ensures Placeholders("{0}") == Ok([0])
  {
    assert "{0}" == "{" + Decimal(0) + "}";
    PlaceholdersHole(0);
  }

  lemma PlaceholdersHole1()
    ensures Placeholders("{1}") == Ok([1])
  {
    assert "{1}" == "{" + Decimal(1) + "}";
    PlaceholdersHole(1);
  }

  lemma PlaceholdersHole2()
    ensures Placeholders("{2}") == Ok([2])
  {
    assert "{2}" == "{" + Decimal(2) + "}";
    PlaceholdersHole(2);
  }

  /** Every number of `s` is below `k`. */
  predicate AllBelow(s: seq<nat>, k: nat)
  {
    forall i :: 0 <= i < |s| ==> s[i] < k
  }

  /** A parsed template renders without error exactly when each of its holes
      is below the number of arguments. */
  lemma {:induction false} RenderOk(tokens: seq<Token>, args: seq<string>)
    ensures Render(tokens, args).Ok? <==> AllBelow(Holes(tokens), |args|)
  {
    if tokens != [] {
      RenderOk(tokens[1..], args);
      if tokens[0].Hole? {
        BoundCons(Holes(tokens), tokens[0].index, Holes(tokens[1..]), |args|);
      } else {
        assert Holes(tokens) == [] + Holes(tokens[1..]);
        assert [] + Holes(tokens[1..]) == Holes(tokens[1..]);
      }
    }
  }

  /** Every number of `all`, that is `[n] + rest`, is below `k` exactly when `n` and every number of `rest` are. */
  lemma BoundCons(all: seq<nat>, n: nat, rest: seq<nat>, k: nat)
    requires all == [n] + rest
    ensures AllBelow(all, k) <==> n < k && AllBelow(rest, k)
  {
    if AllBelow(all, k) {
      assert all[0] == n;
      forall i | 0 <= i < |rest| ensures rest[i] < k {
        assert all[i + 1] == rest[i];
      }
    }
    if n < k && AllBelow(rest, k) {
      forall i | 0 <= i < |all| ensures all[i] < k {
        if i > 0 { assert all[i] == rest[i - 1]; }
      }
    }
  }
}
