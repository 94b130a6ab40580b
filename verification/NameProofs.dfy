/** The parser undoes the printers. */
module NameProofs {
  import opened NameSpec

  // ---------- numbers ----------

  lemma {:induction false} AccumulateMore(s: string, c: char, result: nat)
    requires AllDigits(s) && IsDigit(c)
    ensures AllDigits(s + [c]) && Accumulate(s + [c], 10, result) == 10 * Accumulate(s, 10, result) + Value(c)
  {
    if s != "" {
      assert (s + [c])[1..] == s[1..] + [c];
      AccumulateMore(s[1..], c, result * 10 + Value(s[0]));
    } else {
      assert (s + [c])[1..] == "";
    }
  }

  lemma {:induction false} AccumulateDec(n: nat)
    ensures Accumulate(Dec(n), 10, 0) == n
  {
    if n >= 10 {
      AccumulateDec(n / 10);
      AccumulateMore(Dec(n / 10), Digit(n % 10), 0);
    } else {
      assert [Digit(n)][1..] == "";
    }
  }

  /** A printed number is read back, although the base is guessed from the text. */
  lemma StrtolDec(n: nat)
    requires n < 0x1_0000_0000
    ensures Strtol(Dec(n)) == n
  {
    AccumulateDec(n);
    if n == 0 {
      assert Dec(0)[1..] == "";
    }
  }

  // ---------- the ends of names and of parentheses ----------

  lemma {:induction false} NameEnds(x: string, y: string)
    requires (forall c :: c in x ==> NameChar(c)) && (y != "" ==> !NameChar(y[0]))
    ensures NameLen(x + y) == |x|
  {
    if x == "" {
      assert x + y == y;
    } else {
      assert (x + y)[1..] == x[1..] + y;
      NameEnds(x[1..], y);
    }
  }

  lemma {:induction false} CloseName(x: string, y: string, depth: nat)
    requires forall c :: c in x ==> c != '(' && c != ')'
    ensures Closing(x + y, depth) == Plus(|x|, Closing(y, depth))
  {
    if x == "" {
      assert x + y == y;
    } else {
      assert (x + y)[1..] == x[1..] + y && x[0] in x;
      assert forall c :: c in x[1..] ==> c in x;
      CloseName(x[1..], y, depth);
    }
  }

  lemma NoParens(x: string)
    requires forall c :: c in x ==> NameChar(c)
    ensures forall c :: c in x ==> c != '(' && c != ')' && c != ','
  {
    assert !NameChar('(') && !NameChar(')') && !NameChar(',');
    hide NameChar;
  }

  lemma DigitsAreName(x: string)
    requires AllDigits(x)
    ensures forall c :: c in x ==> NameChar(c)
  {
  }

  lemma CloseOpen(y: string, depth: nat)
    ensures Closing("(" + y, depth) == Plus(1, Closing(y, depth + 1))
  {
    assert ("(" + y)[1..] == y;
  }

  lemma CloseShut(y: string, depth: nat)
    ensures Closing(")" + y, depth) == if depth == 0 then Len(1) else Plus(1, Closing(y, depth - 1))
  {
    assert (")" + y)[1..] == y;
  }

  /** Printed names are balanced: the search for the closing parenthesis gets through them. */
  lemma {:induction false} ClosePrint(t: Term, y: string, depth: nat)
    requires Proper(t)
    ensures Closing(Print(t) + y, depth) == Plus(|Print(t)|, Closing(y, depth))
    decreases t
  {
    match t
    case Name(name) =>
      NoParens(name);
      CloseName(name, y, depth);
    case Apply(tmpl, args) =>
      var a := PrintArgs(args);
      NoParens(tmpl);
      hide Closing, NameChar;
      assert Print(t) + y == tmpl + ("(" + (a + (")" + y)));
      CloseName(tmpl, "(" + (a + (")" + y)), depth);
      CloseOpen(a + (")" + y), depth);
      CloseArgs(args, ")" + y, depth + 1);
      CloseShut(y, depth + 1);
  }

  lemma {:induction false} CloseArg(a: Arg, y: string, depth: nat)
    requires ProperArg(a)
    ensures Closing(PrintArg(a) + y, depth) == Plus(|PrintArg(a)|, Closing(y, depth))
    decreases a
  {
    match a
    case Alg(term) => ClosePrint(term, y, depth);
    case Num(n) =>
      DigitsAreName(Dec(n));
      NoParens(Dec(n));
      CloseName(Dec(n), y, depth);
  }

  lemma {:induction false} CloseArgs(args: seq<Arg>, y: string, depth: nat)
    requires forall a :: a in args ==> ProperArg(a)
    ensures Closing(PrintArgs(args) + y, depth) == Plus(|PrintArgs(args)|, Closing(y, depth))
    decreases args
  {
    hide Closing;
    if args == [] {
      assert PrintArgs(args) + y == y;
    } else if |args| == 1 {
      CloseArg(args[0], y, depth);
    } else {
      var x, rest := PrintArg(args[0]), PrintArgs(args[1..]);
      assert PrintArgs(args) + y == x + ("," + (rest + y));
      CloseArg(args[0], "," + (rest + y), depth);
      CloseName(",", rest + y, depth);
      CloseArgs(args[1..], y, depth);
    }
  }

  // ---------- one argument ----------

  /** What the parser is to make of an argument. */
  function ParamFor(a: Arg): Param {
    match a
    case Alg(term) => AlgName(Print(term))
    case Num(n) => U32(n)
  }

  predicate Delimited(rest: string) {
    rest != "" && (rest[0] == ',' || rest[0] == ')')
  }

  /** A name followed by something in parentheses. */
  lemma AppliedEnds(tmpl: string, tail: string, n: nat)
    requires IsName(tmpl) && Closing(tail, 0) == Len(n)
    ensures ArgLen(tmpl + ("(" + tail)) == Len(|tmpl| + 1 + n)
  {
    hide Closing, NameChar, NameLen, IsName;
    NameEndsHere(tmpl, tail);
    Behind(tmpl, tail);
  }

  lemma NameEndsHere(tmpl: string, tail: string)
    requires IsName(tmpl)
    ensures NameLen(tmpl + ("(" + tail)) == |tmpl|
  {
    assert !NameChar('(');
    NameEnds(tmpl, "(" + tail);
  }

  lemma Behind(tmpl: string, tail: string)
    ensures var r := tmpl + ("(" + tail); |r| > |tmpl| && r[|tmpl|] == '(' && r[|tmpl| + 1..] == tail
  {
  }

  lemma PlainEnds(x: string, rest: string)
    requires (forall c :: c in x ==> NameChar(c)) && Delimited(rest)
    ensures ArgLen(x + rest) == Len(|x|)
  {
    assert !NameChar(')') && !NameChar(',');
    NameEnds(x, rest);
    assert (x + rest)[|x|] == rest[0];
    hide NameLen, NameChar;
  }

  lemma ArgEnds(a: Arg, rest: string)
    requires ProperArg(a) && Delimited(rest)
    ensures PrintArg(a) != "" && ArgLen(PrintArg(a) + rest) == Len(|PrintArg(a)|)
  {
    hide ArgLen, Closing, NameChar, PrintArgs, Dec, Delimited;
    match a
    case Num(n) =>
      DigitsAreName(Dec(n));
      PlainEnds(Dec(n), rest);
    case Alg(term) =>
      match term
      case Name(name) => PlainEnds(name, rest);
      case Apply(tmpl, args) =>
        var inner := PrintArgs(args);
        CloseArgs(args, ")" + rest, 0);
        CloseShut(rest, 0);
        AppliedEnds(tmpl, inner + (")" + rest), |inner| + 1);
        Regroup(tmpl, "(", inner, ")", rest);
        assert PrintArg(a) == tmpl + "(" + inner + ")";
  }

  lemma ArgRead(a: Arg, rest: string)
    requires ProperArg(a) && PrintArg(a) != ""
    ensures ParamOf(PrintArg(a) + rest, |PrintArg(a)|) == ParamFor(a)
  {
    var x := PrintArg(a);
    assert (x + rest)[..|x|] == x;
    match a
    case Num(n) => StrtolDec(n);
    case Alg(term) =>
      if term.Apply? {
        assert x[|term.tmpl|] == '(' && '(' in x;
        assert !IsDigit('(');
      }
  }

  // ---------- all arguments ----------

  function ParamsFor(args: seq<Arg>): seq<Param> {
    if args == [] then [] else [ParamFor(args[0])] + ParamsFor(args[1..])
  }

  function Prepend(p: Param, x: Params): Params {
    if x.NoParams? then NoParams else Params([p] + x.ps)
  }

  lemma ParseRound(r: string, n: nat, i: nat)
    requires ArgLen(r) == Len(n) && 0 < n < |r| && (r[n] == ')' || r[n] == ',')
    ensures ParseArgs(r, i) ==
            if i + 1 >= MAX_ATTRS then NoParams
            else if r[n] == ')' then Params([ParamOf(r, n)])
            else Prepend(ParamOf(r, n), ParseArgs(r[n + 1..], i + 1))
  {
    hide ArgLen, ParamOf;
  }

  /** One round of the loop over the arguments. */
  lemma ArgStep(a: Arg, tail: string, i: nat)
    requires ProperArg(a) && Delimited(tail)
    ensures ParseArgs(PrintArg(a) + tail, i) ==
            if i + 1 >= MAX_ATTRS then NoParams
            else if tail[0] == ')' then Params([ParamFor(a)])
            else Prepend(ParamFor(a), ParseArgs(tail[1..], i + 1))
  {
    hide ParseArgs, ArgLen, ParamOf, PrintArg, ProperArg, ParamFor;
    var x := PrintArg(a);
    var r := x + tail;
    ArgEnds(a, tail);
    ArgRead(a, tail);
    assert r[|x|] == tail[0] && r[|x| + 1..] == tail[1..];
    ParseRound(r, |x|, i);
  }

  lemma PrintSeveral(args: seq<Arg>, end: string)
    requires |args| > 1
    ensures PrintArgs(args) + end == PrintArg(args[0]) + ("," + (PrintArgs(args[1..]) + end))
    ensures ("," + (PrintArgs(args[1..]) + end))[1..] == PrintArgs(args[1..]) + end
    ensures ParamsFor(args) == [ParamFor(args[0])] + ParamsFor(args[1..])
  {
    hide PrintArg, ParamFor;
  }

  lemma PrintSingle(args: seq<Arg>)
    requires |args| == 1
    ensures PrintArgs(args) == PrintArg(args[0]) && ParamsFor(args) == [ParamFor(args[0])]
  {
    hide PrintArg, ParamFor;
  }

  lemma {:induction false} ArgsRead(args: seq<Arg>, rest: string, i: nat)
    requires args != [] && forall a :: a in args ==> ProperArg(a)
    ensures ParseArgs(PrintArgs(args) + (")" + rest), i) ==
            if i + |args| < MAX_ATTRS then Params(ParamsFor(args)) else NoParams
    decreases args
  {
    hide ParseArgs, PrintArgs, PrintArg, ProperArg, ParamFor, ParamsFor;
    var end := ")" + rest;
    if |args| == 1 {
      PrintSingle(args);
      ArgStep(args[0], end, i);
    } else {
      PrintSeveral(args, end);
      ArgStep(args[0], "," + (PrintArgs(args[1..]) + end), i);
      ArgsRead(args[1..], rest, i + 1);
    }
  }

  /** The parser undoes the printer: a printed template application is taken apart into the template and the printed
    * arguments, numbers as numbers, whatever follows it, exactly when it has at least one argument and fewer than 32. */
  lemma ParserUndoesPrinter(tmpl: string, args: seq<Arg>, rest: string)
    requires Proper(Apply(tmpl, args))
    ensures Parse(Print(Apply(tmpl, args)) + rest) ==
            if 0 < |args| < MAX_ATTRS then Parsed(tmpl, ParamsFor(args)) else Fail
  {
    hide Parse, ParseArgs, Print, PrintArgs, ProperArg, IsName, ParamsFor;
    var body := PrintArgs(args) + (")" + rest);
    PrintApply(tmpl, args);
    Regroup(tmpl, "(", PrintArgs(args), ")", rest);
    ParseIs(tmpl, body);
    if args == [] {
      EmptyFails(rest);
      PrintNone();
    } else {
      ArgsRead(args, rest, 0);
    }
  }

  lemma Regroup(a: string, b: string, c: string, d: string, e: string)
    ensures a + b + c + d + e == a + (b + (c + (d + e)))
    ensures [] + (d + e) == d + e
  {
  }

  lemma PrintNone()
    ensures PrintArgs([]) == []
  {
  }

  lemma ParseIs(tmpl: string, body: string)
    requires IsName(tmpl)
    ensures Parse(tmpl + ("(" + body)) ==
            (var x := ParseArgs(body, 0); if x.NoParams? then Fail else Parsed(tmpl, x.ps))
  {
    hide ParseArgs, NameChar, NameLen, IsName;
    var s := tmpl + ("(" + body);
    NameEndsHere(tmpl, body);
    Behind(tmpl, body);
    assert s[..|tmpl|] == tmpl;
    assert tmpl != [] by { NotEmpty(tmpl); }
  }

  lemma NotEmpty(s: string)
    requires IsName(s)
    ensures s != []
  {
  }

  lemma EmptyFails(rest: string)
    ensures ParseArgs(")" + rest, 0) == NoParams
  {
    assert !NameChar(')');
    NameEnds("", ")" + rest);
    assert "" + (")" + rest) == ")" + rest;
  }

  // ---------- whole terms ----------

  /** Parsing again and again, as probing for each argument does. */
  function Rebuild(s: string): Term
    decreases |s|
  {
    var x := Parse(s);
    if x.Fail? then Name(s)
    else Apply(x.tmpl, seq(|x.params|, k requires 0 <= k < |x.params| => RebuildParam(s, x.params[k])))
  }

  function RebuildParam(s: string, p: Param): Arg
    requires p.AlgName? ==> |p.name| < |s|
    decreases |s|, 0
  {
    match p
    case AlgName(name) => Alg(Rebuild(name))
    case U32(n) => Num(n)
  }

  /** Every application in the term has some arguments, and fewer than 32. */
  predicate Sized(t: Term)
    decreases t
  {
    t.Apply? ==> 0 < |t.args| < MAX_ATTRS && forall a :: a in t.args && a.Alg? ==> Sized(a.term)
  }

  lemma {:induction false} ParamsForAt(args: seq<Arg>, k: nat)
    requires k < |args|
    ensures |ParamsFor(args)| == |args| && ParamsFor(args)[k] == ParamFor(args[k])
    decreases args
  {
    if k > 0 {
      ParamsForAt(args[1..], k - 1);
    } else if |args| > 1 {
      ParamsForAt(args[1..], 0);
    }
  }

  lemma PlainFails(name: string)
    requires IsName(name)
    ensures Parse(name) == Fail
  {
    NameEnds(name, "");
    assert name + "" == name;
  }

  /** At any depth of nesting, the whole term comes back. */
  lemma {:induction false} RebuildUndoesPrint(t: Term)
    requires Proper(t) && Sized(t)
    ensures Rebuild(Print(t)) == t
    decreases t
  {
    var s := Print(t);
    match t
    case Name(name) => PlainFails(name);
    case Apply(tmpl, args) =>
      ParserUndoesPrinter(tmpl, args, "");
      assert s + "" == s;
      var x := Parse(s);
      ParamsForAt(args, 0);
      forall k | 0 <= k < |args| ensures RebuildParam(s, x.params[k]) == args[k] {
        ParamsForAt(args, k);
        assert args[k] in args;
        if args[k].Alg? {
          RebuildUndoesPrint(args[k].term);
        }
      }
      hide Print, Parse, ParamsFor, Proper, Sized;
      assert Rebuild(s).args == args;
  }

  // ---------- the printers of the source ----------

  /** crypto_alloc_instance prints a template and the name of an algorithm. */
  lemma InstanceName(tmpl: string, a: Term)
    ensures Print(Apply(tmpl, [Alg(a)])) == tmpl + "(" + Print(a) + ")"
  {
    PrintApply(tmpl, [Alg(a)]);
    PrintOne(Alg(a));
    hide Print, PrintArgs;
  }

  /** authenc prints two names and two numbers. */
  lemma AuthencName(a: Term, authsize: nat, b: Term, enckeylen: nat)
    ensures Print(Apply("authenc", [Alg(a), Num(authsize), Alg(b), Num(enckeylen)])) ==
            "authenc(" + Print(a) + "," + Dec(authsize) + "," + Print(b) + "," + Dec(enckeylen) + ")"
  {
    hide Print, PrintArgs, PrintArg, Dec;
    var one := [Num(enckeylen)];
    var two, three := [Alg(b)] + one, [Num(authsize)] + ([Alg(b)] + one);
    PrintApply("authenc", [Alg(a)] + three);
    PrintMore(Alg(a), three);
    PrintMore(Num(authsize), two);
    PrintMore(Alg(b), one);
    PrintOne(Num(enckeylen));
    assert [Alg(a)] + three == [Alg(a), Num(authsize), Alg(b), Num(enckeylen)];
    Commas(Print(a), Dec(authsize), Print(b), Dec(enckeylen));
  }

  lemma Commas(a: string, b: string, c: string, d: string)
    ensures "authenc" + "(" + (a + "," + (b + "," + (c + "," + d))) + ")" == "authenc(" + a + "," + b + "," + c + "," + d + ")"
  {
    var inner := a + "," + (b + "," + (c + "," + d));
    assert inner == a + "," + b + "," + c + "," + d;
    assert "authenc" + "(" == "authenc(";
    Outside("authenc(", a, b, c, d);
  }

  lemma Outside(t: string, a: string, b: string, c: string, d: string)
    ensures t + (a + "," + b + "," + c + "," + d) + ")" == t + a + "," + b + "," + c + "," + d + ")"
  {
  }

  lemma PrintApply(tmpl: string, args: seq<Arg>)
    ensures Print(Apply(tmpl, args)) == tmpl + "(" + PrintArgs(args) + ")"
  {
    hide PrintArgs;
  }

  lemma PrintOne(a: Arg)
    ensures PrintArgs([a]) == PrintArg(a)
    ensures a.Alg? ==> PrintArg(a) == Print(a.term)
    ensures a.Num? ==> PrintArg(a) == Dec(a.n)
  {
    hide Print, Dec;
  }

  lemma PrintMore(a: Arg, rest: seq<Arg>)
    requires rest != []
    ensures PrintArgs([a] + rest) == PrintArg(a) + "," + PrintArgs(rest)
    ensures a.Alg? ==> PrintArg(a) == Print(a.term)
    ensures a.Num? ==> PrintArg(a) == Dec(a.n)
  {
    assert ([a] + rest)[1..] == rest;
    hide Print, Dec;
  }
}
