/** What the parser of names accepts, as a grammar that does not mention how it scans. */
module NameGrammar {
  import opened NameSpec
  import opened NameProofs

  predicate Word(s: string) {
    forall c :: c in s ==> NameChar(c)
  }

  /** Parentheses opened less parentheses closed. */
  function Depth(s: string): int {
    if s == "" then 0 else Depth(s[1..]) + if s[0] == '(' then 1 else if s[0] == ')' then -1 else 0
  }

  /** No closing parenthesis without one that is open, and depth more are closed than opened. */
  predicate Balanced(s: string, depth: nat) {
    Depth(s) + depth == 0 && forall k :: 0 <= k <= |s| ==> Depth(s[..k]) + depth >= 0
  }

  /** A word, possibly empty, and after it anything balanced in parentheses. */
  predicate Applied(x: string, k: nat) {
    k + 1 < |x| && x[k] == '(' && x[|x| - 1] == ')' && Word(x[..k]) && Balanced(x[k + 1..|x| - 1], 0)
  }

  ghost predicate IsArg(x: string) {
    x != "" && (Word(x) || exists k: nat :: Applied(x, k))
  }

  ghost predicate AreArgs(xs: seq<string>) {
    forall i :: 0 <= i < |xs| ==> IsArg(xs[i])
  }

  function Commas(xs: seq<string>): string {
    if xs == [] then "" else if |xs| == 1 then xs[0] else xs[0] + "," + Commas(xs[1..])
  }

  /** Digits are a number; anything else is a name. */
  function ReadAs(x: string): Param {
    if x != "" && AllDigits(x) then U32(Strtol(x)) else AlgName(x)
  }

  function ReadAll(xs: seq<string>): seq<Param> {
    if xs == [] then [] else [ReadAs(xs[0])] + ReadAll(xs[1..])
  }

  /** A name, some arguments in parentheses, fewer than 32, and whatever may follow. */
  ghost predicate Reads(s: string, tmpl: string, xs: seq<string>, rest: string) {
    IsName(tmpl) && 0 < |xs| < MAX_ATTRS && AreArgs(xs) && s == tmpl + ("(" + (Commas(xs) + (")" + rest)))
  }

  // ---------- numbers ----------

  /** The number that digits stand for. */
  function Positional(s: string, base: nat): nat
    requires AllDigits(s)
  {
    if s == "" then 0
    else
      assert forall c :: c in s[..|s| - 1] ==> c in s;
      Positional(s[..|s| - 1], base) * base + Value(s[|s| - 1])
  }

  lemma PrefixDigits(s: string, k: nat)
    requires AllDigits(s) && k <= |s|
    ensures AllDigits(s[..k]) && AllDigits(s[k..])
  {
  }

  lemma {:induction false} AccumulateFrom(s: string, base: nat, k: nat, n: nat)
    requires AllDigits(s) && k <= n <= |s| && (forall i :: 0 <= i < n ==> Value(s[i]) < base)
    requires n < |s| ==> Value(s[n]) >= base
    ensures AllDigits(s[..k]) && AllDigits(s[k..]) && AllDigits(s[..n])
    ensures Accumulate(s[k..], base, Positional(s[..k], base)) == Positional(s[..n], base)
    decreases n - k
  {
    PrefixDigits(s, k);
    PrefixDigits(s, n);
    if k < n {
      AccumulateFrom(s, base, k + 1, n);
      assert s[k..][1..] == s[k + 1..] && s[..k + 1][..k] == s[..k];
    }
  }

  /** A number is read to base 8 if it begins with a zero and to base 10 otherwise, as far as its digits are below the base,
    * and cut to 32 bits. */
  lemma StrtolIs(s: string, n: nat)
    requires s != "" && AllDigits(s) && n <= |s|
    requires var base := if s[0] == '0' then 8 else 10;
             (forall i :: 0 <= i < n ==> Value(s[i]) < base) && (n < |s| ==> Value(s[n]) >= base)
    ensures AllDigits(s[..n])
    ensures Strtol(s) == Positional(s[..n], if s[0] == '0' then 8 else 10) % 0x1_0000_0000
  {
    PrefixDigits(s, n);
    if s[0] == '0' {
      assert n > 0;
      AccumulateFrom(s, 8, 1, n);
      assert s[..1] == "0" && s[..1][..0] == "";
    } else {
      AccumulateFrom(s, 10, 0, n);
      assert s[0..] == s && s[..0] == "";
    }
  }

  // ---------- parentheses ----------

  lemma DepthPrefix(s: string, k: nat)
    requires 0 < k <= |s|
    ensures Depth(s[..k]) == Depth(s[1..][..k - 1]) + if s[0] == '(' then 1 else if s[0] == ')' then -1 else 0
  {
    assert s[..k][1..] == s[1..][..k - 1];
  }

  /** The search for the closing parenthesis stops at the first one that leaves balanced text before it. */
  lemma {:induction false} ClosingFinds(r: string, depth: nat)
    requires Closing(r, depth).Len?
    ensures var n := Closing(r, depth).n; 0 < n <= |r| && r[n - 1] == ')' && Balanced(r[..n - 1], depth)
  {
    var n := Closing(r, depth).n;
    if r[0] == ')' && depth == 0 {
      assert r[..0] == "";
    } else {
      var inner := if r[0] == '(' then depth + 1 else if r[0] == ')' then depth - 1 else depth;
      ClosingFinds(r[1..], inner);
      assert r[..n - 1][1..] == r[1..][..n - 2];
      BalancedMore(r[..n - 1], depth, inner);
    }
  }

  lemma BalancedMore(s: string, depth: nat, inner: nat)
    requires s != "" && Balanced(s[1..], inner)
    requires inner - depth == if s[0] == '(' then 1 else if s[0] == ')' then -1 else 0
    ensures Balanced(s, depth)
  {
    forall k | 0 <= k <= |s| ensures Depth(s[..k]) + depth >= 0 {
      if k > 0 {
        DepthPrefix(s, k);
      }
    }
  }

  lemma BalancedLess(s: string, depth: nat)
    requires s != "" && Balanced(s, depth)
    ensures s[0] == ')' ==> depth > 0
    ensures var inner: int := depth + if s[0] == '(' then 1 else if s[0] == ')' then -1 else 0;
            inner >= 0 && Balanced(s[1..], inner)
  {
    DepthPrefix(s, 1);
    assert Depth(s[..1]) + depth >= 0;
    forall k | 0 <= k <= |s[1..]| ensures Depth(s[1..][..k]) == Depth(s[..k + 1]) - Depth(s[..1]) {
      DepthPrefix(s, k + 1);
    }
  }

  lemma {:induction false} ClosingThrough(s: string, y: string, depth: nat)
    requires Balanced(s, depth)
    ensures Closing(s + (")" + y), depth) == Len(|s| + 1)
  {
    var r := s + (")" + y);
    if s == "" {
      assert r == ")" + y;
      CloseShut(y, depth);
    } else {
      BalancedLess(s, depth);
      assert r[0] == s[0] && r[1..] == s[1..] + (")" + y);
      ClosingThrough(s[1..], y, if s[0] == '(' then depth + 1 else if s[0] == ')' then depth - 1 else depth);
    }
  }

  // ---------- one argument ----------

  lemma WordEnds(w: string, y: string)
    requires Word(w) && (y != "" ==> !NameChar(y[0]))
    ensures NameLen(w + y) == |w|
  {
    NameEnds(w, y);
  }

  /** What the scan takes for an argument is one. */
  lemma ScannedIsArg(r: string)
    requires ArgLen(r).Len? && ArgLen(r).n > 0
    ensures IsArg(r[..ArgLen(r).n])
  {
    var k, n := NameLen(r), ArgLen(r).n;
    var x := r[..n];
    if k < |r| && r[k] == '(' {
      var body := r[k + 1..];
      ClosingFinds(body, 0);
      assert x[k + 1..|x| - 1] == body[..n - k - 2];
      assert x[..k] == r[..k];
      assert Applied(x, k);
    } else {
      assert Word(x);
    }
  }

  /** The scan takes an argument for what it is. */
  lemma ArgIsScanned(x: string, rest: string)
    requires IsArg(x) && Delimited(rest)
    ensures ArgLen(x + rest) == Len(|x|)
  {
    hide Closing, NameChar, Balanced;
    if Word(x) {
      PlainEnds(x, rest);
    } else {
      var k: nat :| Applied(x, k);
      var w, inner := x[..k], x[k + 1..|x| - 1];
      var tail := inner + (")" + rest);
      assert x + rest == w + ("(" + tail);
      NotNameChar();
      WordEnds(w, "(" + tail);
      ClosingThrough(inner, rest, 0);
      assert (x + rest)[k + 1..] == tail;
    }
  }

  lemma NotNameChar()
    ensures !NameChar('(')
  {
  }

  // ---------- all arguments ----------

  lemma {:induction false} ParsedAreArgs(r: string, i: nat) returns (xs: seq<string>, rest: string)
    requires ParseArgs(r, i).Params?
    ensures xs != [] && i + |xs| < MAX_ATTRS && AreArgs(xs)
    ensures r == Commas(xs) + (")" + rest) && ReadAll(xs) == ParseArgs(r, i).ps
    decreases |r|
  {
    hide ParseArgs, IsArg, ReadAs, ArgLen, AreArgs, Commas, ReadAll;
    var n := FirstParsed(r, i);
    var x := r[..n];
    if r[n] == ')' {
      xs, rest := [x], r[n + 1..];
      OneArg(x);
    } else {
      var ys;
      ys, rest := ParsedAreArgs(r[n + 1..], i + 1);
      xs := [x] + ys;
      MoreArgs(x, ys);
      Behind(x, Commas(ys), ")" + rest);
    }
    CutAt(r, n);
  }

  lemma CutAt(r: string, n: nat)
    requires n < |r|
    ensures r == r[..n] + ([r[n]] + r[n + 1..])
  {
  }

  lemma OneArg(x: string)
    requires IsArg(x)
    ensures AreArgs([x]) && Commas([x]) == x && ReadAll([x]) == [ReadAs(x)]
  {
    hide IsArg, ReadAs;
    assert ReadAll([x]) == [ReadAs(x)] + ReadAll([]);
  }

  lemma Behind(x: string, y: string, z: string)
    ensures x + ("," + (y + z)) == x + "," + y + z
  {
  }

  lemma MoreArgs(x: string, ys: seq<string>)
    requires ys != [] && IsArg(x) && AreArgs(ys)
    ensures AreArgs([x] + ys) && Commas([x] + ys) == x + "," + Commas(ys) && ReadAll([x] + ys) == [ReadAs(x)] + ReadAll(ys)
  {
    hide IsArg, ReadAs;
    assert ([x] + ys)[1..] == ys;
  }

  /** The first round of a loop that led to arguments. */
  lemma FirstParsed(r: string, i: nat) returns (n: nat)
    requires ParseArgs(r, i).Params?
    ensures 0 < n < |r| && i + 1 < MAX_ATTRS && (r[n] == ',' || r[n] == ')') && IsArg(r[..n])
    ensures var ps := ParseArgs(r, i).ps;
            if r[n] == ')' then ps == [ReadAs(r[..n])]
            else ParseArgs(r[n + 1..], i + 1).Params? && ps == [ReadAs(r[..n])] + ParseArgs(r[n + 1..], i + 1).ps
  {
    ScannedIsArg(r);
    hide ArgLen, IsArg;
    n := ArgLen(r).n;
  }

  lemma {:induction false} ArgsAreParsed(xs: seq<string>, rest: string, i: nat)
    requires xs != [] && AreArgs(xs)
    ensures ParseArgs(Commas(xs) + (")" + rest), i) ==
            if i + |xs| < MAX_ATTRS then Params(ReadAll(xs)) else NoParams
    decreases |xs|
  {
    hide ParseArgs, IsArg, ReadAs, ArgLen, Commas, ReadAll;
    var x := xs[0];
    if |xs| == 1 {
      assert xs == [x];
      OneArg(x);
      OneRound(x, ")" + rest, i);
    } else {
      var ys := xs[1..];
      assert xs == [x] + ys;
      MoreArgs(x, ys);
      Behind(x, Commas(ys), ")" + rest);
      OneRound(x, "," + (Commas(ys) + (")" + rest)), i);
      assert ("," + (Commas(ys) + (")" + rest)))[1..] == Commas(ys) + (")" + rest);
      ArgsAreParsed(ys, rest, i + 1);
    }
  }

  lemma OneRound(x: string, tail: string, i: nat)
    requires IsArg(x) && Delimited(tail)
    ensures ParseArgs(x + tail, i) ==
            if i + 1 >= MAX_ATTRS then NoParams
            else if tail[0] == ')' then Params([ReadAs(x)])
            else Prepend(ReadAs(x), ParseArgs(tail[1..], i + 1))
  {
    ArgIsScanned(x, tail);
    hide ParseArgs, ArgLen, IsArg;
    var r := x + tail;
    assert x != "" by { ArgNotEmpty(x); }
    assert r[|x|] == tail[0] && r[|x| + 1..] == tail[1..] && r[..|x|] == x;
    ParseRound(r, |x|, i);
  }

  lemma ArgNotEmpty(x: string)
    requires IsArg(x)
    ensures x != ""
  {
  }

  // ---------- whole names ----------

  lemma ReadsIsParsed(s: string, tmpl: string, xs: seq<string>, rest: string)
    requires Reads(s, tmpl, xs, rest)
    ensures Parse(s) == Parsed(tmpl, ReadAll(xs))
  {
    hide Parse, ParseArgs, IsName, AreArgs, ReadAll;
    ParseIs(tmpl, Commas(xs) + (")" + rest));
    ArgsAreParsed(xs, rest, 0);
  }

  lemma ParsedReads(s: string) returns (xs: seq<string>, rest: string)
    requires Parse(s).Parsed?
    ensures Reads(s, Parse(s).tmpl, xs, rest) && ReadAll(xs) == Parse(s).params
  {
    hide ParseArgs, NameChar, IsName, AreArgs, ReadAll, Commas;
    var n := NameLen(s);
    var body := s[n + 1..];
    CutAt(s, n);
    StartIsName(s);
    ParseIs(s[..n], body);
    xs, rest := ParsedAreArgs(body, 0);
  }

  lemma StartIsName(s: string)
    requires NameLen(s) > 0
    ensures IsName(s[..NameLen(s)])
  {
  }

  /** Main theorem: exactly the names of this form are accepted, with the arguments read as they stand, and there is only one
    * way to read a name. */
  lemma AcceptsExactly(s: string, tmpl: string, ps: seq<Param>)
    ensures Parse(s) == Parsed(tmpl, ps) <==> exists xs, rest :: Reads(s, tmpl, xs, rest) && ReadAll(xs) == ps
    ensures Parse(s) == Fail <==> !exists t, xs, rest :: Reads(s, t, xs, rest)
  {
    hide Parse, Reads, ReadAll;
    if Parse(s).Parsed? {
      var xs, rest := ParsedReads(s);
      assert Reads(s, Parse(s).tmpl, xs, rest);
    }
    forall t, xs, rest | Reads(s, t, xs, rest) ensures Parse(s) == Parsed(t, ReadAll(xs)) {
      ReadsIsParsed(s, t, xs, rest);
    }
  }
}
