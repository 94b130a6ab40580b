/** Names of algorithms built from templates: how they are printed, and how cryptomgr takes them apart. */
module NameSpec {
  /** An algorithm: a plain name, or a template applied to arguments. */
  datatype Term = Name(name: string) | Apply(tmpl: string, args: seq<Arg>)

  datatype Arg = Alg(term: Term) | Num(n: nat)

  const MAX_ATTRS: nat := 32

  // ---------- characters ----------

  predicate IsDigit(c: char) {
    '0' <= c <= '9'
  }

  /** isalnum, by the kernel's table for Latin-1. */
  predicate IsAlnum(c: char) {
    IsDigit(c) || 'A' <= c <= 'Z' || 'a' <= c <= 'z' || (192 <= c as int <= 255 && c as int != 215 && c as int != 247)
  }

  predicate NameChar(c: char) {
    IsAlnum(c) || c == '-' || c == '_'
  }

  predicate IsName(s: string) {
    s != "" && forall c :: c in s ==> NameChar(c)
  }

  predicate AllDigits(s: string) {
    forall c :: c in s ==> IsDigit(c)
  }

  // ---------- printing ----------

  /** %u. */
  function Dec(n: nat): (s: string)
    ensures s != "" && AllDigits(s) && (n > 0 ==> s[0] != '0')
  {
    if n < 10 then [Digit(n)] else Dec(n / 10) + [Digit(n % 10)]
  }

  function Digit(d: nat): (c: char)
    requires d < 10
    ensures IsDigit(c) && Value(c) == d && (d > 0 ==> c != '0')
  {
    ('0' as int + d) as char
  }

  function Value(c: char): nat
    requires IsDigit(c)
  {
    c as int - '0' as int
  }

  function Print(t: Term): string
    decreases t
  {
    match t
    case Name(name) => name
    case Apply(tmpl, args) => tmpl + "(" + PrintArgs(args) + ")"
  }

  function PrintArg(a: Arg): string
    decreases a
  {
    match a
    case Alg(term) => Print(term)
    case Num(n) => Dec(n)
  }

  function PrintArgs(args: seq<Arg>): string
    decreases args
  {
    if args == [] then "" else if |args| == 1 then PrintArg(args[0]) else PrintArg(args[0]) + "," + PrintArgs(args[1..])
  }

  /** Names are not empty and of the right characters; a plain name as an argument is not a number; numbers are of 32 bits. */
  predicate Proper(t: Term)
    decreases t
  {
    match t
    case Name(name) => IsName(name)
    case Apply(tmpl, args) => IsName(tmpl) && forall a :: a in args ==> ProperArg(a)
  }

  predicate ProperArg(a: Arg)
    decreases a
  {
    match a
    case Alg(term) => Proper(term) && (term.Name? ==> !AllDigits(term.name))
    case Num(n) => n < 0x1_0000_0000
  }

  // ---------- parsing ----------

  /** A cryptomgr attribute. */
  datatype Param = AlgName(name: string) | U32(num: nat)

  datatype Outcome = Fail | Parsed(tmpl: string, params: seq<Param>)

  datatype Length = Nowhere | Len(n: nat)

  function Plus(k: nat, x: Length): Length {
    if x.Nowhere? then Nowhere else Len(k + x.n)
  }

  /** How many characters at the start belong to a name. */
  function NameLen(r: string): (n: nat)
    ensures n <= |r| && (n < |r| ==> !NameChar(r[n])) && (forall k :: 0 <= k < n ==> NameChar(r[k]))
  {
    if r == "" || !NameChar(r[0]) then 0 else 1 + NameLen(r[1..])
  }

  /** Up to and including the parenthesis that closes, when depth more have been opened. */
  function Closing(r: string, depth: nat): (x: Length)
    ensures x.Len? ==> 0 < x.n <= |r|
  {
    if r == "" then Nowhere
    else if r[0] == '(' then Plus(1, Closing(r[1..], depth + 1))
    else if r[0] == ')' then if depth == 0 then Len(1) else Plus(1, Closing(r[1..], depth - 1))
    else Plus(1, Closing(r[1..], depth))
  }

  /** The argument at the start: a name, and what follows it in parentheses. */
  function ArgLen(r: string): (x: Length)
    ensures x.Len? ==> x.n <= |r|
  {
    var n := NameLen(r);
    if n < |r| && r[n] == '(' then Plus(n + 1, Closing(r[n + 1..], 0)) else Len(n)
  }

  /** simple_strtol with base 0, of digits: a leading zero makes them octal; the result is cut to 32 bits. */
  function Strtol(s: string): nat
    requires s != "" && AllDigits(s)
  {
    (if s[0] == '0' then Accumulate(s[1..], 8, 0) else Accumulate(s, 10, 0)) % 0x1_0000_0000
  }

  function Accumulate(s: string, base: nat, result: nat): nat
    requires AllDigits(s)
  {
    if s == "" || Value(s[0]) >= base then result else Accumulate(s[1..], base, result * base + Value(s[0]))
  }

  function ParamOf(r: string, len: nat): Param
    requires 0 < len <= |r|
  {
    if AllDigits(r[..len]) then U32(Strtol(r[..len])) else AlgName(r[..len])
  }

  datatype Params = NoParams | Params(ps: seq<Param>)

  /** The loop over the arguments, of which i have been seen. */
  function ParseArgs(r: string, i: nat): (x: Params)
    ensures x.Params? ==> forall p :: p in x.ps && p.AlgName? ==> |p.name| <= |r|
    decreases |r|
  {
    var x := ArgLen(r);
    if x.Nowhere? || x.n == 0 || i + 1 >= MAX_ATTRS || x.n == |r| then NoParams
    else
      var p := ParamOf(r, x.n);
      if r[x.n] == ')' then Params([p])
      else if r[x.n] != ',' then NoParams
      else
        var rest := ParseArgs(r[x.n + 1..], i + 1);
        if rest.NoParams? then NoParams else Params([p] + rest.ps)
  }

  /** cryptomgr_schedule_probe, as far as the name goes. */
  function Parse(s: string): (x: Outcome)
    ensures x.Parsed? ==> forall p :: p in x.params && p.AlgName? ==> |p.name| < |s|
  {
    var n := NameLen(s);
    if n == 0 || n == |s| || s[n] != '(' then Fail
    else
      var x := ParseArgs(s[n + 1..], 0);
      if x.NoParams? then Fail else Parsed(s[..n], x.ps)
  }
}
