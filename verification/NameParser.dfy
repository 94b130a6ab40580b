/** The scanning loops of cryptomgr_schedule_probe. */
module NameParser {
  import opened NameSpec

  const WORD: nat := 0x1_0000_0000

  /** The character at a place of a C string, with its terminator. */
  function At(s: string, p: nat): char {
    if p < |s| then s[p] else '\0'
  }

  /** Skips a name, and notes whether it is a number. */
  method SkipName(s: string, from: nat) returns (p: nat, notnum: bool)
    requires from <= |s|
    ensures p == from + NameLen(s[from..]) <= |s| && notnum == !AllDigits(s[from..p])
  {
    p, notnum := from, false;
    while NameChar(At(s, p))
      invariant from <= p <= |s| && notnum == !AllDigits(s[from..p])
      invariant NameLen(s[from..]) == p - from + NameLen(s[p..])
      decreases |s| - p
    {
      DigitsMore(s, from, p);
      notnum := notnum || !IsDigit(s[p]);
      assert s[p..][1..] == s[p + 1..];
      p := p + 1;
    }
  }

  lemma DigitsMore(s: string, from: nat, p: nat)
    requires from <= p < |s|
    ensures AllDigits(s[from..p + 1]) <==> AllDigits(s[from..p]) && IsDigit(s[p])
  {
    var x := s[from..p + 1];
    assert x == s[from..p] + [s[p]];
    if AllDigits(x) {
      assert forall c :: c in s[from..p] ==> c in x;
      assert x[|x| - 1] in x;
    }
  }

  /** From an opening parenthesis to behind the one that closes it. */
  method SkipParentheses(s: string, from: nat) returns (ok: bool, p: nat)
    requires from < |s| && '\0' !in s
    ensures ok == Closing(s[from + 1..], 0).Len?
    ensures ok ==> p == from + 1 + Closing(s[from + 1..], 0).n <= |s|
  {
    p := from;
    var recursion: nat := 0;
    ok := false;
    while true
      invariant from <= p < |s|
      invariant Closing(s[from + 1..], 0) == Plus(p - from, Closing(s[p + 1..], recursion))
      decreases |s| - p
    {
      p := p + 1;
      assert p < |s| ==> s[p] in s;
      if At(s, p) == '\0' {
        return;
      }
      assert s[p..][1..] == s[p + 1..];
      if s[p] == '(' {
        recursion := recursion + 1;
      } else if s[p] == ')' {
        if recursion == 0 {
          break;
        }
        recursion := recursion - 1;
      }
    }
    ok, p := true, p + 1;
  }

  /** simple_strtol with base 0, in words of 32 bits. */
  method SimpleStrtol(s: string, from: nat, ghost to: nat) returns (result: nat)
    requires from < to <= |s| && AllDigits(s[from..to]) && (to < |s| ==> !IsDigit(s[to]))
    ensures result == Strtol(s[from..to])
  {
    var base := if s[from] == '0' then 8 else 10;
    var p := if s[from] == '0' then from + 1 else from;
    result := 0;
    ghost var exact: nat := 0;
    DigitsFrom(s, from, p, to);
    ghost var goal := Accumulate(s[p..to], base, 0);
    assert s[from..to][1..] == s[from + 1..to];
    while p < |s| && IsDigit(s[p]) && Value(s[p]) < base
      invariant from <= p <= to && AllDigits(s[p..to]) && result == exact % WORD
      invariant goal == Accumulate(s[p..to], base, exact)
      decreases |s| - p
    {
      assert p < to;
      assert s[p..to][1..] == s[p + 1..to];
      DigitsFrom(s, p, p + 1, to);
      WordMore(exact, base, Value(s[p]));
      result := (result * base + Value(s[p])) % WORD;
      exact := exact * base + Value(s[p]);
      p := p + 1;
    }
    if p < to {
      assert s[p] in s[p..to] by { assert s[p..to][0] == s[p]; }
    }
  }

  lemma DigitsFrom(s: string, from: nat, p: nat, to: nat)
    requires from <= p <= to <= |s| && AllDigits(s[from..to])
    ensures AllDigits(s[p..to])
  {
    assert s[from..to] == s[from..p] + s[p..to];
  }

  lemma WordMore(exact: nat, base: nat, value: nat)
    requires base == 8 || base == 10
    ensures (exact % WORD * base + value) % WORD == (exact * base + value) % WORD
  {
    var k := exact / WORD;
    assert exact == WORD * k + exact % WORD;
    var low := exact % WORD * base + value;
    assert exact * base + value == low + WORD * (k * base);
    Wraps(low, k * base);
  }

  lemma Wraps(low: nat, k: nat)
    ensures (low + WORD * k) % WORD == low % WORD
  {
  }

  /** Where the argument that starts here ends, and whether it is a number. */
  method SkipArg(s: string, from: nat) returns (ok: bool, p: nat, notnum: bool)
    requires from <= |s| && '\0' !in s
    ensures ok == ArgLen(s[from..]).Len?
    ensures ok ==> from <= p <= |s| && p - from == ArgLen(s[from..]).n && notnum == !AllDigits(s[from..p])
    ensures ok && !notnum && p < |s| ==> !IsDigit(s[p])
  {
    p, notnum := SkipName(s, from);
    var n := p - from;
    ok := true;
    assert p < |s| ==> s[from..][n] == s[p];
    if At(s, p) == '(' {
      assert s[from..][n + 1..] == s[p + 1..];
      var open := p;
      ok, p := SkipParentheses(s, p);
      if ok {
        assert s[from..p][open - from] == '(' && !IsDigit('(');
        assert '(' in s[from..p];
        notnum := true;
      }
    }
    hide Closing;
  }

  /** Arguments seen, and those to come. */
  function Glue(seen: seq<Param>, x: Params): Params {
    if x.NoParams? then NoParams else Params(seen + x.ps)
  }

  /** cryptomgr_schedule_probe. */
  method ScheduleProbe(name: string) returns (r: Outcome)
    requires '\0' !in name
    ensures r == Parse(name)
  {
    var p, notnum := SkipName(name, 0);
    assert name[0..] == name;
    var len := p;
    if len == 0 || At(name, p) != '(' {
      return Fail;
    }
    var tmpl := name[..len];
    var params := ProbeArgs(name, p);
    r := if params.NoParams? then Fail else Parsed(tmpl, params.ps);
    hide ParseArgs;
  }

  /** The attribute for an argument. */
  method ReadArg(s: string, start: nat, p: nat, notnum: bool) returns (param: Param)
    requires start < p <= |s| && notnum == !AllDigits(s[start..p]) && (!notnum && p < |s| ==> !IsDigit(s[p]))
    ensures param == ParamOf(s[start..], p - start)
  {
    hide Strtol;
    assert s[start..][..p - start] == s[start..p];
    if notnum {
      param := AlgName(s[start..p]);
    } else {
      var num := SimpleStrtol(s, start, p);
      param := U32(num);
    }
  }

  /** The loop over the arguments; from is at the opening parenthesis. */
  method ProbeArgs(s: string, from: nat) returns (r: Params)
    requires from < |s| && '\0' !in s
    ensures r == ParseArgs(s[from + 1..], 0)
  {
    hide ArgLen, ParamOf, ParseArgs, AllDigits, IsDigit;
    var p, i, params := from, 0, [];
    while true
      invariant from <= p < |s|
      invariant ParseArgs(s[from + 1..], 0) == Glue(params, ParseArgs(s[p + 1..], i))
      decreases |s| - p
    {
      p := p + 1;
      var start := p;
      var ok, notnum;
      ok, p, notnum := SkipArg(s, p);
      if !ok {
        NoArgument(s[start..], i);
        return NoParams;
      }
      var len := p - start;
      if len == 0 {
        NoArgument(s[start..], i);
        return NoParams;
      }
      var param := ReadArg(s, start, p, notnum);
      RoundIs(s, start, p, i);
      params := params + [param];
      i := i + 1;
      if i >= MAX_ATTRS {
        return NoParams;
      }
      if At(s, p) == ')' {
        break;
      }
      if At(s, p) != ',' {
        return NoParams;
      }
    }
    r := Params(params);
  }

  lemma NoArgument(r: string, i: nat)
    requires ArgLen(r).Nowhere? || ArgLen(r).n == 0
    ensures ParseArgs(r, i) == NoParams
  {
    hide ArgLen;
  }

  lemma RoundIs(s: string, start: nat, p: nat, i: nat)
    requires start < p <= |s| && ArgLen(s[start..]) == Len(p - start)
    ensures ParseArgs(s[start..], i) ==
            (var x := ParamOf(s[start..], p - start);
             if i + 1 >= MAX_ATTRS || p == |s| then NoParams
             else if s[p] == ')' then Params([x])
             else if s[p] != ',' then NoParams
             else Glue([x], ParseArgs(s[p + 1..], i + 1)))
  {
    hide ArgLen, ParamOf;
    if p < |s| {
      assert s[start..][p - start] == s[p] && s[start..][p - start + 1..] == s[p + 1..];
    }
  }
}
