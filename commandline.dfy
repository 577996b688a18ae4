/**
 * Process command lines: the `Arguments` string handed to a child process
 * and the argument vector the child's C runtime splits it into. The rules
 * are the Microsoft C runtime's: spaces outside double quotes separate
 * arguments; a run of 2n backslashes before a double quote gives n
 * backslashes and the quote toggles quoting; a run of 2n+1 gives n
 * backslashes and a literal quote; backslashes not followed by a quote are
 * literal.
 */
module CommandLine {

  /**
   * One argument as it is written into a command line: bare, between double
   * quotes, or between double quotes with the backslashes that end it
   * doubled, so that the closing quote still closes.
   */
  datatype Arg = Bare(value: string) | Quoted(value: string) | Escaped(value: string)

  function Backslashes(n: nat): (r: string)
    ensures |r| == n && forall k :: 0 <= k < n ==> r[k] == '\\'
  {
    seq(n, _ => '\\')
  }

  predicate EndsInBackslash(v: string)
  {
    v != [] && v[|v| - 1] == '\\'
  }

  /**
   * The number of backslashes that end `x`, read from the front with `p`
   * backslashes already pending.
   */
  function Pending(p: nat, x: string): nat
    decreases |x|
  {
    if x == [] then p
    else if x[0] == '\\' then Pending(p + 1, x[1..])
    else Pending(0, x[1..])
  }

  function Render(a: Arg): string
  {
    match a
    case Bare(v) => v
    case Quoted(v) => "\"" + v + "\""
    case Escaped(v) => "\"" + v + Backslashes(Pending(0, v)) + "\""
  }

  /** The arguments rendered and separated by single spaces. */
  function RenderAll(args: seq<Arg>): string
  {
    if |args| == 0 then ""
    else if |args| == 1 then Render(args[0])
    else Render(args[0]) + " " + RenderAll(args[1..])
  }

  function Values(args: seq<Arg>): (r: seq<string>)
    ensures |r| == |args| && forall k :: 0 <= k < |args| ==> r[k] == args[k].value
  {
    seq(|args|, k requires 0 <= k < |args| => args[k].value)
  }

  /**
   * An argument survives the round trip: it holds no double quote; a bare
   * one is non-empty and holds no space; a quoted one does not end in a
   * backslash, which would escape its closing quote.
   */
  predicate Passes(a: Arg)
  {
    '"' !in a.value &&
    (a.Bare? ==> a.value != "" && ' ' !in a.value) &&
    (a.Quoted? ==> !EndsInBackslash(a.value))
  }

  predicate AllPass(args: seq<Arg>)
  {
    forall k :: 0 <= k < |args| ==> Passes(args[k])
  }

  /**
   * The splitting automaton: `quoted` is whether a quote is open, `cur` the
   * argument being read, `started` whether one has begun (a pair of quotes
   * begins an empty one) and `pending` the backslashes read but not yet
   * added to `cur`, since a following quote halves them.
   */
  function Tok(s: string, quoted: bool, cur: string, started: bool, pending: nat): seq<string>
    decreases |s|
  {
    if s == [] then (if started then [cur + Backslashes(pending)] else [])
    else if s[0] == '\\' then Tok(s[1..], quoted, cur, true, pending + 1)
    else if s[0] == '"' then
      if pending % 2 == 1 then Tok(s[1..], quoted, cur + Backslashes(pending / 2) + ['"'], true, 0)
      else Tok(s[1..], !quoted, cur + Backslashes(pending / 2), true, 0)
    else if s[0] == ' ' && !quoted then
      (if started then [cur + Backslashes(pending)] else []) + Tok(s[1..], false, "", false, 0)
    else Tok(s[1..], quoted, cur + Backslashes(pending) + [s[0]], true, 0)
  }

  /** The argument vector of a command line. */
  function Argv(s: string): seq<string>
  {
    Tok(s, false, "", false, 0)
  }

  /** The current argument after reading `x`, which holds no quote, with `p` backslashes pending. */
  function Fed(cur: string, p: nat, x: string): string
    decreases |x|
  {
    if x == [] then cur
    else if x[0] == '\\' then Fed(cur, p + 1, x[1..])
    else Fed(cur + Backslashes(p) + [x[0]], 0, x[1..])
  }

  /** Characters that neither quote nor (outside quotes) separate are fed to the current argument. */
  lemma {:induction false} TokPlain(x: string, s: string, quoted: bool, cur: string, started: bool, p: nat)
    requires '"' !in x && (!quoted ==> ' ' !in x)
    ensures Tok(x + s, quoted, cur, started, p) == Tok(s, quoted, Fed(cur, p, x), started || x != "", Pending(p, x))
    decreases |x|
  {
    if x != "" {
      assert (x + s)[0] == x[0] && (x + s)[1..] == x[1..] + s;
      if x[0] == '\\' {
        TokPlain(x[1..], s, quoted, cur, true, p + 1);
      } else {
        TokPlain(x[1..], s, quoted, cur + Backslashes(p) + [x[0]], true, 0);
      }
    } else {
      assert x + s == s;
    }
  }

  /** Nothing is lost: the fed argument and its pending backslashes spell what was read. */
  lemma {:induction false} FedPending(cur: string, p: nat, x: string)
    ensures Fed(cur, p, x) + Backslashes(Pending(p, x)) == cur + Backslashes(p) + x
    decreases |x|
  {
    if x != "" {
      if x[0] == '\\' {
        FedPending(cur, p + 1, x[1..]);
        assert Backslashes(p + 1) == Backslashes(p) + [x[0]];
      } else {
        FedPending(cur + Backslashes(p) + [x[0]], 0, x[1..]);
      }
      assert x == [x[0]] + x[1..];
    }
  }

  /** Text that does not end in a backslash leaves none pending. */
  lemma {:induction false} NonePending(p: nat, x: string)
    requires x != [] && !EndsInBackslash(x)
    ensures Pending(p, x) == 0
    decreases |x|
  {
    if |x| > 1 {
      assert x[1..][|x| - 2] == x[|x| - 1];
      NonePending(if x[0] == '\\' then p + 1 else 0, x[1..]);
    }
  }

  /** A run of backslashes only adds to the pending count. */
  lemma {:induction false} FeedBackslashes(cur: string, p: nat, n: nat)
    ensures Fed(cur, p, Backslashes(n)) == cur && Pending(p, Backslashes(n)) == p + n
    decreases n
  {
    if n > 0 {
      assert Backslashes(n)[1..] == Backslashes(n - 1);
      FeedBackslashes(cur, p + 1, n - 1);
    }
  }

  // One step of the automaton each, so that proofs unfold `Tok` no further
  // than they need.

  lemma StepQuote(t: string, quoted: bool, cur: string, started: bool)
    ensures Tok("\"" + t, quoted, cur, started, 0) == Tok(t, !quoted, cur, true, 0)
  {
    assert ("\"" + t)[0] == '"' && ("\"" + t)[1..] == t;
    assert cur + Backslashes(0) == cur;
  }

  lemma StepEscapedQuote(t: string, quoted: bool, cur: string)
    ensures Tok("\"" + t, quoted, cur, true, 1) == Tok(t, quoted, cur + "\"", true, 0)
  {
    assert ("\"" + t)[0] == '"' && ("\"" + t)[1..] == t;
    assert cur + Backslashes(0) + ['"'] == cur + "\"";
  }

  lemma StepEvenQuote(t: string, quoted: bool, cur: string, p: nat)
    requires p % 2 == 0
    ensures Tok("\"" + t, quoted, cur, true, p) == Tok(t, !quoted, cur + Backslashes(p / 2), true, 0)
  {
    assert ("\"" + t)[0] == '"' && ("\"" + t)[1..] == t;
  }

  lemma StepBackslash(t: string, quoted: bool, cur: string, started: bool, p: nat)
    ensures Tok("\\" + t, quoted, cur, started, p) == Tok(t, quoted, cur, true, p + 1)
  {
    assert ("\\" + t)[0] == '\\' && ("\\" + t)[1..] == t;
  }

  lemma StepSpace(t: string, cur: string, p: nat)
    ensures Tok(" " + t, false, cur, true, p) == [cur + Backslashes(p)] + Argv(t)
  {
    assert (" " + t)[0] == ' ' && (" " + t)[1..] == t;
  }

  lemma StepQuotedSpace(t: string, cur: string)
    ensures Tok(" " + t, true, cur, true, 0) == Tok(t, true, cur + " ", true, 0)
  {
    assert (" " + t)[0] == ' ' && (" " + t)[1..] == t;
    assert cur + Backslashes(0) + [' '] == cur + " ";
  }

  /** What follows the end of an argument: nothing, or the arguments after a space. */
  function After(s: string): seq<string>
  {
    if s == [] then [] else Argv(s[1..])
  }

  /** An argument ends at a space or at the end of the line. */
  lemma StepEnd(s: string, cur: string, p: nat)
    requires s == [] || s[0] == ' '
    ensures Tok(s, false, cur, true, p) == [cur + Backslashes(p)] + After(s)
  {
    if s != [] {
      assert s == " " + s[1..];
      StepSpace(s[1..], cur, p);
    }
  }

  /** Reading quote-free text fed from nothing gives the text back, with its final backslashes pending. */
  lemma PlainThen(x: string, s: string, quoted: bool, started: bool)
    requires '"' !in x && (!quoted ==> ' ' !in x)
    ensures Tok(x + s, quoted, "", started, 0) == Tok(s, quoted, Fed("", 0, x), started || x != "", Pending(0, x))
    ensures Fed("", 0, x) + Backslashes(Pending(0, x)) == x
  {
    TokPlain(x, s, quoted, "", started, 0);
    FedPending("", 0, x);
  }

  /** A quoted argument that does not end in a backslash is read up to its closing quote. */
  lemma QuotedBody(v: string, s: string)
    requires '"' !in v && !EndsInBackslash(v)
    ensures Tok(v + ("\"" + s), true, "", true, 0) == Tok(s, false, v, true, 0)
  {
    PlainThen(v, "\"" + s, true, true);
    Settled("", v);
    assert "" + v == v;
    StepQuote(s, true, Fed("", 0, v), true);
  }

  lemma BareThen(v: string, s: string)
    requires Passes(Bare(v)) && (s == [] || s[0] == ' ')
    ensures Tok(Render(Bare(v)) + s, false, "", false, 0) == [v] + After(s)
  {
    PlainThen(v, s, false, false);
    StepEnd(s, Fed("", 0, v), Pending(0, v));
  }

  lemma QuotedThen(v: string, s: string)
    requires Passes(Quoted(v)) && (s == [] || s[0] == ' ')
    ensures Tok(Render(Quoted(v)) + s, false, "", false, 0) == [v] + After(s)
  {
    var q := "\"";
    assert Render(Quoted(v)) + s == q + (v + (q + s));
    StepQuote(v + (q + s), false, "", false);
    QuotedBody(v, s);
    StepEnd(s, v, 0);
    assert v + Backslashes(0) == v;
  }

  lemma EscapedLine(v: string, s: string)
    ensures Render(Escaped(v)) + s == "\"" + (v + (Backslashes(Pending(0, v)) + ("\"" + s)))
  {
  }

  lemma EscapedThen(v: string, s: string)
    requires Passes(Escaped(v)) && (s == [] || s[0] == ' ')
    ensures Tok(Render(Escaped(v)) + s, false, "", false, 0) == [v] + After(s)
  {
    var q := "\"";
    var n := Pending(0, v);
    var c := Fed("", 0, v);
    calc {
      Tok(Render(Escaped(v)) + s, false, "", false, 0);
      { EscapedLine(v, s); }
      Tok(q + (v + (Backslashes(n) + (q + s))), false, "", false, 0);
      { StepQuote(v + (Backslashes(n) + (q + s)), false, "", false); }
      Tok(v + (Backslashes(n) + (q + s)), true, "", true, 0);
      { PlainThen(v, Backslashes(n) + (q + s), true, true); }
      Tok(Backslashes(n) + (q + s), true, c, true, n);
      { TokPlain(Backslashes(n), q + s, true, c, true, n); FeedBackslashes(c, n, n); }
      Tok(q + s, true, c, true, n + n);
      { StepEvenQuote(s, true, c, n + n); assert (n + n) / 2 == n; }
      Tok(s, false, c + Backslashes(n), true, 0);
      { PlainThen(v, [], true, true); }
      Tok(s, false, v, true, 0);
      { StepEnd(s, v, 0); assert v + Backslashes(0) == v; }
      [v] + After(s);
    }
  }

  /** Reading a rendered argument, then a space or the end, gives its value as one argument. */
  lemma ArgThen(a: Arg, s: string)
    requires Passes(a) && (s == [] || s[0] == ' ')
    ensures Tok(Render(a) + s, false, "", false, 0) == [a.value] + After(s)
  {
    match a
    case Bare(v) => BareThen(v, s);
    case Quoted(v) => QuotedThen(v, s);
    case Escaped(v) => EscapedThen(v, s);
  }

  /** The rendered list starts with its first argument, then a space and the rest. */
  lemma RenderCons(args: seq<Arg>)
    requires |args| > 1
    ensures RenderAll(args) == Render(args[0]) + (" " + RenderAll(args[1..]))
  {
  }

  /**
   * Rendering arguments that pass, then a space or the end, and splitting
   * gives their values back, followed by whatever comes after the space.
   */
  lemma {:induction false} ArgvRenderThen(args: seq<Arg>, s: string)
    requires |args| > 0 && AllPass(args) && (s == [] || s[0] == ' ')
    ensures Tok(RenderAll(args) + s, false, "", false, 0) == Values(args) + After(s)
    decreases |args|
  {
    if |args| == 1 {
      ArgThen(args[0], s);
    } else {
      var tail := args[1..];
      TailPasses(args);
      ArgvRenderThen(tail, s);
      ConsLine(args, s);
      ConsThen(args[0], RenderAll(tail) + s, RenderAll(args) + s);
      Chain(RenderAll(args) + s, RenderAll(tail) + s, args[0].value, Values(tail), After(s));
    }
  }

  /** The first argument of a line, then the arguments of the rest. */
  lemma Chain(line: string, rest: string, first: string, values: seq<string>, after: seq<string>)
    requires Argv(line) == [first] + Argv(rest) && Argv(rest) == values + after
    ensures Argv(line) == [first] + values + after
  {
  }

  /** The arguments after the first pass, and the values are the first one's and theirs. */
  lemma TailPasses(args: seq<Arg>)
    requires |args| > 0 && AllPass(args)
    ensures Passes(args[0]) && AllPass(args[1..]) && Values(args) == [args[0].value] + Values(args[1..])
  {
    var tail := args[1..];
    forall k | 0 <= k < |tail| ensures Passes(tail[k]) {
      assert tail[k] == args[k + 1];
    }
  }

  lemma ConsLine(args: seq<Arg>, s: string)
    requires |args| > 1
    ensures RenderAll(args) + s == Render(args[0]) + (" " + (RenderAll(args[1..]) + s))
  {
    RenderCons(args);
    Regroup(Render(args[0]), RenderAll(args[1..]), s);
  }

  lemma Regroup(x: string, y: string, s: string)
    ensures x + (" " + y) + s == x + (" " + (y + s))
  {
  }

  /** An argument followed by a space and the rest of the line. */
  lemma ConsThen(a: Arg, rest: string, line: string)
    requires Passes(a) && line == Render(a) + (" " + rest)
    ensures Argv(line) == [a.value] + Argv(rest)
  {
    var sp := " " + rest;
    ArgThen(a, sp);
    assert sp[0] == ' ' && sp[1..] == rest;
  }

  /** Rendering arguments that pass and splitting the command line again gives their values back. */
  lemma ArgvRender(args: seq<Arg>)
    requires AllPass(args)
    ensures Argv(RenderAll(args)) == Values(args)
  {
    if |args| > 0 {
      ArgvRenderThen(args, "");
      assert RenderAll(args) + "" == RenderAll(args);
    }
  }

  /** Arguments that pass, then a space and any text: their values, then the text's split. */
  lemma ArgvSpaceThen(a: seq<Arg>, rest: string)
    requires |a| > 0 && AllPass(a)
    ensures Argv(RenderAll(a) + (" " + rest)) == Values(a) + Argv(rest)
  {
    var sp := " " + rest;
    ArgvRenderThen(a, sp);
    assert sp[1..] == rest;
  }

  lemma RenderSplit(a: seq<Arg>, b: seq<Arg>)
    requires |a| > 0 && |b| > 0
    ensures RenderAll(a + b) == RenderAll(a) + (" " + RenderAll(b))
  {
    RenderAppend(a, b);
  }

  /** Arguments that pass, followed by any others: their values come first, then the others' split. */
  lemma ArgvAppend(a: seq<Arg>, b: seq<Arg>)
    requires |a| > 0 && |b| > 0 && AllPass(a)
    ensures Argv(RenderAll(a + b)) == Values(a) + Argv(RenderAll(b))
  {
    RenderSplit(a, b);
    ArgvSpaceThen(a, RenderAll(b));
  }

  /** Joining two rendered lists with a space renders their concatenation. */
  lemma {:induction false} RenderAppend(a: seq<Arg>, b: seq<Arg>)
    requires |a| > 0 && |b| > 0
    ensures RenderAll(a + b) == RenderAll(a) + " " + RenderAll(b)
    decreases |a|
  {
    var ab := a + b;
    assert ab[0] == a[0];
    if |a| == 1 {
      assert ab[1..] == b;
      RenderCons(ab);
    } else {
      assert ab[1..] == a[1..] + b;
      RenderAppend(a[1..], b);
      RenderCons(ab);
      RenderCons(a);
      var x, y, z := Render(a[0]), RenderAll(a[1..]), RenderAll(b);
      assert x + (" " + (y + " " + z)) == (x + (" " + y)) + " " + z;
    }
  }

  /** A bare argument holding one space reaches the program as the two words around it. */
  lemma BareSpaceSplits(p: string, f: string)
    requires Passes(Bare(p)) && Passes(Bare(f))
    ensures Argv(RenderAll([Bare(p + " " + f)])) == [p, f]
  {
    var sp := " " + f;
    assert p + " " + f == p + sp;
    ArgThen(Bare(p), sp);
    assert sp[0] == ' ' && sp[1..] == f;
    ArgvRender([Bare(f)]);
  }

  /**
   * A quoted argument that ends in a backslash does not close: the
   * backslash escapes its closing quote, so it runs on through the space
   * into the next quoted argument, whose quotes then enclose nothing.
   */
  /** Quote-free text that does not end in a backslash is fed whole. */
  lemma Settled(cur: string, x: string)
    requires !EndsInBackslash(x)
    ensures Pending(0, x) == 0 && Fed(cur, 0, x) == cur + x
  {
    if x != [] { NonePending(0, x); }
    FedPending(cur, 0, x);
    assert Fed(cur, 0, x) + Backslashes(0) == Fed(cur, 0, x);
    assert cur + Backslashes(0) == cur;
  }

  lemma TwoQuoted(x: string, y: string)
    ensures RenderAll([Quoted(x), Quoted(y)]) == "\"" + x + "\"" + " " + "\"" + y + "\""
  {
    RenderCons([Quoted(x), Quoted(y)]);
    assert [Quoted(x), Quoted(y)][1..] == [Quoted(y)];
  }

  lemma TrailingBackslashMerges(u: string, w: string)
    requires '"' !in u && !EndsInBackslash(u)
    requires w != [] && '"' !in w && ' ' !in w && !EndsInBackslash(w)
    ensures Argv(RenderAll([Quoted(u + "\\"), Quoted(w)])) == [u + "\" " + w]
  {
    var q := "\"";
    var t4 := q + (w + q);
    var t3 := " " + t4;
    var t2 := q + t3;
    var t1 := "\\" + t2;
    TwoQuoted(u + "\\", w);
    assert q + (u + "\\") + q + " " + q + w + q == q + (u + t1);
    var c := u + q + " ";
    calc {
      Tok(q + (u + t1), false, "", false, 0);
      { StepQuote(u + t1, false, "", false); }
      Tok(u + t1, true, "", true, 0);
      { PlainThen(u, t1, true, true); Settled("", u); assert "" + u == u; }
      Tok(t1, true, u, true, 0);
      { StepBackslash(t2, true, u, true, 0); }
      Tok(t2, true, u, true, 1);
      { StepEscapedQuote(t3, true, u); }
      Tok(t3, true, u + q, true, 0);
      { StepQuotedSpace(t4, u + q); }
      Tok(t4, true, c, true, 0);
      { StepQuote(w + q, true, c, true); }
      Tok(w + q, false, c, true, 0);
      { TokPlain(w, q, false, c, true, 0); Settled(c, w); }
      Tok(q, false, c + w, true, 0);
      { StepQuote([], false, c + w, true); assert q + [] == q; }
      Tok([], true, c + w, true, 0);
      [c + w + Backslashes(0)];
    }
    assert c + w + Backslashes(0) == u + "\" " + w;
  }

  /** Lists that pass, concatenated, pass; their values concatenate. */
  lemma AppendPasses(a: seq<Arg>, b: seq<Arg>)
    ensures AllPass(a) && AllPass(b) ==> AllPass(a + b)
    ensures Values(a + b) == Values(a) + Values(b)
  {
    if AllPass(a) && AllPass(b) {
      forall k | 0 <= k < |a + b| ensures Passes((a + b)[k]) {
        if k < |a| { assert (a + b)[k] == a[k]; } else { assert (a + b)[k] == b[k - |a|]; }
      }
    }
  }
}
