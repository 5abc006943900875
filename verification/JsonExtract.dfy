/** `_extract_json_object`: strip Markdown fences, find the first `{`, and walk to the brace that
    closes it. */
module JsonExtract {
  import opened JsonLexer
  import opened JsonGrammar
  import opened JsonRepair
  import opened Wrappers

  // ------------------------------------------------------------------ str methods

  /** What `str.strip` removes by default. */
  predicate IsPySpace(c: char) {
    || '\t' <= c <= '\r' || '\U{1c}' <= c <= ' ' || c == '\U{85}' || c == '\U{a0}' || c == '\U{1680}'
    || '\U{2000}' <= c <= '\U{200a}' || c == '\U{2028}' || c == '\U{2029}' || c == '\U{202f}'
    || c == '\U{205f}' || c == '\U{3000}'
  }

  function LStrip(t: string): string {
    if t != "" && IsPySpace(t[0]) then LStrip(t[1..]) else t
  }

  function RStrip(t: string): string {
    if t != "" && IsPySpace(t[|t| - 1]) then RStrip(t[..|t| - 1]) else t
  }

  function Strip(t: string): string {
    RStrip(LStrip(t))
  }

  const FENCE := "```"

  predicate StartsWithFence(t: string) {
    |t| >= 3 && t[..3] == FENCE
  }

  predicate EndsWithFence(t: string) {
    |t| >= 3 && t[|t| - 3..] == FENCE
  }

  /** `t.find(c)`, or `|t|` where Python answers -1. */
  function Find(t: string, c: char): (i: nat)
    ensures i <= |t| && (i < |t| ==> t[i] == c) && c !in t[..i]
  {
    if t == "" || t[0] == c then 0
    else
      var j := Find(t[1..], c);
      assert t[..j + 1] == [t[0]] + t[1..][..j];
      1 + j
  }

  lemma {:induction false} FindIn(a: string, t: string, c: char)
    requires c in a
    ensures Find(a + t, c) == Find(a, c) < |a|
  {
    if a[0] != c {
      assert (a + t)[1..] == a[1..] + t;
      FindIn(a[1..], t, c);
    }
  }

  lemma {:induction false} FindPast(a: string, t: string, c: char)
    requires c !in a && t != "" && t[0] == c
    ensures Find(a + t, c) == |a|
  {
    if a == "" {
      assert a + t == t;
    } else {
      assert (a + t)[1..] == a[1..] + t;
      FindPast(a[1..], t, c);
    }
  }

  ghost predicate NoSpaceEnds(x: string) {
    x != "" && !IsPySpace(x[0]) && !IsPySpace(x[|x| - 1])
  }

  lemma {:induction false} LStripBefore(pre: string, x: string)
    requires x != "" && !IsPySpace(x[0])
    ensures LStrip(pre + x) == LStrip(pre) + x
  {
    if pre == "" {
      assert pre + x == x;
    } else if IsPySpace(pre[0]) {
      assert (pre + x)[1..] == pre[1..] + x;
      LStripBefore(pre[1..], x);
    }
  }

  lemma {:induction false} RStripAfter(x: string, post: string)
    requires x != "" && !IsPySpace(x[|x| - 1])
    ensures RStrip(x + post) == x + RStrip(post)
    decreases |post|
  {
    if post == "" {
      assert x + post == x;
    } else if IsPySpace(post[|post| - 1]) {
      var p := post[..|post| - 1];
      assert (x + post)[..|x + post| - 1] == x + p;
      RStripAfter(x, p);
    }
  }

  lemma StripAround(pre: string, x: string, post: string)
    requires NoSpaceEnds(x)
    ensures Strip(pre + (x + post)) == LStrip(pre) + (x + RStrip(post))
  {
    LStripBefore(pre, x + post);
    RStripFrom(LStrip(pre), x, post);
  }

  lemma RStripFrom(a: string, x: string, post: string)
    requires x != "" && !IsPySpace(x[|x| - 1])
    ensures RStrip(a + (x + post)) == a + (x + RStrip(post))
  {
    var y := a + x;
    assert a + (x + post) == y + post && a + (x + RStrip(post)) == y + RStrip(post);
    assert y[|y| - 1] == x[|x| - 1];
    RStripAfter(y, post);
  }

  // ------------------------------------------------------------------ the brace walk

  /** Net effect of one character on the nesting depth; braces inside strings count nothing. */
  function Delta(st: Lex, c: char): int {
    if st == Out && c == '{' then 1 else if st == Out && c == '}' then -1 else 0
  }

  /** Walks from depth `depth` to the closing brace that brings it to zero; the text after it. */
  function Walk(st: Lex, depth: int, t: string): (r: Option<string>)
    ensures r.Some? ==> |r.value| < |t|
    decreases |t|
  {
    if t == "" then None
    else
      var d := depth + Delta(st, t[0]);
      if st == Out && t[0] == '}' && d == 0 then Some(t[1..])
      else Walk(Step(st, t[0]), d, t[1..])
  }

  function CloseFence(t: string): string {
    if EndsWithFence(t) then RStrip(t[..|t| - 3]) else t
  }

  /** Drops an opening fence line and a closing fence. */
  function Unfence(text: string): string {
    if !StartsWithFence(text) then text
    else
      var nl := Find(text, '\n');
      CloseFence(RStrip(if nl < |text| then text[nl + 1..] else text[3..]))
  }

  /** The first complete object of an already unfenced text. */
  function FirstObject(text: string): Option<string> {
    var start := Find(text, '{');
    if start == |text| then None
    else match Walk(Out, 0, text[start..])
      case None => None
      case Some(rest) => Some(text[start..|text| - |rest|])
  }

  function Extract(stdout: string): Option<string> {
    FirstObject(Unfence(Strip(stdout)))
  }

  lemma WalkAt(st: Lex, d: int, text: string, i: nat)
    requires i < |text|
    ensures var d' := d + Delta(st, text[i]);
      Walk(st, d, text[i..]) ==
      if st == Out && text[i] == '}' && d' == 0 then Some(text[i + 1..])
      else Walk(Step(st, text[i]), d', text[i + 1..])
  {
    assert text[i..][0] == text[i] && text[i..][1..] == text[i + 1..];
  }

  /** The brace walk as written: an index, a depth and two flags. */
  method BraceWalk(text: string, start: nat) returns (r: Option<string>)
    requires start < |text|
    ensures match Walk(Out, 0, text[start..])
      case None => r == None
      case Some(rest) => start <= |text| - |rest| && r == Some(text[start..|text| - |rest|])
  {
    var depth := 0;
    var inStr, esc := false, false;
    for i := start to |text|
      invariant esc ==> inStr
      invariant Walk(LexOf(inStr, esc), depth, text[i..]) == Walk(Out, 0, text[start..])
    {
      var ch := text[i];
      ghost var st, d := LexOf(inStr, esc), depth;
      WalkAt(st, d, text, i);
      if esc {
        esc := false;
      } else if inStr {
        if ch == '\\' {
          esc := true;
        } else if ch == '"' {
          inStr := false;
        }
      } else if ch == '"' {
        inStr := true;
      } else if ch == '{' {
        depth := depth + 1;
      } else if ch == '}' {
        depth := depth - 1;
        if depth == 0 {
          return Some(text[start..i + 1]);
        }
      }
      assert LexOf(inStr, esc) == Step(st, ch) && depth == d + Delta(st, ch);
    }
    assert text[|text|..] == "";
    return None;
  }

  method ExtractJsonObject(stdout: string) returns (r: Option<string>)
    ensures r == Extract(stdout)
  {
    var text := Unfence(Strip(stdout));
    var start := Find(text, '{');
    if start == |text| {
      return None;
    }
    r := BraceWalk(text, start);
  }

  // ------------------------------------------------------------------ sound, minimal, complete

  /** Opening minus closing braces of `t` outside strings. */
  function Depth(st: Lex, t: string): int
    decreases |t|
  {
    if t == "" then 0 else Delta(st, t[0]) + Depth(Step(st, t[0]), t[1..])
  }

  lemma {:induction false} DepthStep(st: Lex, t: string, k: nat)
    requires 0 < k <= |t|
    ensures Depth(st, t[..k]) == Delta(st, t[0]) + Depth(Step(st, t[0]), t[1..][..k - 1])
  {
    assert t[..k][1..] == t[1..][..k - 1];
  }

  /** From a positive depth the walk stops at the first prefix that balances it, if there is one. */
  lemma {:induction false} WalkFinds(st: Lex, d: int, t: string)
    requires d > 0
    ensures match Walk(st, d, t)
      case None => forall k :: 0 <= k <= |t| ==> d + Depth(st, t[..k]) > 0
      case Some(rest) =>
        var n := |t| - |rest|;
        && d + Depth(st, t[..n]) == 0
        && forall k :: 0 <= k < n ==> d + Depth(st, t[..k]) > 0
    decreases |t|
  {
    if t != "" {
      var d', st' := d + Delta(st, t[0]), Step(st, t[0]);
      if d' > 0 {
        WalkFinds(st', d', t[1..]);
      }
      forall k | 0 < k <= |t|
        ensures d + Depth(st, t[..k]) == d' + Depth(st', t[1..][..k - 1])
      {
        DepthStep(st, t, k);
      }
      assert t[1..][..0] == "";
    }
  }

  /** The first `n` characters of `t` form a complete object: depth is positive inside and zero
      at the end. */
  ghost predicate Balanced(t: string, n: nat) {
    && 0 < n <= |t| && Depth(Out, t[..n]) == 0
    && forall k :: 0 < k < n ==> Depth(Out, t[..k]) > 0
  }

  lemma WalkFromBrace(t: string)
    requires t != "" && t[0] == '{'
    ensures match Walk(Out, 0, t)
      case None => forall n :: !Balanced(t, n)
      case Some(rest) => forall n :: Balanced(t, n) <==> n == |t| - |rest|
  {
    var u := t[1..];
    WalkFinds(Out, 1, u);
    forall k | 0 < k <= |t|
      ensures Depth(Out, t[..k]) == 1 + Depth(Out, u[..k - 1])
    {
      DepthStep(Out, t, k);
    }
    if Walk(Out, 0, t).Some? {
      var n := |t| - |Walk(Out, 0, t).value|;
      assert Depth(Out, t[..n]) == 0;
      assert Balanced(t, n);
    }
  }

  /** Extraction is sound, minimal and complete: it returns `x` exactly when `x` is the balanced
      run that starts at the first `{` of the unfenced text, and nothing exactly when that text has
      no `{` or no balanced run from it. */
  lemma ExtractExact(stdout: string)
    ensures var text := Unfence(Strip(stdout)); var t := text[Find(text, '{')..];
      && (forall x :: Extract(stdout) == Some(x) <==> Balanced(t, |x|) && x == t[..|x|])
      && (Extract(stdout) == None <==> forall n :: !Balanced(t, n))
  {
    var text := Unfence(Strip(stdout));
    var start := Find(text, '{');
    if start < |text| {
      var t := text[start..];
      WalkFromBrace(t);
      if Walk(Out, 0, t).Some? {
        var n := |t| - |Walk(Out, 0, t).value|;
        assert text[start..start + n] == t[..n];
        assert Balanced(t, n);
      }
    }
  }

  /** A text that is one balanced object extracts to itself. */
  lemma ExtractWhole(x: string)
    requires x != "" && x[0] == '{' && Walk(Out, 0, x) == Some("")
    ensures Extract(x) == Some(x)
  {
    WalkEndsInBrace(Out, 0, x);
    assert FENCE[0] == '`' && (|x| >= 3 ==> x[..3][0] == '{');
    assert LStrip(x) == x && RStrip(x) == x;
    assert !StartsWithFence(x);
    assert Find(x, '{') == 0;
    assert x[0..] == x && x[0..|x|] == x;
  }

  lemma {:induction false} WalkEndsInBrace(st: Lex, d: int, t: string)
    requires Walk(st, d, t) == Some("")
    ensures t != "" && t[|t| - 1] == '}'
    decreases |t|
  {
    if t[1..] != "" {
      WalkEndsInBrace(Step(st, t[0]), d + Delta(st, t[0]), t[1..]);
    }
  }

  /** The walk reads nothing past the brace it stops at. */
  lemma {:induction false} WalkCut(st: Lex, d: int, t: string)
    requires Walk(st, d, t).Some?
    ensures Walk(st, d, t[..|t| - |Walk(st, d, t).value|]) == Some("")
    decreases |t|
  {
    var n := |t| - |Walk(st, d, t).value|;
    if !(st == Out && t[0] == '}' && d - 1 == 0) {
      WalkCut(Step(st, t[0]), d + Delta(st, t[0]), t[1..]);
      assert t[..n][1..] == t[1..][..n - 1];
    } else {
      assert t[..1][1..] == "";
    }
  }

  lemma ExtractedIsWhole(stdout: string)
    requires Extract(stdout).Some?
    ensures var x := Extract(stdout).value; x != "" && x[0] == '{' && Walk(Out, 0, x) == Some("")
  {
    var text := Unfence(Strip(stdout));
    var start := Find(text, '{');
    var t := text[start..];
    var rest := Walk(Out, 0, t).value;
    WalkCut(Out, 0, t);
    assert text[start..|text| - |rest|] == t[..|t| - |rest|];
  }

  /** Extracting again changes nothing. */
  lemma ExtractIdempotent(stdout: string)
    requires Extract(stdout).Some?
    ensures Extract(Extract(stdout).value) == Extract(stdout)
  {
    ExtractedIsWhole(stdout);
    ExtractWhole(Extract(stdout).value);
  }

  /** Repair never moves a brace, so a walk over the repaired text stops at its very end too. */
  lemma {:induction false} WalkAfterRepair(st: Lex, d: int, t: string)
    requires Walk(st, d, t) == Some("")
    ensures Walk(st, d, Repair(st, t)) == Some("")
    decreases |t|
  {
    var c, rest := t[0], t[1..];
    var e, tail := Emit(st, c, rest), Repair(Step(st, c), rest);
    var d' := d + Delta(st, c);
    if st == Out && c == '}' && d' == 0 {
      assert rest == "" && e + tail == "}";
    } else {
      WalkAfterRepair(Step(st, c), d', rest);
      WalkEmit(st, d, c, rest, tail);
    }
  }

  lemma WalkEmit(st: Lex, d: int, c: char, rest: string, tail: string)
    requires !(st == Out && c == '}' && d - 1 == 0)
    ensures Walk(st, d, Emit(st, c, rest) + tail) == Walk(Step(st, c), d + Delta(st, c), tail)
  {
    var e := Emit(st, c, rest);
    if e == "" {
      assert e + tail == tail;
    } else if e == [c] {
      assert (e + tail)[1..] == tail;
    } else {
      var v := [','] + tail;
      assert (e + tail)[1..] == v && v[1..] == tail;
    }
  }

  /** Repairing an extracted object leaves a text that extracts to itself, for every input. */
  lemma RepairedExtractsToItself(stdout: string)
    requires Extract(stdout).Some?
    ensures var y := Repair(Out, Extract(stdout).value); Extract(y) == Some(y)
  {
    var x := Extract(stdout).value;
    ExtractedIsWhole(stdout);
    WalkAfterRepair(Out, 0, x);
    assert Emit(Out, x[0], x[1..]) == "{";
    ExtractWhole(Repair(Out, x));
  }
}
