/** What the outcome of `parse_coder_response` means, told by relations on texts that name none of the
    functions it is computed with. */
module JsonContract {
  import opened Wrappers
  import opened JsonLexer
  import opened JsonGrammar
  import opened JsonRepair
  import opened JsonExtract

  // ------------------------------------------------------------------ strip

  ghost predicate AllPySpace(t: string) {
    forall c :: c in t ==> IsPySpace(c)
  }

  /** `x` is `t` without the whitespace around it. */
  ghost predicate IsStripped(t: string, x: string) {
    && (x == "" || (!IsPySpace(x[0]) && !IsPySpace(x[|x| - 1])))
    && exists lead, trail :: AllPySpace(lead) && AllPySpace(trail) && t == lead + x + trail
  }

  lemma {:induction false} LStripIs(t: string) returns (lead: string)
    ensures AllPySpace(lead) && t == lead + LStrip(t)
    ensures LStrip(t) == "" || !IsPySpace(LStrip(t)[0])
  {
    lead := "";
    if t != "" && IsPySpace(t[0]) {
      var more := LStripIs(t[1..]);
      lead := [t[0]] + more;
      assert t == [t[0]] + t[1..];
    }
  }

  lemma {:induction false} RStripIs(t: string)
    ensures var x := RStrip(t);
      (x == "" || !IsPySpace(x[|x| - 1])) && x <= t && AllPySpace(t[|x|..])
    decreases |t|
  {
    if t != "" && IsPySpace(t[|t| - 1]) {
      var x, n := RStrip(t[..|t| - 1]), |t| - 1;
      RStripIs(t[..n]);
      assert x <= t[..n] && t[|x|..] == t[..n][|x|..] + [t[n]];
    }
  }

  lemma StripIs(t: string)
    ensures IsStripped(t, Strip(t))
    ensures Strip(t) == "" <==> AllPySpace(t)
  {
    var y, x := LStrip(t), Strip(t);
    var lead := LStripIs(t);
    RStripIs(y);
    var trail := y[|x|..];
    assert y == x + trail;
    assert t == lead + (x + trail) == lead + x + trail;
    assert x != "" ==> x[0] == y[0];
    if x == "" {
      assert t == lead + trail;
    } else {
      assert x[0] in t;
    }
  }

  /** Being stripped of the whitespace around it decides the text. */
  lemma StripOnly(t: string, x: string)
    requires IsStripped(t, x)
    ensures x == Strip(t)
  {
    var lead, trail :| AllPySpace(lead) && AllPySpace(trail) && t == lead + x + trail;
    if x == "" {
      StripIs(t);
    } else {
      assert t == lead + (x + trail);
      StripAround(lead, x, trail);
      LStripSpace(lead);
      RStripSpace(trail);
      assert "" + (x + "") == x;
    }
  }

  lemma {:induction false} LStripSpace(t: string)
    requires AllPySpace(t)
    ensures LStrip(t) == ""
  {
    if t != "" {
      LStripSpace(t[1..]);
    }
  }

  lemma {:induction false} RStripSpace(t: string)
    requires AllPySpace(t)
    ensures RStrip(t) == ""
    decreases |t|
  {
    if t != "" {
      RStripSpace(t[..|t| - 1]);
    }
  }

  lemma StripTwice(t: string)
    ensures Strip(Strip(t)) == Strip(t)
  {
    var x := Strip(t);
    StripIs(t);
    assert AllPySpace("") && "" + x + "" == x;
    assert IsStripped(x, x);
    StripOnly(x, x);
  }

  // ------------------------------------------------------------------ fences

  /** `u` is `text` without its fences: an opening fence goes with its line or, with no newline at
      all, alone; only then is whitespace at the end dropped, and a closing fence with it. */
  ghost predicate IsUnfenced(text: string, u: string) {
    if !(FENCE <= text) then u == text
    else exists body, x :: IsBodyOf(text, body) && IsRStripped(body, x) && ClosesTo(x, u)
  }

  /** A closing fence goes, and with it the whitespace before it. */
  ghost predicate ClosesTo(x: string, u: string) {
    if |x| >= 3 && x[|x| - 3..] == FENCE then IsRStripped(x[..|x| - 3], u) else u == x
  }

  ghost predicate IsRStripped(t: string, x: string) {
    x <= t && AllPySpace(t[|x|..]) && (x == "" || !IsPySpace(x[|x| - 1]))
  }

  lemma RStripOnly(t: string, x: string)
    ensures IsRStripped(t, x) <==> x == RStrip(t)
  {
    RStripIs(t);
    if IsRStripped(t, x) {
      var trail := t[|x|..];
      assert t == x + trail;
      RStripSpace(trail);
      if x == "" {
        assert t == trail;
      } else {
        RStripAfter(x, trail);
        assert x + "" == x;
      }
    }
  }

  /** The first newline of `text` is at `nl`. */
  ghost predicate LineEnds(text: string, nl: int) {
    0 <= nl < |text| && text[nl] == '\n' && '\n' !in text[..nl]
  }

  /** What follows the opening fence. */
  ghost predicate IsBodyOf(text: string, body: string) {
    || ('\n' !in text && text == FENCE + body)
    || (exists nl :: LineEnds(text, nl) && body == text[nl + 1..])
  }

  function BodyOf(text: string): string
    requires FENCE <= text
  {
    var nl := Find(text, '\n');
    if nl < |text| then text[nl + 1..] else text[3..]
  }

  lemma LineEndsOnly(text: string, nl: int)
    ensures LineEnds(text, nl) <==> nl == Find(text, '\n') < |text|
  {
    if LineEnds(text, nl) {
      var f := Find(text, '\n');
      assert text[nl] in text;
    }
  }

  lemma BodyOnly(text: string, body: string)
    requires FENCE <= text
    ensures IsBodyOf(text, body) <==> body == BodyOf(text)
  {
    var nl := Find(text, '\n');
    LineEndsOnly(text, nl);
    if nl == |text| {
      assert text[..nl] == text && text == FENCE + text[3..];
    } else {
      assert text[nl] in text;
    }
    if exists n :: LineEnds(text, n) && body == text[n + 1..] {
      var n :| LineEnds(text, n) && body == text[n + 1..];
      LineEndsOnly(text, n);
    }
  }

  lemma ClosesOnly(x: string, u: string)
    ensures ClosesTo(x, u) <==> u == CloseFence(x)
  {
    if EndsWithFence(x) {
      RStripOnly(x[..|x| - 3], u);
    }
  }

  lemma UnfenceOnly(text: string, u: string)
    ensures IsUnfenced(text, u) <==> u == Unfence(text)
  {
    if FENCE <= text {
      var body := BodyOf(text);
      var x := RStrip(body);
      BodyOnly(text, body);
      RStripOnly(body, x);
      ClosesOnly(x, u);
      assert Unfence(text) == CloseFence(x);
      if IsUnfenced(text, u) {
        UnfencedIs(text, u);
      }
    }
  }

  lemma UnfencedIs(text: string, u: string)
    requires FENCE <= text && IsUnfenced(text, u)
    ensures u == CloseFence(RStrip(BodyOf(text)))
  {
    var body, x :| IsBodyOf(text, body) && IsRStripped(body, x) && ClosesTo(x, u);
    BodyOnly(text, body);
    RStripOnly(body, x);
    ClosesOnly(x, u);
  }

  // ------------------------------------------------------------------ the object held

  /** `x` is the object the output holds: the balanced run that starts at the first `{` of the
      stripped and unfenced text. */
  ghost predicate HoldsObject(stdout: string, x: string) {
    exists s, u, pre, post ::
      && IsStripped(stdout, s) && IsUnfenced(s, u) && u == pre + x + post && '{' !in pre
      && x != "" && x[0] == '{' && Balanced(x, |x|)
  }

  lemma HoldsOnly(stdout: string, x: string)
    ensures HoldsObject(stdout, x) <==> Extract(stdout) == Some(x)
  {
    if Extract(stdout) == Some(x) {
      ExtractedIsHeld(stdout, x);
    }
    if HoldsObject(stdout, x) {
      HeldIsExtracted(stdout, x);
    }
  }

  lemma ExtractedIsHeld(stdout: string, x: string)
    requires Extract(stdout) == Some(x)
    ensures HoldsObject(stdout, x)
  {
    var s := Strip(stdout);
    var u := Unfence(s);
    var start := Find(u, '{');
    var t := u[start..];
    StripIs(stdout);
    UnfenceOnly(s, u);
    ExtractedRun(stdout, x);
    HeldFrom(stdout, s, u, u[..start], x, t[|x|..]);
  }

  lemma ExtractedRun(stdout: string, x: string)
    requires Extract(stdout) == Some(x)
    ensures var u := Unfence(Strip(stdout)); var start := Find(u, '{'); var t := u[start..];
      |x| <= |t| && u == u[..start] + x + t[|x|..] && x != "" && x[0] == '{' && Balanced(x, |x|)
  {
    var u := Unfence(Strip(stdout));
    var start := Find(u, '{');
    ExtractedIsWhole(stdout);
    ExtractedPrefix(stdout, x);
    BalancedPrefix(u[start..], x, u[start..][|x|..]);
    CutTwice(u, start, x);
  }

  lemma ExtractedPrefix(stdout: string, x: string)
    requires Extract(stdout) == Some(x)
    ensures var u := Unfence(Strip(stdout)); var t := u[Find(u, '{')..];
      Balanced(t, |x|) && x <= t && t == x + t[|x|..]
  {
    ExtractExact(stdout);
  }

  lemma CutTwice(u: string, start: nat, x: string)
    requires start <= |u| && x <= u[start..]
    ensures u == u[..start] + x + u[start..][|x|..]
  {
    assert u == u[..start] + u[start..];
  }

  lemma HeldFrom(stdout: string, s: string, u: string, pre: string, x: string, post: string)
    requires IsStripped(stdout, s) && IsUnfenced(s, u) && u == pre + x + post && '{' !in pre
    requires x != "" && x[0] == '{' && Balanced(x, |x|)
    ensures HoldsObject(stdout, x)
  {
  }

  lemma HeldIsExtracted(stdout: string, x: string)
    requires HoldsObject(stdout, x)
    ensures Extract(stdout) == Some(x)
  {
    var s, u, pre, post :| IsStripped(stdout, s) && IsUnfenced(s, u) && u == pre + x + post && '{' !in pre
      && x != "" && x[0] == '{' && Balanced(x, |x|);
    StripOnly(stdout, s);
    UnfenceOnly(s, u);
    assert u == pre + (x + post);
    FindPast(pre, x + post, '{');
    BalancedPrefix(x + post, x, post);
    ExtractExact(stdout);
    assert u[|pre|..] == x + post && (x + post)[..|x|] == x;
  }

  /** Being a balanced run depends on the run only. */
  lemma BalancedPrefix(t: string, x: string, post: string)
    requires t == x + post
    ensures Balanced(t, |x|) <==> Balanced(x, |x|)
  {
    forall k | 0 <= k <= |x| ensures t[..k] == x[..k] {
    }
  }

  // ------------------------------------------------------------------ the value spelled

  /** `x` spells the value `v`: whitespace, a well-formed tree of that value, whitespace. */
  ghost predicate Spells(x: string, v: Json) {
    exists lead, c, trail ::
      AllWs(lead) && AllWs(trail) && WellFormed(c) && ValueOf(c) == v && x == lead + Text(c, trail)
  }

  ghost predicate SpellsSome(x: string) {
    exists v :: Spells(x, v)
  }

  lemma SpellsOnly(x: string, v: Json)
    ensures Spells(x, v) <==> Loads(x) == Some(v)
  {
    if lead, c, trail :|
        AllWs(lead) && AllWs(trail) && WellFormed(c) && ValueOf(c) == v && x == lead + Text(c, trail) {
      LoadsOf(lead, c, trail);
    }
    if Loads(x) == Some(v) {
      SpelledIfLoads(x, v);
    }
  }

  lemma SpelledIfLoads(x: string, v: Json)
    requires Loads(x) == Some(v)
    ensures Spells(x, v)
  {
    LoadsIff(x, v);
  }

  lemma SpellsSomeOnly(x: string)
    ensures SpellsSome(x) <==> Loads(x).Some?
  {
    if Loads(x).Some? {
      SpellsOnly(x, Loads(x).value);
    }
    if v :| Spells(x, v) {
      SpellsOnly(x, v);
    }
  }
}
