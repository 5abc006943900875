/** The extract / parse / repair / parse cascade of `parse_coder_response`, and the recovery it
    guarantees for a JSON object an LLM wrapped in prose and mistyped. */
module JsonRecovery {
  import opened JsonLexer
  import opened JsonGrammar
  import opened JsonRepair
  import opened JsonDamage
  import opened JsonExtract
  import opened JsonContract
  import opened Wrappers

  datatype Outcome = Parsed(value: Json) | TransportError(reason: string)

  function DecodeObject(v: Json): Outcome {
    if v.JObject? then Parsed(v) else TransportError("response is not a JSON object")
  }

  function DecodeHeld(x: string): Outcome {
    match Loads(x)
    case Some(v) => DecodeObject(v)
    case None =>
      match Loads(Repair(Out, x))
      case Some(v) => DecodeObject(v)
      case None => TransportError("malformed JSON")
  }

  function ParseResponse(stdout: string, exitCode: int): Outcome {
    if exitCode != 0 then TransportError("exit")
    else if Strip(stdout) == "" then TransportError("empty stdout")
    else match Extract(Strip(stdout))
      case None => TransportError("no JSON object in stdout")
      case Some(x) => DecodeHeld(x)
  }

  /** What each outcome means. The response is parsed as `v` exactly when the process succeeded, the
      text holds an object, and the object spells `v` or, spelling nothing, its repair does. */
  ghost predicate Means(stdout: string, exitCode: int, r: Outcome) {
    && (r == TransportError("exit") <==> exitCode != 0)
    && (r == TransportError("empty stdout") <==> exitCode == 0 && AllPySpace(stdout))
    && (r == TransportError("no JSON object in stdout") <==>
          exitCode == 0 && !AllPySpace(stdout) && forall x :: !HoldsObject(stdout, x))
    && (r == TransportError("malformed JSON") <==>
          exitCode == 0 && exists x :: HoldsObject(stdout, x) && !SpellsSome(x) && !SpellsSome(Repair(Out, x)))
    && (forall v :: r == Parsed(v) <==>
          exitCode == 0 && exists x :: HoldsObject(stdout, x) && RecoversTo(x, v))
  }

  ghost predicate RecoversTo(x: string, v: Json) {
    Spells(x, v) || (!SpellsSome(x) && Spells(Repair(Out, x), v))
  }

  lemma ExtractStripped(stdout: string)
    ensures Extract(Strip(stdout)) == Extract(stdout)
  {
    StripTwice(stdout);
  }

  /** Only one object is held, and none by a blank text. */
  lemma HeldIs(stdout: string)
    ensures forall x :: HoldsObject(stdout, x) <==> Extract(stdout) == Some(x)
    ensures Extract(stdout).Some? ==> !AllPySpace(stdout)
  {
    forall x ensures HoldsObject(stdout, x) <==> Extract(stdout) == Some(x) {
      HoldsOnly(stdout, x);
    }
    StripIs(stdout);
  }

  lemma ParseMeans(stdout: string, exitCode: int)
    ensures Means(stdout, exitCode, ParseResponse(stdout, exitCode))
  {
    ExtractStripped(stdout);
    StripIs(stdout);
    HeldIs(stdout);
    if exitCode == 0 && Extract(stdout).Some? {
      HeldMeans(stdout, Extract(stdout).value);
    }
  }

  lemma HeldMeans(stdout: string, x: string)
    requires Extract(stdout) == Some(x) && forall y :: HoldsObject(stdout, y) <==> y == x
    requires !AllPySpace(stdout)
    ensures Means(stdout, 0, ParseResponse(stdout, 0))
  {
    ExtractStripped(stdout);
    StripIs(stdout);
    ExtractedIsWhole(stdout);
    RepairedExtractsToItself(stdout);
    ExtractedIsWhole(Repair(Out, x));
    assert ParseResponse(stdout, 0) == DecodeHeld(x);
    DecodeMeans(x);
    assert HoldsObject(stdout, x);
  }

  lemma DecodeMeans(x: string)
    requires x != "" && x[0] == '{' && Repair(Out, x) != "" && Repair(Out, x)[0] == '{'
    ensures DecodeHeld(x) == TransportError("malformed JSON") <==> !SpellsSome(x) && !SpellsSome(Repair(Out, x))
    ensures forall v :: DecodeHeld(x) == Parsed(v) <==> RecoversTo(x, v)
    ensures DecodeHeld(x).Parsed? || DecodeHeld(x) == TransportError("malformed JSON")
  {
    var y := Repair(Out, x);
    SpellsSomeOnly(x);
    SpellsSomeOnly(y);
    LoadsObject(x);
    LoadsObject(y);
    forall v ensures DecodeHeld(x) == Parsed(v) <==> RecoversTo(x, v) {
      SpellsOnly(x, v);
      SpellsOnly(y, v);
    }
  }

  /** The cascade as written, over the two scanners. The last error return is dead code. */
  method ParseCoderResponse(stdout: string, exitCode: int) returns (r: Outcome)
    ensures r == ParseResponse(stdout, exitCode)
    ensures r != TransportError("response is not a JSON object")
    ensures Means(stdout, exitCode, r)
  {
    ParseMeans(stdout, exitCode);
    if exitCode != 0 {
      return TransportError("exit");
    }
    var stripped := Strip(stdout);
    if stripped == "" {
      return TransportError("empty stdout");
    }
    var extracted := ExtractJsonObject(stripped);
    if extracted == None {
      return TransportError("no JSON object in stdout");
    }
    var parsed := Loads(extracted.value);
    ExtractedIsWhole(stripped);
    LoadsObject(extracted.value);
    if parsed == None {
      var repaired := RepairJsonTypos(extracted.value);
      RepairedExtractsToItself(stripped);
      ExtractedIsWhole(repaired);
      LoadsObject(repaired);
      parsed := Loads(repaired);
      if parsed == None {
        return TransportError("malformed JSON");
      }
    }
    r := DecodeObject(parsed.value);
  }

  lemma LoadsObject(x: string)
    requires x != "" && x[0] == '{'
    ensures Loads(x).Some? ==> Loads(x).value.JObject?
  {
  }

  /** Trying the strict parse first and repairing only on failure gives what repairing always
      would give, on every input. */
  lemma FallbackEqualsAlways(x: string)
    ensures Loads(x).Some? ==> Loads(Repair(Out, x)) == Loads(x)
  {
    if Loads(x).Some? {
      RepairIdentityOnAccepted(x);
    }
  }

  // ------------------------------------------------------------------ the walk over a spelling

  lemma {:induction false} DamageKeepsShape(c0: Tree, c: Tree)
    requires Shaped(c0) && DamageOf(c0, c)
    ensures Shaped(c)
    decreases c0
  {
    if c0.Box? {
      DamageKeepsShapeItems(c0.isObj, c0.items, c.items);
    }
  }

  lemma {:induction false} DamageKeepsShapeItems(isObj: bool, xs0: Items, xs: Items)
    requires ShapedItems(isObj, xs0) && DamageOfItems(xs0, xs)
    ensures ShapedItems(isObj, xs)
    decreases xs0
  {
    if xs0.Item? {
      DamageKeepsShape(xs0.val, xs.val);
      DamageKeepsShapeItems(isObj, xs0.more, xs.more);
      DamagedWs(isObj, xs0, xs);
    }
  }

  lemma {:induction false} WalkInside(st: Lex, d: int, b: string, r: string)
    requires Inside(st, b)
    ensures Walk(st, d, b + r) == Walk(In, d, r)
    decreases |b|
  {
    if b == "" {
      assert b + r == r;
    } else {
      assert (b + r)[1..] == b[1..] + r;
      WalkInside(Step(st, b[0]), d, b[1..], r);
    }
  }

  lemma WalkQuoted(d: int, b: string, r: string)
    requires IsBody(b)
    ensures Walk(Out, d, "\"" + (b + ("\"" + r))) == Walk(Out, d, r)
  {
    var q := "\"" + r;
    assert ("\"" + (b + q))[1..] == b + q;
    BodyIsInside(b);
    WalkInside(In, d, b, q);
    assert q[1..] == r;
  }

  /** Whitespace, literals, commas and colons leave the walk where it is. */
  lemma {:induction false} WalkPlain(d: int, s: string, r: string)
    requires forall i :: 0 <= i < |s| ==> IsWs(s[i]) || IsAtomChar(s[i]) || s[i] == ',' || s[i] == ':'
    ensures Walk(Out, d, s + r) == Walk(Out, d, r)
  {
    if s == "" {
      assert s + r == r;
    } else {
      assert (s + r)[1..] == s[1..] + r;
      WalkPlain(d, s[1..], r);
    }
  }

  lemma WalkHead(isObj: bool, d: int, h: Head, r: string)
    requires OkHead(isObj, h)
    ensures Walk(Out, d, TextHead(h, r)) == Walk(Out, d, r)
  {
    if isObj {
      var tail := h.afterColon + r;
      WalkQuoted(d, h.name, h.beforeColon + (":" + tail));
      WalkPlain(d, h.beforeColon, ":" + tail);
      WalkPlain(d, ":", tail);
      WalkPlain(d, h.afterColon, r);
    }
  }

  /** Walking over a value, damaged or not, ends where it began; over a whole object from depth
      zero, it stops right behind it. */
  lemma {:induction false} WalkTree(d: int, c: Tree, r: string)
    requires Shaped(c) && (d >= 1 || (d == 0 && c.Box? && c.isObj))
    ensures Walk(Out, d, Text(c, r)) == if d == 0 then Some(r) else Walk(Out, d, r)
    decreases c
  {
    match c
    case Str(b) => WalkQuoted(d, b, r);
    case Atom(tok) => WalkPlain(d, tok, r);
    case Box(o, lead, xs) =>
      var inner := TextItems(o, xs, r);
      var d' := if o then d + 1 else d;
      assert Text(c, r)[1..] == lead + inner;
      assert Walk(Out, d, Text(c, r)) == Walk(Out, d', lead + inner);
      WalkPlain(d', lead, inner);
      WalkItems(o, d', xs, r);
  }

  lemma {:induction false} WalkItems(isObj: bool, d: int, xs: Items, r: string)
    requires ShapedItems(isObj, xs) && d >= 1
    ensures Walk(Out, d, TextItems(isObj, xs, r))
         == if !isObj then Walk(Out, d, r) else if d == 1 then Some(r) else Walk(Out, d - 1, r)
    decreases xs
  {
    match xs
    case Close =>
      assert (Closer(isObj) + r)[1..] == r;
    case Item(h, v, after, sep, more) =>
      var items := TextItems(isObj, more, r);
      var u := after + TextSep(sep, items);
      WalkHead(isObj, d, h, Text(v, u));
      WalkTree(d, v, u);
      WalkPlain(d, after, TextSep(sep, items));
      if sep.Comma? {
        WalkPlain(d, ",", sep.pad + items);
        WalkPlain(d, sep.pad, items);
      }
      WalkItems(isObj, d, more, r);
  }

  lemma {:induction false} TextAppend(c: Tree, s: string, r: string)
    ensures Text(c, s + r) == Text(c, s) + r
    decreases c
  {
    match c
    case Str(b) => assert "\"" + (b + ("\"" + (s + r))) == "\"" + (b + ("\"" + s)) + r;
    case Atom(tok) => assert tok + (s + r) == tok + s + r;
    case Box(o, lead, xs) =>
      TextItemsAppend(o, xs, s, r);
      ConcatFour(Opener(o), lead, TextItems(o, xs, s), r);
  }

  lemma ConcatFour(a: string, b: string, c: string, d: string)
    ensures a + (b + (c + d)) == a + (b + c) + d
  {
  }

  lemma {:induction false} TextItemsAppend(isObj: bool, xs: Items, s: string, r: string)
    ensures TextItems(isObj, xs, s + r) == TextItems(isObj, xs, s) + r
    decreases xs
  {
    match xs
    case Close => assert Closer(isObj) + (s + r) == Closer(isObj) + s + r;
    case Item(h, v, after, sep, more) =>
      var items := TextItems(isObj, more, s);
      TextItemsAppend(isObj, more, s, r);
      TextSepAppend(sep, items, r);
      var u := TextSep(sep, items);
      assert after + (u + r) == after + u + r;
      TextAppend(v, after + u, r);
      TextHeadAppend(h, Text(v, after + u), r);
  }

  lemma TextSepAppend(sep: Sep, s: string, r: string)
    ensures TextSep(sep, s + r) == TextSep(sep, s) + r
  {
    if sep.Comma? {
      ConcatFour(",", sep.pad, s, r);
    }
  }

  lemma TextHeadAppend(h: Head, s: string, r: string)
    ensures TextHead(h, s + r) == TextHead(h, s) + r
  {
    if h.Key? {
      var u := ":" + (h.afterColon + s);
      ConcatFour(":", h.afterColon, s, r);
      ConcatFour("\"", h.beforeColon, u, r);
      var q := "\"" + (h.beforeColon + u);
      ConcatFour("\"", h.name, q, r);
    }
  }

  // ------------------------------------------------------------------ preamble and postscript

  lemma {:induction false} LStripTwice(t: string)
    ensures LStrip(LStrip(t)) == LStrip(t)
    ensures forall c :: c in LStrip(t) ==> c in t
  {
    if t != "" && IsPySpace(t[0]) {
      LStripTwice(t[1..]);
    }
  }

  /** The preamble opens with a Markdown fence whose line does not end before the object. */
  predicate OpenFenceLine(pre: string) {
    StartsWithFence(LStrip(pre)) && '\n' !in LStrip(pre)
  }

  /** Such a fence costs the object: there is a newline, past the fence line, up to which the text is
      dropped. With none at all only the three fence characters go. */
  predicate FenceSwallows(pre: string, rest: string) {
    OpenFenceLine(pre) && '\n' in RStrip(rest)
  }

  lemma CloseFenceAfter(y: string, b: string) returns (b': string)
    requires y != "" && y[|y| - 1] == '}'
    ensures CloseFence(RStrip(y + b)) == y + b'
  {
    RStripAfter(y, b);
    b' := RStrip(b);
    if EndsWithFence(y + b') {
      if |b'| < 3 {
        FenceTooShort(y, b');
      }
      var b2 := b'[..|b'| - 3];
      assert (y + b')[..|y + b'| - 3] == y + b2;
      RStripAfter(y, b2);
      b' := RStrip(b2);
    }
  }

  /** Whatever is cut off, the object stays between a `{`-free preamble and some postscript. */
  lemma UnfenceAround(a: string, x: string, b: string) returns (a': string, b': string)
    requires NoSpaceEnds(x) && x[0] == '{' && x[|x| - 1] == '}' && '{' !in a
    requires StartsWithFence(a) ==> '\n' in a || '\n' !in x + b
    ensures '{' !in a' && Unfence(a + (x + b)) == a' + (x + b')
  {
    FenceBefore(a, x + b);
    if StartsWithFence(a) {
      a' := DropFenceLine(a, x + b);
      b' := CloseFenceAround(a', x, b);
    } else {
      a', b' := a, b;
    }
  }

  lemma CloseFenceAround(a: string, x: string, b: string) returns (b': string)
    requires x != "" && x[|x| - 1] == '}'
    ensures CloseFence(RStrip(a + (x + b))) == a + (x + b')
  {
    var y := a + x;
    assert a + (x + b) == y + b && y[|y| - 1] == '}';
    b' := CloseFenceAfter(y, b);
    assert y + b' == a + (x + b');
  }

  lemma DropFenceLine(a: string, t: string) returns (a': string)
    requires StartsWithFence(a) && ('\n' in a || '\n' !in t) && t != "" && t[0] == '{' && '{' !in a
    ensures '{' !in a' && Unfence(a + t) == CloseFence(RStrip(a' + t))
  {
    FenceBefore(a, t);
    if '\n' in a {
      FindIn(a, t, '\n');
      var nl := Find(a, '\n');
      a' := a[nl + 1..];
      assert (a + t)[nl + 1..] == a' + t;
    } else {
      a' := a[3..];
      assert (a + t)[3..] == a' + t;
    }
  }

  lemma FenceBefore(a: string, t: string)
    requires t != "" && t[0] == '{'
    ensures StartsWithFence(a + t) <==> StartsWithFence(a)
  {
    assert FENCE[0] == FENCE[1] == FENCE[2] == '`';
    if |a| >= 3 {
      assert (a + t)[..3] == a[..3];
    } else if |a + t| >= 3 {
      assert (a + t)[..3][|a|] == '{';
    }
  }

  lemma FenceTooShort(y: string, b: string)
    requires y != "" && y[|y| - 1] == '}' && |b| < 3
    ensures !EndsWithFence(y + b)
  {
    assert FENCE[0] == FENCE[1] == FENCE[2] == '`';
    if |y + b| >= 3 {
      var u := (y + b)[|y + b| - 3..];
      assert u[2 - |b|] == y[|y| - 1];
    }
  }

  lemma SpellingEnds(c: Tree)
    requires Shaped(c) && c.Box? && c.isObj
    ensures var x := Text(c, ""); NoSpaceEnds(x) && x[0] == '{' && x[|x| - 1] == '}' && Walk(Out, 0, x) == Some("")
  {
    WalkTree(0, c, "");
    WalkEndsInBrace(Out, 0, Text(c, ""));
  }

  lemma FirstObjectAround(a: string, c: Tree, b: string)
    requires Shaped(c) && c.Box? && c.isObj && '{' !in a
    ensures FirstObject(a + Text(c, b)) == Some(Text(c, ""))
  {
    var t := Text(c, b);
    FindPast(a, t, '{');
    assert (a + t)[|a|..] == t;
    WalkTree(0, c, b);
    TextAppend(c, "", b);
    assert "" + b == b;
    assert (a + t)[|a|..|a + t| - |b|] == Text(c, "");
  }

  /** Any object spelling, well formed or not in its commas, is extracted whole from between a
      `{`-free preamble and any postscript. */
  lemma ExtractAround(pre: string, c: Tree, post: string)
    requires Shaped(c) && c.Box? && c.isObj
    requires '{' !in pre && !FenceSwallows(pre, Text(c, post))
    ensures Extract(pre + Text(c, post)) == Some(Text(c, ""))
    ensures Extract(Strip(pre + Text(c, post))) == Some(Text(c, ""))
  {
    var x := Text(c, "");
    SpellingEnds(c);
    TextAppend(c, "", post);
    assert "" + post == post;
    StripTwiceAround(pre, x, post);
    RStripAfter(x, post);
    UnfencedObject(LStrip(pre), c, RStrip(post));
  }

  lemma StripTwiceAround(pre: string, x: string, post: string)
    requires NoSpaceEnds(x)
    ensures Strip(pre + (x + post)) == LStrip(pre) + (x + RStrip(post)) == Strip(Strip(pre + (x + post)))
    ensures forall ch :: ch in LStrip(pre) ==> ch in pre
  {
    LStripTwice(pre);
    RStripTwice(post);
    StripAround(pre, x, post);
    StripAround(LStrip(pre), x, RStrip(post));
  }

  lemma UnfencedObject(a: string, c: Tree, b: string)
    requires Shaped(c) && c.Box? && c.isObj && '{' !in a
    requires StartsWithFence(a) ==> '\n' in a || '\n' !in Text(c, "") + b
    ensures FirstObject(Unfence(a + (Text(c, "") + b))) == Some(Text(c, ""))
  {
    SpellingEnds(c);
    var a', b' := UnfenceAround(a, Text(c, ""), b);
    TextAppend(c, "", b');
    assert "" + b' == b';
    FirstObjectAround(a', c, b');
  }

  lemma {:induction false} RStripTwice(t: string)
    ensures RStrip(RStrip(t)) == RStrip(t)
    decreases |t|
  {
    if t != "" && IsPySpace(t[|t| - 1]) {
      RStripTwice(t[..|t| - 1]);
    }
  }

  /** Main result. Take any JSON object and any spelling of it; lose any commas between a quote or
      closer and a quote or opener, add one trailing comma before any closers, put any `{`-free
      preamble before it (whose fence line, if it opens with one, ends before the object or nowhere)
      and anything behind it: the cascade still returns exactly that object. */
  lemma Recovery(v: Json, c0: Tree, c: Tree, pre: string, post: string)
    requires WellFormed(c0) && ValueOf(c0) == v && v.JObject? && DamageOf(c0, c)
    requires '{' !in pre && !FenceSwallows(pre, Text(c, post))
    ensures ParseResponse(pre + Text(c, post), 0) == Parsed(v)
  {
    var x := Text(c, "");
    DamageKeepsShape(c0, c);
    ExtractAround(pre, c, post);
    RepairDamaged(c0, c, "");
    assert Glue(c, "") == "";
    MendRestores(c0, c);
    LoadsOf("", Mend(c), "");
    assert "" + Text(Mend(c), "") == Text(Mend(c), "");
    FallbackEqualsAlways(x);
    EmptyExtract(Strip(pre + Text(c, post)));
  }

  lemma EmptyExtract(t: string)
    requires Extract(t).Some?
    ensures t != ""
  {
  }

  /** The same in terms of texts: any text strict parsing accepts as the object `v`. */
  lemma RecoveryOfText(t: string, v: Json, pre: string, post: string)
    requires Loads(t) == Some(v) && v.JObject?
    requires '{' !in pre && !FenceSwallows(pre + t[..Find(t, '{')], t[Find(t, '{')..] + post)
    ensures ParseResponse(pre + t + post, 0) == Parsed(v)
  {
    var lead, c, trail := SpellingOf(t, v);
    UndamagedIsDamageOf(c);
    TextAppend(c, trail, post);
    var front, rest := pre + lead, Text(c, trail) + post;
    assert '{' !in front;
    Regroup(pre, lead, Text(c, trail), post);
    assert pre + t + post == front + rest;
    Recovery(v, c, c, front, trail + post);
  }

  lemma Regroup(a: string, b: string, c: string, d: string)
    ensures a + (b + c) + d == (a + b) + (c + d)
  {
  }

  lemma SpellingOf(t: string, v: Json) returns (lead: string, c: Tree, trail: string)
    requires Loads(t) == Some(v) && v.JObject?
    ensures '{' !in lead && WellFormed(c) && ValueOf(c) == v && t == lead + Text(c, trail)
    ensures lead == t[..Find(t, '{')] && Text(c, trail) == t[Find(t, '{')..]
  {
    LoadsIff(t, v);
    lead, c, trail :| AllWs(lead) && AllWs(trail) && WellFormed(c) && ValueOf(c) == v && t == lead + Text(c, trail);
    FindPast(lead, Text(c, trail), '{');
  }

  /** Where the code falls short: a fence line that does not end before the object is cut together
      with everything up to the first newline, so some postscripts lose the object. */
  lemma OpenFenceLineLoses(pre: string, c: Tree)
    requires Shaped(c) && c.Box? && c.isObj && OpenFenceLine(pre)
    ensures Extract(pre + Text(c, "\nx")) != Some(Text(c, ""))
  {
    var x := Text(c, "");
    SpellingEnds(c);
    TextAppend(c, "", "\nx");
    assert "" + "\nx" == "\nx";
    assert RStrip("\nx") == "\nx";
    StripAround(pre, x, "\nx");
    OpenFenceLineCuts(LStrip(pre), x);
    NotWhole(Unfence(Strip(pre + Text(c, "\nx"))), x);
  }

  lemma OpenFenceLineCuts(a: string, x: string)
    requires StartsWithFence(a) && '\n' !in a && x != "" && x[0] == '{'
    ensures var body := Unfence(a + (x + "\nx"));
      && 1 <= |body| <= |x| + 1 && body[|body| - 1] == 'x' && (|body| == 1 || body[|body| - 2] == '\n')
  {
    var t := x + "\nx";
    var text := a + t;
    FenceBefore(a, t);
    var nl := Find(text, '\n');
    FindLater(a, t, '\n');
    assert text[|text| - 2] == '\n' && text[|text| - 1] == 'x';
    FirstIsEarlier(text, '\n', |text| - 2);
    var body := text[nl + 1..];
    assert body[|body| - 1] == 'x' && RStrip(body) == body;
    assert FENCE[2] == '`';
    assert |body| >= 3 ==> body[|body| - 3..][2] == 'x';
    assert CloseFence(body) == body;
  }

  lemma {:induction false} FirstIsEarlier(t: string, c: char, i: nat)
    requires i < |t| && t[i] == c
    ensures Find(t, c) <= i
  {
    if t[0] != c {
      FirstIsEarlier(t[1..], c, i - 1);
    }
  }

  /** No extraction from a text this short, ending like this, has the length of `x`. */
  lemma NotWhole(body: string, x: string)
    requires 1 <= |body| <= |x| + 1 && body[|body| - 1] == 'x' && (|body| == 1 || body[|body| - 2] == '\n')
    ensures FirstObject(body) != Some(x)
  {
    var start := Find(body, '{');
    if start < |body| {
      var t := body[start..];
      if Walk(Out, 0, t).Some? {
        var rest := Walk(Out, 0, t).value;
        WalkCut(Out, 0, t);
        var y := t[..|t| - |rest|];
        WalkEndsInBrace(Out, 0, y);
        assert y[|y| - 1] == body[|body| - |rest| - 1];
        assert |rest| >= 2;
      }
    }
  }

  lemma {:induction false} FindLater(a: string, t: string, c: char)
    requires c !in a && t != "" && t[0] != c
    ensures Find(a + t, c) > |a|
  {
    if a == "" {
      assert a + t == t;
    } else {
      assert (a + t)[1..] == a[1..] + t;
      FindLater(a[1..], t, c);
    }
  }

  /** So the object survives every postscript exactly when the preamble does not open with an
      unfinished fence line. */
  lemma ExtractsForEveryPostscriptIff(pre: string, c: Tree)
    requires Shaped(c) && c.Box? && c.isObj && '{' !in pre
    ensures (forall post :: Extract(pre + Text(c, post)) == Some(Text(c, ""))) <==> !OpenFenceLine(pre)
  {
    if OpenFenceLine(pre) {
      OpenFenceLineLoses(pre, c);
    } else {
      forall post ensures Extract(pre + Text(c, post)) == Some(Text(c, "")) {
        ExtractAround(pre, c, post);
      }
    }
  }
}
