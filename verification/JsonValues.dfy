/** What the value of a JSON text keeps of it: everything but the whitespace between tokens. */
module JsonValues {
  import opened Wrappers
  import opened JsonLexer
  import opened JsonGrammar

  /** The text without the whitespace outside its strings. */
  function Squeeze(st: Lex, t: string): string
    decreases |t|
  {
    if t == "" then ""
    else (if st == Out && IsWs(t[0]) then "" else [t[0]]) + Squeeze(Step(st, t[0]), t[1..])
  }

  /** The tree with no whitespace between its tokens. */
  function Bare(c: Tree): Tree {
    if c.Box? then Box(c.isObj, "", BareItems(c.items)) else c
  }

  function BareItems(xs: Items): Items {
    match xs
    case Close => Close
    case Item(h, v, _, sep, more) =>
      Item(if h.Key? then Key(h.name, "", "") else NoKey, Bare(v), "",
           if sep.Comma? then Comma("") else JsonGrammar.Sep.Bare, BareItems(more))
  }

  // ------------------------------------------------------------------ squeezing a spelling

  lemma {:induction false} SqueezeWs(ws: string, r: string)
    requires AllWs(ws)
    ensures Squeeze(Out, ws + r) == Squeeze(Out, r)
  {
    if ws == "" {
      assert ws + r == r;
    } else {
      assert (ws + r)[1..] == ws[1..] + r;
      SqueezeWs(ws[1..], r);
    }
  }

  lemma {:induction false} SqueezeAtom(tok: string, r: string)
    requires forall i :: 0 <= i < |tok| ==> IsAtomChar(tok[i])
    ensures Squeeze(Out, tok + r) == tok + Squeeze(Out, r)
  {
    if tok == "" {
      assert tok + r == r;
    } else {
      assert (tok + r)[1..] == tok[1..] + r;
      SqueezeAtom(tok[1..], r);
      assert [tok[0]] + tok[1..] == tok;
    }
  }

  /** Read from inside a string, a body and its closing quote stay as they are. */
  lemma {:induction false} SqueezeBody(b: string, r: string)
    requires IsBody(b)
    ensures Squeeze(In, b + ("\"" + r)) == b + ("\"" + Squeeze(Out, r))
    decreases |b|
  {
    if b == "" {
      assert b + ("\"" + r) == "\"" + r && ("\"" + r)[1..] == r;
    } else {
      var n := UnitLength(b);
      SqueezeBody(b[n..], r);
      SqueezeUnit(b, n, b[n..] + ("\"" + r));
      Rejoin(b, n, "\"" + r);
      Rejoin(b, n, "\"" + Squeeze(Out, r));
    }
  }

  lemma Rejoin(b: string, n: nat, r: string)
    requires n <= |b|
    ensures b[..n] + (b[n..] + r) == b + r
  {
    assert b == b[..n] + b[n..];
  }

  lemma SqueezeUnit(b: string, n: nat, rest: string)
    requires b != "" && n == UnitLength(b) && n > 0
    ensures Squeeze(In, b[..n] + rest) == b[..n] + Squeeze(In, rest)
  {
    if n == 1 {
      SqueezeKeeps(In, b[0], rest);
    } else {
      SqueezeEscape(b, n, rest);
    }
  }

  lemma SqueezeKeeps(st: Lex, c: char, r: string)
    requires st != Out
    ensures Squeeze(st, [c] + r) == [c] + Squeeze(Step(st, c), r)
  {
    assert ([c] + r)[1..] == r;
  }

  lemma SqueezeEscape(b: string, n: nat, rest: string)
    requires b != "" && n == UnitLength(b) && n > 1
    ensures Squeeze(In, b[..n] + rest) == b[..n] + Squeeze(In, rest)
  {
    if n == 2 {
      assert b[..2] + rest == [b[0]] + ([b[1]] + rest);
      SqueezeKeeps(In, b[0], [b[1]] + rest);
      SqueezeKeeps(Esc, b[1], rest);
    } else {
      var r5 := [b[5]] + rest;
      var r4 := [b[4]] + r5;
      var r3 := [b[3]] + r4;
      var r2 := [b[2]] + r3;
      assert b[..6] + rest == [b[0]] + ([b[1]] + r2);
      SqueezeKeeps(In, b[0], [b[1]] + r2);
      SqueezeKeeps(Esc, b[1], r2);
      SqueezeKeeps(In, b[2], r3);
      SqueezeKeeps(In, b[3], r4);
      SqueezeKeeps(In, b[4], r5);
      SqueezeKeeps(In, b[5], rest);
    }
  }

  lemma SqueezeQuoted(b: string, r: string)
    requires IsBody(b)
    ensures Squeeze(Out, "\"" + (b + ("\"" + r))) == "\"" + (b + ("\"" + Squeeze(Out, r)))
  {
    SqueezeBody(b, r);
    SqueezeMark('"', b + ("\"" + r));
  }

  lemma SqueezeMark(c: char, r: string)
    requires !IsWs(c)
    ensures Squeeze(Out, [c] + r) == [c] + Squeeze(if c == '"' then In else Out, r)
  {
    assert ([c] + r)[1..] == r;
  }

  lemma {:induction false} SqueezeText(c: Tree, r: string)
    requires Shaped(c)
    ensures Squeeze(Out, Text(c, r)) == Text(Bare(c), Squeeze(Out, r))
    decreases c, 0
  {
    match c
    case Str(b) => SqueezeQuoted(b, r);
    case Atom(tok) => SqueezeAtom(tok, r);
    case Box(o, lead, xs) =>
      var inner := TextItems(o, xs, r);
      SqueezeMark(Opener(o)[0], lead + inner);
      SqueezeWs(lead, inner);
      SqueezeItems(o, xs, r);
      assert "" + Squeeze(Out, inner) == Squeeze(Out, inner);
  }

  lemma {:induction false} SqueezeItems(isObj: bool, xs: Items, r: string)
    requires ShapedItems(isObj, xs)
    ensures Squeeze(Out, TextItems(isObj, xs, r)) == TextItems(isObj, BareItems(xs), Squeeze(Out, r))
    decreases xs, 0
  {
    match xs
    case Close => SqueezeMark(Closer(isObj)[0], r);
    case Item(h, v, after, sep, more) =>
      var items := TextItems(isObj, more, r);
      var tail := TextSep(sep, items);
      SqueezeHead(isObj, h, Text(v, after + tail));
      SqueezeText(v, after + tail);
      SqueezeWs(after, tail);
      SqueezeSep(sep, items);
      SqueezeItems(isObj, more, r);
      assert "" + Squeeze(Out, tail) == Squeeze(Out, tail);
  }

  lemma SqueezeSep(sep: JsonGrammar.Sep, r: string)
    requires sep.Comma? ==> AllWs(sep.pad)
    ensures Squeeze(Out, TextSep(sep, r))
         == TextSep(if sep.Comma? then Comma("") else JsonGrammar.Sep.Bare, Squeeze(Out, r))
  {
    if sep.Comma? {
      SqueezeMark(',', sep.pad + r);
      SqueezeWs(sep.pad, r);
      assert "" + Squeeze(Out, r) == Squeeze(Out, r);
    }
  }

  lemma SqueezeHead(isObj: bool, h: Head, r: string)
    requires OkHead(isObj, h)
    ensures Squeeze(Out, TextHead(h, r)) == TextHead(if h.Key? then Key(h.name, "", "") else NoKey, Squeeze(Out, r))
  {
    if h.Key? {
      var colon := ":" + (h.afterColon + r);
      SqueezeQuoted(h.name, h.beforeColon + colon);
      SqueezeWs(h.beforeColon, colon);
      SqueezeMark(':', h.afterColon + r);
      SqueezeWs(h.afterColon, r);
      assert "" + Squeeze(Out, r) == Squeeze(Out, r);
      assert "" + Squeeze(Out, colon) == Squeeze(Out, colon);
    }
  }

  // ------------------------------------------------------------------ same value, same tokens

  lemma {:induction false} BareIsSound(c: Tree)
    requires WellFormed(c)
    ensures WellFormed(Bare(c)) && ValueOf(Bare(c)) == ValueOf(c)
    decreases c, 0
  {
    if c.Box? {
      BareItemsSound(c.isObj, c.items);
    }
  }

  lemma {:induction false} BareItemsSound(isObj: bool, xs: Items)
    requires ShapedItems(isObj, xs) && CommasRightItems(xs)
    ensures ShapedItems(isObj, BareItems(xs)) && CommasRightItems(BareItems(xs))
    ensures Members(BareItems(xs)) == Members(xs) && Elems(BareItems(xs)) == Elems(xs)
    decreases xs, 0
  {
    if xs.Item? {
      BareIsSound(xs.val);
      BareItemsSound(isObj, xs.more);
    }
  }

  lemma {:induction false} SameValueSameTree(c: Tree, d: Tree)
    requires WellFormed(c) && WellFormed(d) && ValueOf(c) == ValueOf(d)
    ensures Bare(c) == Bare(d)
    decreases c, 0
  {
    if c.Box? {
      SameValuesSameItems(c.isObj, c.items, d.items);
    }
  }

  lemma {:induction false} SameValuesSameItems(isObj: bool, xs: Items, ys: Items)
    requires ShapedItems(isObj, xs) && CommasRightItems(xs) && ShapedItems(isObj, ys) && CommasRightItems(ys)
    requires if isObj then Members(xs) == Members(ys) else Elems(xs) == Elems(ys)
    ensures BareItems(xs) == BareItems(ys)
    decreases xs, 0
  {
    if xs.Item? && ys.Item? {
      HeadsAndTails(isObj, xs, ys);
      SameValueSameTree(xs.val, ys.val);
      SameValuesSameItems(isObj, xs.more, ys.more);
    }
  }

  lemma HeadsAndTails(isObj: bool, xs: Items, ys: Items)
    requires xs.Item? && ys.Item? && ShapedItems(isObj, xs) && ShapedItems(isObj, ys)
    requires if isObj then Members(xs) == Members(ys) else Elems(xs) == Elems(ys)
    ensures ValueOf(xs.val) == ValueOf(ys.val)
    ensures if isObj then Members(xs.more) == Members(ys.more) else Elems(xs.more) == Elems(ys.more)
    ensures isObj ==> xs.head.name == ys.head.name
  {
    if isObj {
      assert Members(xs)[0] == Members(ys)[0] && Members(xs)[1..] == Members(ys)[1..];
      assert Members(xs)[1..] == Members(xs.more) && Members(ys)[1..] == Members(ys.more);
    } else {
      assert Elems(xs)[0] == Elems(ys)[0] && Elems(xs)[1..] == Elems(ys)[1..];
      assert Elems(xs)[1..] == Elems(xs.more) && Elems(ys)[1..] == Elems(ys.more);
    }
  }

  /** Two JSON texts have the same value if and only if they are the same but for whitespace between
      tokens: recovering the value recovers every name, string, literal and their order. */
  lemma SameValueIff(c: Tree, d: Tree)
    requires WellFormed(c) && WellFormed(d)
    ensures ValueOf(c) == ValueOf(d) <==> Squeeze(Out, Text(c, "")) == Squeeze(Out, Text(d, ""))
  {
    SqueezeText(c, "");
    SqueezeText(d, "");
    if ValueOf(c) == ValueOf(d) {
      SameValueSameTree(c, d);
    }
    BareIsSound(c);
    BareIsSound(d);
    LoadsOf("", Bare(c), "");
    LoadsOf("", Bare(d), "");
  }

  /** Item `k` of a container. */
  function ItemAt(xs: Items, k: nat): (x: Option<Items>)
    ensures x.Some? ==> x.value.Item?
  {
    match xs
    case Close => None
    case Item(_, _, _, _, more) => if k == 0 then Some(xs) else ItemAt(more, k - 1)
  }

  /** An object's value has one member per item, in order, under the item's name and with the item's
      own value; an array's has the values. */
  lemma {:induction false} ItemValue(isObj: bool, xs: Items, k: nat)
    requires ShapedItems(isObj, xs)
    ensures ItemAt(xs, k).Some? <==> k < |Members(xs)|
    ensures |Elems(xs)| == |Members(xs)|
    ensures ItemAt(xs, k).Some? ==>
      var x := ItemAt(xs, k).value;
      Elems(xs)[k] == ValueOf(x.val) && Members(xs)[k].1 == ValueOf(x.val)
      && (isObj ==> x.head.Key? && Members(xs)[k].0 == x.head.name)
    decreases xs
  {
    if xs.Item? {
      ItemValue(isObj, xs.more, if k == 0 then 0 else k - 1);
    }
  }
}
