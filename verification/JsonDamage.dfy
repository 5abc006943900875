/** What the repair pass does to the spelling of a JSON value whose commas went missing or were
    left trailing. */
module JsonDamage {
  import opened JsonLexer
  import opened JsonGrammar
  import opened JsonRepair

  /** `c` is `c0` after an LLM dropped some commas between a value ending in a quote or closer and
      an item starting with a quote or opener, and left one trailing comma before some closers of
      non-empty containers. The whitespace around a lost comma runs together. */
  ghost predicate DamageOf(c0: Tree, c: Tree)
    decreases c0
  {
    match c0
    case Str(_) => c == c0
    case Atom(_) => c == c0
    case Box(o, lead, xs0) => c.Box? && c.isObj == o && c.lead == lead && DamageOfItems(xs0, c.items)
  }

  ghost predicate DamageOfItems(xs0: Items, xs: Items)
    decreases xs0
  {
    match xs0
    case Close => xs == Close
    case Item(h, v0, after, sep, more0) =>
      && xs.Item? && xs.head == h && DamageOf(v0, xs.val) && DamageOfItems(more0, xs.more)
      && (Kept(xs0, xs) || Dropped(xs0, xs) || Trailing(xs0, xs))
  }

  ghost predicate Kept(x0: Items, x: Items)
    requires x0.Item? && x.Item?
  {
    x.after == x0.after && x.sep == x0.sep
  }

  ghost predicate Dropped(x0: Items, x: Items)
    requires x0.Item? && x.Item?
  {
    && x0.sep.Comma? && x.sep.Bare? && x.after == x0.after + x0.sep.pad
    && !x0.val.Atom? && StartsOpen(x0.more)
  }

  ghost predicate Trailing(x0: Items, x: Items)
    requires x0.Item? && x.Item?
  {
    x0.more.Close? && x.sep.Comma? && x0.after == x.after + x.sep.pad
  }

  ghost predicate StartsOpen(xs: Items) {
    xs.Item? && (xs.head.Key? || !xs.val.Atom?)
  }

  /** The tree whose spelling repair produces: an inserted comma lands right after the value. */
  function Mend(c: Tree): Tree {
    if c.Box? then Box(c.isObj, c.lead, MendItems(c.items)) else c
  }

  function MendItems(xs: Items): Items {
    match xs
    case Close => Close
    case Item(h, v, after, sep, more) =>
      if more.Item? && sep.Bare? then Item(h, Mend(v), "", Comma(after), MendItems(more))
      else if more.Close? && sep.Comma? then Item(h, Mend(v), after + sep.pad, Bare, Close)
      else Item(h, Mend(v), after, sep, MendItems(more))
  }

  lemma {:induction false} MendRestores(c0: Tree, c: Tree)
    requires WellFormed(c0) && DamageOf(c0, c)
    ensures WellFormed(Mend(c)) && ValueOf(Mend(c)) == ValueOf(c0)
    decreases c0
  {
    if c0.Box? {
      MendRestoresItems(c0.isObj, c0.items, c.items);
    }
  }

  lemma {:induction false} MendRestoresItems(isObj: bool, xs0: Items, xs: Items)
    requires ShapedItems(isObj, xs0) && CommasRightItems(xs0) && DamageOfItems(xs0, xs)
    ensures ShapedItems(isObj, MendItems(xs)) && CommasRightItems(MendItems(xs))
    ensures Members(MendItems(xs)) == Members(xs0) && Elems(MendItems(xs)) == Elems(xs0)
    decreases xs0
  {
    if xs0.Item? {
      MendRestores(xs0.val, xs.val);
      MendRestoresItems(isObj, xs0.more, xs.more);
      if Trailing(xs0, xs) && !Kept(xs0, xs) {
        assert xs0.after == xs.after + xs.sep.pad;
      }
    }
  }

  lemma UndamagedIsDamageOf(c: Tree)
    ensures DamageOf(c, c)
    decreases c
  {
    if c.Box? {
      UndamagedItems(c.items);
    }
  }

  lemma UndamagedItems(xs: Items)
    ensures DamageOfItems(xs, xs)
    decreases xs
  {
    if xs.Item? {
      UndamagedIsDamageOf(xs.val);
      UndamagedItems(xs.more);
    }
  }

  lemma {:induction false} MendUndamaged(c: Tree)
    requires CommasRight(c)
    ensures Mend(c) == c
    decreases c
  {
    if c.Box? {
      MendUndamagedItems(c.items);
    }
  }

  lemma {:induction false} MendUndamagedItems(xs: Items)
    requires CommasRightItems(xs)
    ensures MendItems(xs) == xs
    decreases xs
  {
    if xs.Item? {
      MendUndamaged(xs.val);
      MendUndamagedItems(xs.more);
    }
  }

  // ------------------------------------------------------------------ repair over tokens

  lemma {:induction false} RepairWs(ws: string, r: string)
    requires AllWs(ws)
    ensures Repair(Out, ws + r) == ws + Repair(Out, r)
  {
    if ws == "" {
      assert ws + r == r;
    } else {
      assert (ws + r)[1..] == ws[1..] + r;
      RepairWs(ws[1..], r);
      assert [ws[0]] + ws[1..] == ws;
    }
  }

  lemma {:induction false} RepairAtom(tok: string, r: string)
    requires forall i :: 0 <= i < |tok| ==> IsAtomChar(tok[i])
    ensures Repair(Out, tok + r) == tok + Repair(Out, r)
  {
    if tok == "" {
      assert tok + r == r;
    } else {
      assert (tok + r)[1..] == tok[1..] + r;
      RepairAtom(tok[1..], r);
      assert [tok[0]] + tok[1..] == tok;
    }
  }

  /** Read from state `st`, `b` never leaves the string and ends in state `In`. */
  ghost predicate Inside(st: Lex, b: string)
    decreases |b|
  {
    if b == "" then st == In
    else st != Out && !(st == In && b[0] == '"') && Inside(Step(st, b[0]), b[1..])
  }

  lemma {:induction false} RepairInside(st: Lex, b: string, r: string)
    requires Inside(st, b)
    ensures Repair(st, b + r) == b + Repair(In, r)
    decreases |b|
  {
    if b == "" {
      assert b + r == r;
    } else {
      assert (b + r)[1..] == b[1..] + r;
      RepairInside(Step(st, b[0]), b[1..], r);
      assert [b[0]] + (b[1..] + Repair(In, r)) == b + Repair(In, r);
    }
  }

  lemma {:induction false} BodyIsInside(b: string)
    requires IsBody(b)
    ensures Inside(In, b)
    decreases |b|
  {
    if b != "" {
      var n := UnitLength(b);
      BodyIsInside(b[n..]);
      if n == 2 {
        assert b[1..][1..] == b[2..];
      } else if n == 6 {
        InsideHex(b, 5);
        InsideHex(b, 4);
        InsideHex(b, 3);
        InsideHex(b, 2);
        assert b[1..][1..] == b[2..];
      }
    }
  }

  lemma InsideHex(b: string, i: nat)
    requires i < |b| && IsHex(b[i]) && Inside(In, b[i + 1..])
    ensures Inside(In, b[i..])
  {
    assert b[i..][1..] == b[i + 1..];
  }

  lemma RepairQuoted(b: string, r: string)
    requires IsBody(b)
    ensures Repair(Out, "\"" + (b + ("\"" + r)))
         == "\"" + (b + ("\"" + ((if OpensNext(r) then "," else "") + Repair(Out, r))))
  {
    var q := "\"" + r;
    assert ("\"" + (b + q))[1..] == b + q;
    BodyIsInside(b);
    RepairInside(In, b, q);
    RepairClosingQuote(r);
  }

  lemma RepairClosingQuote(r: string)
    ensures Repair(In, "\"" + r) == "\"" + ((if OpensNext(r) then "," else "") + Repair(Out, r))
  {
    var q := "\"" + r;
    assert q[1..] == r;
    assert Repair(In, q) == (if OpensNext(r) then "\"," else "\"") + Repair(Out, r);
  }

  lemma RepairHead(isObj: bool, h: Head, r: string)
    requires OkHead(isObj, h)
    ensures Repair(Out, TextHead(h, r)) == TextHead(h, Repair(Out, r))
  {
    if isObj {
      var tail := h.afterColon + r;
      var colon := ":" + tail;
      var u := h.beforeColon + colon;
      SkipWsPast(h.beforeColon, colon);
      assert !OpensNext(u);
      RepairQuoted(h.name, u);
      RepairWs(h.beforeColon, colon);
      assert Repair(Out, colon) == ":" + Repair(Out, tail) by { assert colon[1..] == tail; }
      RepairWs(h.afterColon, r);
      assert "" + Repair(Out, u) == Repair(Out, u);
    }
  }

  // ------------------------------------------------------------------ repair over trees

  /** What follows a value after repair: the comma inserted behind it, if any. */
  function Glue(c: Tree, r: string): string {
    (if !c.Atom? && OpensNext(r) then "," else "") + Repair(Out, r)
  }

  lemma {:induction false} RepairDamaged(c0: Tree, c: Tree, r: string)
    requires WellFormed(c0) && DamageOf(c0, c)
    ensures Repair(Out, Text(c, r)) == Text(Mend(c), Glue(c, r))
    decreases c0, 0
  {
    match c
    case Str(b) =>
      RepairQuoted(b, r);
    case Atom(tok) =>
      RepairAtom(tok, r);
      assert "" + Repair(Out, r) == Repair(Out, r);
    case Box(o, lead, xs) =>
      RepairOpening(o, lead, TextItems(o, xs, r));
      RepairDamagedItems(o, c0.items, xs, r);
  }

  lemma RepairOpening(isObj: bool, lead: string, inner: string)
    requires AllWs(lead)
    ensures Repair(Out, Opener(isObj) + (lead + inner)) == Opener(isObj) + (lead + Repair(Out, inner))
  {
    assert (Opener(isObj) + (lead + inner))[1..] == lead + inner;
    RepairWs(lead, inner);
  }

  lemma {:induction false} RepairDamagedItems(isObj: bool, xs0: Items, xs: Items, r: string)
    requires ShapedItems(isObj, xs0) && CommasRightItems(xs0) && DamageOfItems(xs0, xs)
    ensures Repair(Out, TextItems(isObj, xs, r))
         == TextItems(isObj, MendItems(xs), (if OpensNext(r) then "," else "") + Repair(Out, r))
    decreases xs0, 0
  {
    match xs
    case Close =>
      assert (Closer(isObj) + r)[1..] == r;
    case Item(h, v, after, sep, more) =>
      var u1 := after + TextSep(sep, TextItems(isObj, more, r));
      RepairHead(isObj, h, Text(v, u1));
      RepairDamaged(xs0.val, v, u1);
      RepairTail(isObj, xs0, xs, r);
  }

  /** The separator: a comma appears if one is missing, goes if it trails, and stays otherwise. */
  lemma {:induction false} RepairTail(isObj: bool, xs0: Items, xs: Items, r: string)
    requires xs0.Item? && ShapedItems(isObj, xs0) && CommasRightItems(xs0) && DamageOfItems(xs0, xs)
    ensures var m := MendItems(xs);
      Glue(xs.val, xs.after + TextSep(xs.sep, TextItems(isObj, xs.more, r)))
      == m.after + TextSep(m.sep, TextItems(isObj, m.more, (if OpensNext(r) then "," else "") + Repair(Out, r)))
    decreases xs0.more, 1
  {
    var items := TextItems(isObj, xs.more, r);
    var items' := Repair(Out, items);
    DamagedWs(isObj, xs0, xs);
    RepairDamagedItems(isObj, xs0.more, xs.more, r);
    DamagedStart(isObj, xs0.more, xs.more, r);
    match (xs.sep, xs.more)
    case (Comma(pad), Item(_, _, _, _, _)) => CommaKept(xs.val, xs.after, pad, items);
    case (Comma(pad), Close) => CommaTrailing(xs.val, xs.after, pad, items);
    case (Bare, Item(_, _, _, _, _)) => CommaMissing(xs.val, xs.after, items);
    case (Bare, Close) => CommaAbsent(xs.val, xs.after, items);
  }

  lemma CommaKept(c: Tree, after: string, pad: string, items: string)
    requires AllWs(after) && AllWs(pad)
    requires items != "" && !IsWs(items[0]) && !IsCloser(items[0])
    ensures Glue(c, after + ("," + (pad + items))) == after + ("," + (pad + Repair(Out, items)))
  {
    var u := "," + (pad + items);
    QuietGlue(c, after, u);
    assert u[1..] == pad + items;
    SkipWsPast(pad, items);
    RepairWs(pad, items);
  }

  lemma CommaTrailing(c: Tree, after: string, pad: string, items: string)
    requires AllWs(after) && AllWs(pad)
    requires items != "" && IsCloser(items[0])
    ensures Glue(c, after + ("," + (pad + items))) == after + pad + Repair(Out, items)
  {
    var u, items' := "," + (pad + items), Repair(Out, items);
    TrailingStep(pad, items);
    QuietGlue(c, after, u);
    ConcatAssoc(after, pad, items');
  }

  lemma ConcatAssoc(a: string, b: string, c: string)
    ensures a + (b + c) == a + b + c
  {
  }

  /** Past whitespace and a comma nothing is inserted. */
  lemma QuietGlue(c: Tree, after: string, u: string)
    requires AllWs(after) && u != "" && u[0] == ','
    ensures Glue(c, after + u) == after + Repair(Out, u)
  {
    SkipWsPast(after, u);
    RepairWs(after, u);
    assert "" + Repair(Out, after + u) == Repair(Out, after + u);
  }

  lemma TrailingStep(pad: string, items: string)
    requires AllWs(pad) && items != "" && IsCloser(items[0])
    ensures Repair(Out, "," + (pad + items)) == pad + Repair(Out, items)
  {
    var u := "," + (pad + items);
    assert u[1..] == pad + items;
    SkipWsPast(pad, items);
    RepairWs(pad, items);
    assert "" + Repair(Out, pad + items) == Repair(Out, pad + items);
  }

  lemma CommaMissing(c: Tree, after: string, items: string)
    requires AllWs(after) && !c.Atom? && items != "" && IsOpener(items[0])
    ensures Glue(c, after + items) == "," + (after + Repair(Out, items))
  {
    SkipWsPast(after, items);
    RepairWs(after, items);
  }

  lemma CommaAbsent(c: Tree, after: string, items: string)
    requires AllWs(after) && items != "" && IsCloser(items[0])
    ensures Glue(c, after + items) == after + Repair(Out, items)
  {
    SkipWsPast(after, items);
    RepairWs(after, items);
  }

  lemma DamagedWs(isObj: bool, xs0: Items, xs: Items)
    requires xs0.Item? && ShapedItems(isObj, xs0) && DamageOfItems(xs0, xs)
    ensures AllWs(xs.after) && (xs.sep.Comma? ==> AllWs(xs.sep.pad))
  {
    if Trailing(xs0, xs) {
      assert forall i :: 0 <= i < |xs.after| ==> xs.after[i] == xs0.after[i];
      assert forall i :: 0 <= i < |xs.sep.pad| ==> xs.sep.pad[i] == xs0.after[|xs.after| + i];
    }
  }

  lemma DamagedStart(isObj: bool, xs0: Items, xs: Items, r: string)
    requires ShapedItems(isObj, xs0) && DamageOfItems(xs0, xs)
    ensures var t := TextItems(isObj, xs, r);
      && t != "" && SkipWs(t) == t && (xs.Close? <==> IsCloser(t[0]))
      && (StartsOpen(xs0) ==> IsOpener(t[0])) && (xs.Close? ==> !IsOpener(t[0]))
  {
    if xs.Item? {
      var u := Text(xs.val, xs.after + TextSep(xs.sep, TextItems(isObj, xs.more, r)));
      assert xs.val.Atom? ==> IsAtomChar(xs.val.token[0]) && u[0] == xs.val.token[0];
      assert !IsWs(u[0]) && !IsCloser(u[0]);
      if xs.head.Key? {
        assert TextItems(isObj, xs, r)[0] == '"';
      }
    }
  }

  /** Repair is the identity on every well-formed JSON text, whatever its whitespace and escapes. */
  lemma RepairIdentityOnWellFormed(lead: string, c: Tree, trail: string)
    requires AllWs(lead) && AllWs(trail) && WellFormed(c)
    ensures Repair(Out, lead + Text(c, trail)) == lead + Text(c, trail)
  {
    RepairWs(lead, Text(c, trail));
    UndamagedIsDamageOf(c);
    MendUndamaged(c);
    RepairDamaged(c, c, trail);
    assert trail + "" == trail;
    SkipWsPast(trail, "");
    RepairWs(trail, "");
    assert Glue(c, trail) == trail;
  }

  /** Whatever strict parsing accepts, parsing after repair accepts with the same value: running
      the repair only as a fallback loses nothing over running it always. */
  lemma RepairIdentityOnAccepted(t: string)
    requires Loads(t).Some?
    ensures Repair(Out, t) == t
  {
    LoadsIff(t, Loads(t).value);
    var lead, c, trail :| AllWs(lead) && AllWs(trail) && WellFormed(c) && ValueOf(c) == Loads(t).value
                       && t == lead + Text(c, trail);
    RepairIdentityOnWellFormed(lead, c, trail);
  }
}
