/** JSON texts (RFC 8259 sections 2, 4, 5 and 7) as concrete syntax trees that keep every
    whitespace run, their values, and the strict parser that stands for `json.loads`. */
module JsonGrammar {
  import opened JsonLexer
  import opened Wrappers

  /** Decoded shape of a JSON text. String bodies and literals keep their spelling; members keep
      their order and repetitions, from which the Python dict is a function. */
  datatype Json =
    | JString(raw: string)
    | JLiteral(token: string)
    | JArray(elems: seq<Json>)
    | JObject(members: seq<(string, Json)>)

  /** A value as spelled: `Box` is an object or an array, `lead` the whitespace after its opener. */
  datatype Tree =
    | Str(body: string)
    | Atom(token: string)
    | Box(isObj: bool, lead: string, items: Items)

  /** The inside of a container up to and including its closer. In well-formed text an item is
      followed by a comma exactly when another item follows; the two other combinations are the
      missing and the trailing comma. */
  datatype Items =
    | Close
    | Item(head: Head, val: Tree, after: string, sep: Sep, more: Items)

  datatype Head = NoKey | Key(name: string, beforeColon: string, afterColon: string)

  datatype Sep = Bare | Comma(pad: string)

  // ------------------------------------------------------------------ tokens

  predicate IsHex(c: char) {
    '0' <= c <= '9' || 'a' <= c <= 'f' || 'A' <= c <= 'F'
  }

  /** Length of the string character or escape sequence at the front of `t`, 0 if there is none.
      Control characters are refused, as `json.loads` does by default. */
  function UnitLength(t: string): (n: nat)
    ensures n <= |t|
  {
    if t == "" || t[0] == '"' || t[0] < ' ' then 0
    else if t[0] != '\\' then 1
    else if |t| >= 2 && t[1] in "\"\\/bfnrt" then 2
    else if |t| >= 6 && t[1] == 'u' && IsHex(t[2]) && IsHex(t[3]) && IsHex(t[4]) && IsHex(t[5]) then 6
    else 0
  }

  /** The characters RFC 8259 section 7 allows between two quotes. */
  predicate IsBody(b: string)
    decreases |b|
  {
    b == "" || (UnitLength(b) > 0 && IsBody(b[UnitLength(b)..]))
  }

  lemma BodySpelling(t: string, n: nat, b: string, rest: string)
    requires t != "" && n == UnitLength(t) > 0 && IsBody(b) && t[n..] == b + "\"" + rest
    ensures IsBody(t[..n] + b) && t == t[..n] + b + "\"" + rest
  {
    assert t == t[..n] + t[n..] == (t[..n] + b) + ("\"" + rest);
    UnitLengthPrefix(t[..n] + b, "\"" + rest);
    assert (t[..n] + b)[n..] == b;
  }

  function TakeBody(t: string): (r: Option<(string, string)>)
    ensures r.Some? ==> IsBody(r.value.0) && t == r.value.0 + "\"" + r.value.1
    decreases |t|
  {
    if t == "" then None
    else if t[0] == '"' then
      assert t == "" + "\"" + t[1..];
      Some(("", t[1..]))
    else
      var n := UnitLength(t);
      if n == 0 then None
      else match TakeBody(t[n..])
        case None => None
        case Some((b, rest)) =>
          BodySpelling(t, n, b, rest);
          Some((t[..n] + b, rest))
  }

  /** A unit is recognised whatever follows it. */
  lemma UnitLengthPrefix(b: string, r: string)
    requires 0 < UnitLength(b) || (b != "" && 0 < UnitLength(b + r) <= |b|)
    ensures UnitLength(b + r) == UnitLength(b)
  {
    assert forall i :: 0 <= i < |b| ==> (b + r)[i] == b[i];
  }

  lemma {:induction false} TakeBodyOf(b: string, r: string)
    requires IsBody(b)
    ensures TakeBody(b + "\"" + r) == Some((b, r))
    decreases |b|
  {
    var t := b + "\"" + r;
    if b == "" {
      assert t[0] == '"' && t[1..] == r;
    } else {
      var n := UnitLength(b);
      assert t == b + ("\"" + r);
      UnitLengthPrefix(b, "\"" + r);
      assert t[n..] == b[n..] + "\"" + r;
      TakeBodyOf(b[n..], r);
      assert t[..n] == b[..n] && b[..n] + b[n..] == b;
      assert t[0] != '"';
    }
  }

  predicate IsAtomChar(c: char) {
    !IsWs(c) && !IsOpener(c) && !IsCloser(c) && c != ',' && c != ':'
  }

  predicate IsDigit(c: char) {
    '0' <= c <= '9'
  }

  function SkipDigits(t: string): string {
    if t != "" && IsDigit(t[0]) then SkipDigits(t[1..]) else t
  }

  /** The number grammar of RFC 8259 section 6. */
  predicate IsNumber(t: string) {
    var u := if t != "" && t[0] == '-' then t[1..] else t;
    && u != "" && IsDigit(u[0])
    && var f := if u[0] == '0' then u[1..] else SkipDigits(u);
    && (f == "" || f[0] != '.' || (|f| >= 2 && IsDigit(f[1])))
    && var e := if f != "" && f[0] == '.' then SkipDigits(f[1..]) else f;
    && (e == "" || (e[0] in "eE" && IsExponent(e[1..])))
  }

  predicate IsExponent(t: string) {
    var d := if t != "" && t[0] in "+-" then t[1..] else t;
    d != "" && SkipDigits(d) == ""
  }

  /** The literals of RFC 8259 section 3 and the three constants Python adds. */
  predicate IsLiteral(t: string) {
    && t != "" && (forall i :: 0 <= i < |t| ==> IsAtomChar(t[i]))
    && (t in {"true", "false", "null", "NaN", "Infinity", "-Infinity"} || IsNumber(t))
  }

  /** The longest run of literal characters at the front of `t`, and what follows. */
  function TakeAtom(t: string): (r: (string, string))
    ensures r.0 + r.1 == t
  {
    if t != "" && IsAtomChar(t[0]) then
      var (tok, rest) := TakeAtom(t[1..]);
      ([t[0]] + tok, rest)
    else ("", t)
  }

  predicate EndsAtom(r: string) {
    r == "" || !IsAtomChar(r[0])
  }

  lemma {:induction false} TakeAtomOf(tok: string, r: string)
    requires forall i :: 0 <= i < |tok| ==> IsAtomChar(tok[i])
    requires EndsAtom(r)
    ensures TakeAtom(tok + r) == (tok, r)
  {
    if tok == "" {
      assert tok + r == r;
    } else {
      assert (tok + r)[1..] == tok[1..] + r;
      TakeAtomOf(tok[1..], r);
      assert [tok[0]] + tok[1..] == tok;
    }
  }

  function TakeWs(t: string): (r: (string, string))
    ensures r.0 + r.1 == t && AllWs(r.0)
    ensures r.1 == "" || !IsWs(r.1[0])
  {
    if t != "" && IsWs(t[0]) then
      var (ws, rest) := TakeWs(t[1..]);
      ([t[0]] + ws, rest)
    else ("", t)
  }

  lemma {:induction false} TakeWsOf(ws: string, r: string)
    requires AllWs(ws) && (r == "" || !IsWs(r[0]))
    ensures TakeWs(ws + r) == (ws, r)
  {
    if ws == "" {
      assert ws + r == r;
    } else {
      assert (ws + r)[1..] == ws[1..] + r;
      TakeWsOf(ws[1..], r);
      assert [ws[0]] + ws[1..] == ws;
    }
  }

  // ------------------------------------------------------------------ printing

  function Closer(isObj: bool): string {
    if isObj then "}" else "]"
  }

  function Opener(isObj: bool): string {
    if isObj then "{" else "["
  }

  /** The spelling of `c`, followed by `r`. */
  function Text(c: Tree, r: string): string
    decreases c
  {
    match c
    case Str(b) => "\"" + (b + ("\"" + r))
    case Atom(tok) => tok + r
    case Box(o, lead, xs) => Opener(o) + (lead + TextItems(o, xs, r))
  }

  function TextItems(isObj: bool, xs: Items, r: string): string
    decreases xs
  {
    match xs
    case Close => Closer(isObj) + r
    case Item(h, v, after, sep, more) =>
      TextHead(h, Text(v, after + TextSep(sep, TextItems(isObj, more, r))))
  }

  function TextHead(h: Head, r: string): string {
    match h
    case NoKey => r
    case Key(k, w1, w2) => "\"" + (k + ("\"" + (w1 + (":" + (w2 + r)))))
  }

  function TextSep(s: Sep, r: string): string {
    match s
    case Bare => r
    case Comma(w) => "," + (w + r)
  }

  // ------------------------------------------------------------------ well-formedness

  ghost predicate OkHead(isObj: bool, h: Head) {
    && (isObj <==> h.Key?)
    && (h.Key? ==> IsBody(h.name) && AllWs(h.beforeColon) && AllWs(h.afterColon))
  }

  /** Tokens are valid and whitespace is whitespace; separators are unconstrained. */
  ghost predicate Shaped(c: Tree)
    decreases c
  {
    match c
    case Str(b) => IsBody(b)
    case Atom(tok) => IsLiteral(tok)
    case Box(o, lead, xs) => AllWs(lead) && ShapedItems(o, xs)
  }

  ghost predicate ShapedItems(isObj: bool, xs: Items)
    decreases xs
  {
    match xs
    case Close => true
    case Item(h, v, after, sep, more) =>
      && OkHead(isObj, h) && Shaped(v) && AllWs(after)
      && (sep.Comma? ==> AllWs(sep.pad)) && ShapedItems(isObj, more)
  }

  /** Every comma is where the grammar puts it. */
  ghost predicate CommasRight(c: Tree) {
    c.Box? ==> CommasRightItems(c.items)
  }

  ghost predicate CommasRightItems(xs: Items) {
    xs.Item? ==> CommasRight(xs.val) && (xs.sep.Comma? <==> xs.more.Item?) && CommasRightItems(xs.more)
  }

  ghost predicate WellFormed(c: Tree) {
    Shaped(c) && CommasRight(c)
  }

  function ValueOf(c: Tree): Json {
    match c
    case Str(b) => JString(b)
    case Atom(tok) => JLiteral(tok)
    case Box(o, _, xs) => if o then JObject(Members(xs)) else JArray(Elems(xs))
  }

  function Members(xs: Items): seq<(string, Json)> {
    match xs
    case Close => []
    case Item(h, v, _, _, more) => [(if h.Key? then h.name else "", ValueOf(v))] + Members(more)
  }

  function Elems(xs: Items): seq<Json> {
    match xs
    case Close => []
    case Item(_, v, _, _, more) => [ValueOf(v)] + Elems(more)
  }

  // ------------------------------------------------------------------ the strict parser

  /** Parses one value at the front of `t`; returns its tree and the text after it. */
  function ParseValue(t: string): (r: Option<(Tree, string)>)
    ensures r.Some? ==> WellFormed(r.value.0) && Text(r.value.0, r.value.1) == t && |r.value.1| < |t|
    decreases |t|, 0
  {
    if t == "" then None
    else if t[0] == '"' then
      match TakeBody(t[1..])
      case None => None
      case Some((b, rest)) =>
        assert t == "\"" + (b + ("\"" + rest));
        Some((Str(b), rest))
    else if t[0] == '{' || t[0] == '[' then
      var o := t[0] == '{';
      var (lead, inner) := TakeWs(t[1..]);
      match ParseItems(o, true, inner)
      case None => None
      case Some((xs, rest)) =>
        assert t == Opener(o) + (lead + inner);
        Some((Box(o, lead, xs), rest))
    else
      var (tok, rest) := TakeAtom(t);
      if IsLiteral(tok) then Some((Atom(tok), rest)) else None
  }

  /** Parses items and the closer; `mayClose` is false right after a comma. */
  function ParseItems(isObj: bool, mayClose: bool, t: string): (r: Option<(Items, string)>)
    ensures r.Some? ==>
      && ShapedItems(isObj, r.value.0) && CommasRightItems(r.value.0)
      && TextItems(isObj, r.value.0, r.value.1) == t && |r.value.1| < |t|
      && (mayClose || r.value.0.Item?)
    decreases |t|, 1
  {
    if t == "" then None
    else if mayClose && t[0] == Closer(isObj)[0] then
      assert t == Closer(isObj) + t[1..];
      Some((Close, t[1..]))
    else match ParseHead(isObj, t)
      case None => None
      case Some((h, u)) =>
        match ParseValue(u)
        case None => None
        case Some((v, u1)) =>
          match ParseTail(isObj, u1)
          case None => None
          case Some((after, sep, more, rest)) => Some((Item(h, v, after, sep, more), rest))
  }

  ghost predicate TailSpells(isObj: bool, t: string, after: string, sep: Sep, more: Items, rest: string) {
    && AllWs(after) && (sep.Comma? ==> AllWs(sep.pad)) && (sep.Comma? <==> more.Item?)
    && ShapedItems(isObj, more) && CommasRightItems(more)
    && after + TextSep(sep, TextItems(isObj, more, rest)) == t && |rest| < |t|
  }

  lemma CloserSpelling(isObj: bool, u: string)
    requires u != "" && u[0] == Closer(isObj)[0]
    ensures u == TextItems(isObj, Close, u[1..])
  {
  }

  lemma CommaSpelling(u: string, pad: string, u3: string)
    requires u != "" && u[0] == ',' && pad + u3 == u[1..]
    ensures u == TextSep(Comma(pad), u3) && |u3| < |u|
  {
  }

  /** Parses what follows a value inside a container. */
  function ParseTail(isObj: bool, t: string): (r: Option<(string, Sep, Items, string)>)
    ensures r.Some? ==> TailSpells(isObj, t, r.value.0, r.value.1, r.value.2, r.value.3)
    decreases |t|, 2
  {
    var (after, u) := TakeWs(t);
    if u == "" then None
    else if u[0] == Closer(isObj)[0] then
      CloserSpelling(isObj, u);
      Some((after, Bare, Close, u[1..]))
    else if u[0] == ',' then
      var (pad, u3) := TakeWs(u[1..]);
      match ParseItems(isObj, false, u3)
      case None => None
      case Some((more, rest)) =>
        CommaSpelling(u, pad, u3);
        Some((after, Comma(pad), more, rest))
    else None
  }

  lemma HeadSpelling(t: string, k: string, u: string, w1: string, u1: string, w2: string, u2: string)
    requires t != "" && t[0] == '"' && t[1..] == k + "\"" + u
    requires u == w1 + u1 && u1 != "" && u1[0] == ':' && u1[1..] == w2 + u2
    ensures t == TextHead(Key(k, w1, w2), u2) && |u2| <= |t|
  {
    assert u1 == ":" + (w2 + u2);
    assert t == "\"" + t[1..];
    assert t == "\"" + (k + ("\"" + u));
  }

  function ParseHead(isObj: bool, t: string): (r: Option<(Head, string)>)
    ensures r.Some? ==> OkHead(isObj, r.value.0) && TextHead(r.value.0, r.value.1) == t && |r.value.1| <= |t|
  {
    if !isObj then Some((NoKey, t))
    else if t == "" || t[0] != '"' then None
    else match TakeBody(t[1..])
      case None => None
      case Some((k, u)) =>
        var (w1, u1) := TakeWs(u);
        if u1 == "" || u1[0] != ':' then None
        else
          var (w2, u2) := TakeWs(u1[1..]);
          HeadSpelling(t, k, u, w1, u1, w2, u2);
          Some((Key(k, w1, w2), u2))
  }

  // ------------------------------------------------------------------ parser completeness

  predicate Follows(c: Tree, r: string) {
    c.Atom? ==> EndsAtom(r)
  }

  lemma TextHeadStart(isObj: bool, h: Head, r: string)
    requires OkHead(isObj, h)
    requires r != "" && !IsWs(r[0]) && !IsCloser(r[0]) && r[0] != ','
    ensures TextHead(h, r) != ""
    ensures var c := TextHead(h, r)[0]; !IsWs(c) && !IsCloser(c) && c != ','
  {
  }

  lemma TextStart(c: Tree, r: string)
    requires Shaped(c)
    ensures Text(c, r) != ""
    ensures var x := Text(c, r)[0]; !IsWs(x) && !IsCloser(x) && x != ',' && x != ':'
    ensures IsOpener(Text(c, r)[0]) <==> !c.Atom?
  {
  }

  lemma TextItemsStart(isObj: bool, xs: Items, r: string)
    requires ShapedItems(isObj, xs)
    ensures TextItems(isObj, xs, r) != "" && !IsWs(TextItems(isObj, xs, r)[0])
    ensures TextItems(isObj, xs, r)[0] != ',' && TextItems(isObj, xs, r)[0] != ':'
    ensures xs.Close? <==> IsCloser(TextItems(isObj, xs, r)[0])
  {
    if xs.Item? {
      var tail := xs.after + TextSep(xs.sep, TextItems(isObj, xs.more, r));
      TextStart(xs.val, tail);
      TextHeadStart(isObj, xs.head, Text(xs.val, tail));
    }
  }

  lemma ParseHeadOf(isObj: bool, h: Head, r: string)
    requires OkHead(isObj, h)
    requires r != "" && !IsWs(r[0])
    ensures ParseHead(isObj, TextHead(h, r)) == Some((h, r))
  {
    if isObj {
      var u2 := h.afterColon + r;
      var u := h.beforeColon + (":" + u2);
      assert TextHead(h, r)[1..] == h.name + "\"" + u;
      TakeBodyOf(h.name, u);
      TakeWsOf(h.beforeColon, ":" + u2);
      TakeWsOf(h.afterColon, r);
      assert (":" + u2)[1..] == u2;
    }
  }

  /** Every well-formed tree is what the parser reads off its own spelling, whatever follows. */
  lemma {:induction false} ParseValueOf(c: Tree, r: string)
    requires WellFormed(c) && Follows(c, r)
    ensures ParseValue(Text(c, r)) == Some((c, r))
    decreases c, 0
  {
    var t := Text(c, r);
    match c
    case Str(b) =>
      assert t[1..] == b + "\"" + r;
      TakeBodyOf(b, r);
    case Atom(tok) =>
      TakeAtomOf(tok, r);
      assert t[0] == tok[0];
    case Box(o, lead, xs) =>
      assert t[1..] == lead + TextItems(o, xs, r);
      TextItemsStart(o, xs, r);
      TakeWsOf(lead, TextItems(o, xs, r));
      ParseItemsOf(o, true, xs, r);
  }

  lemma {:induction false} ParseItemsOf(isObj: bool, mayClose: bool, xs: Items, r: string)
    requires ShapedItems(isObj, xs) && CommasRightItems(xs)
    requires mayClose || xs.Item?
    ensures ParseItems(isObj, mayClose, TextItems(isObj, xs, r)) == Some((xs, r))
    decreases xs, 0
  {
    var t := TextItems(isObj, xs, r);
    TextItemsStart(isObj, xs, r);
    match xs
    case Close =>
      assert t[1..] == r;
    case Item(h, v, after, sep, more) =>
      var u1 := after + TextSep(sep, TextItems(isObj, more, r));
      TextStart(v, u1);
      ParseHeadOf(isObj, h, Text(v, u1));
      AfterValue(isObj, after, sep, more, r);
      ParseValueOf(v, u1);
      ParseTailOf(isObj, after, sep, more, r);
  }

  lemma AfterValue(isObj: bool, after: string, sep: Sep, more: Items, r: string)
    requires AllWs(after) && ShapedItems(isObj, more) && (sep.Comma? <==> more.Item?)
    ensures EndsAtom(after + TextSep(sep, TextItems(isObj, more, r)))
  {
    var u2 := TextSep(sep, TextItems(isObj, more, r));
    assert u2 != "" && !IsAtomChar(u2[0]);
    assert after != "" ==> (after + u2)[0] == after[0];
    assert after == "" ==> after + u2 == u2;
  }

  lemma {:induction false} ParseTailOf(isObj: bool, after: string, sep: Sep, more: Items, r: string)
    requires AllWs(after) && (sep.Comma? ==> AllWs(sep.pad)) && (sep.Comma? <==> more.Item?)
    requires ShapedItems(isObj, more) && CommasRightItems(more)
    ensures ParseTail(isObj, after + TextSep(sep, TextItems(isObj, more, r))) == Some((after, sep, more, r))
    decreases more, 1
  {
    var items := TextItems(isObj, more, r);
    var u2 := TextSep(sep, items);
    TakeWsOf(after, u2);
    if sep.Comma? {
      assert u2[1..] == sep.pad + items;
      TextItemsStart(isObj, more, r);
      TakeWsOf(sep.pad, items);
      ParseItemsOf(isObj, false, more, r);
    } else {
      assert u2 == Closer(isObj) + r && u2[1..] == r;
    }
  }

  /** `json.loads`: one value with whitespace around it and nothing else. */
  function Loads(t: string): Option<Json> {
    match ParseValue(SkipWs(t))
    case None => None
    case Some((c, rest)) => if SkipWs(rest) == "" then Some(ValueOf(c)) else None
  }

  /** Strict parsing accepts exactly the spellings of well-formed trees, and yields their value. */
  lemma LoadsIff(t: string, v: Json)
    ensures Loads(t) == Some(v) <==>
      exists lead, c, trail :: AllWs(lead) && AllWs(trail) && WellFormed(c) && ValueOf(c) == v
                            && t == lead + Text(c, trail)
  {
    if Loads(t) == Some(v) {
      var (lead, u) := TakeWs(t);
      SkipWsPast(lead, u);
      var Some((c, rest)) := ParseValue(SkipWs(t));
      var (trail, e) := TakeWs(rest);
      SkipWsPast(trail, e);
      assert u == SkipWs(t);
      assert rest == trail;
      assert t == lead + Text(c, trail);
    }
    if lead, c, trail :| AllWs(lead) && AllWs(trail) && WellFormed(c) && ValueOf(c) == v
                            && t == lead + Text(c, trail) {
      LoadsOf(lead, c, trail);
    }
  }

  lemma LoadsOf(lead: string, c: Tree, trail: string)
    requires AllWs(lead) && AllWs(trail) && WellFormed(c)
    ensures Loads(lead + Text(c, trail)) == Some(ValueOf(c))
  {
    TextStart(c, trail);
    SkipWsPast(lead, Text(c, trail));
    ParseValueOf(c, trail);
    SkipWsPast(trail, "");
    assert trail + "" == trail;
  }
}
