/** The character-level view of JSON text shared by the repairer and the extractor:
    where string literals begin and end, and what the next visible character is. */
module JsonLexer {

  /** `Out` is `in_str = False`; `In` is `in_str = True, esc = False`; `Esc` is the state
      just after a backslash inside a string. */
  datatype Lex = Out | In | Esc

  function Step(st: Lex, c: char): Lex {
    match st
    case Esc => In
    case In => if c == '\\' then Esc else if c == '"' then Out else In
    case Out => if c == '"' then In else Out
  }

  /** Whitespace of RFC 8259 section 2, which is also the set the repairer skips over. */
  predicate IsWs(c: char) {
    c == ' ' || c == '\t' || c == '\n' || c == '\r'
  }

  predicate IsOpener(c: char) {
    c == '"' || c == '{' || c == '['
  }

  predicate IsCloser(c: char) {
    c == '}' || c == ']'
  }

  ghost predicate AllWs(s: string) {
    forall i :: 0 <= i < |s| ==> IsWs(s[i])
  }

  /** The text with its leading whitespace removed. */
  function SkipWs(t: string): (r: string)
    ensures |r| <= |t|
    ensures r != "" ==> !IsWs(r[0])
  {
    if t != "" && IsWs(t[0]) then SkipWs(t[1..]) else t
  }

  /** The next visible character starts a string, an object or an array. */
  predicate OpensNext(t: string) {
    SkipWs(t) != "" && IsOpener(SkipWs(t)[0])
  }

  /** The next visible character closes an object or an array. */
  predicate ClosesNext(t: string) {
    SkipWs(t) != "" && IsCloser(SkipWs(t)[0])
  }

  /** The next visible character is a comma. */
  predicate CommaNext(t: string) {
    SkipWs(t) != "" && SkipWs(t)[0] == ','
  }

  lemma {:induction false} SkipWsPast(ws: string, t: string)
    requires AllWs(ws)
    ensures SkipWs(ws + t) == SkipWs(t)
  {
    if ws == "" {
      assert ws + t == t;
    } else {
      assert (ws + t)[1..] == ws[1..] + t;
      SkipWsPast(ws[1..], t);
    }
  }

  lemma {:induction false} SkipWsFrom(t: string, i: nat, j: nat)
    requires i <= j <= |t|
    requires forall k :: i <= k < j ==> IsWs(t[k])
    ensures SkipWs(t[i..]) == SkipWs(t[j..])
  {
    assert t[i..] == t[i..j] + t[j..];
    SkipWsPast(t[i..j], t[j..]);
  }
}
