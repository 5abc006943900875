/** `_repair_json_typos`: one left-to-right pass that inserts missing commas and drops
    trailing ones, and what that pass preserves for every text at all. */
module JsonRepair {
  import opened JsonLexer

  /** What the pass writes for character `c` met in lexer state `st` with `rest` to its right. */
  function Emit(st: Lex, c: char, rest: string): string {
    if st == Out && c == ',' && ClosesNext(rest) then ""
    else if ((st == In && c == '"') || (st == Out && IsCloser(c))) && OpensNext(rest) then [c, ',']
    else [c]
  }

  function Repair(st: Lex, t: string): string
    decreases |t|
  {
    if t == "" then "" else Emit(st, t[0], t[1..]) + Repair(Step(st, t[0]), t[1..])
  }

  /** The peek loop: the first index at or after `i` that holds no whitespace. */
  method PeekFrom(text: string, i: nat) returns (j: nat)
    requires i <= |text|
    ensures i <= j <= |text|
    ensures OpensNext(text[i..]) <==> j < |text| && IsOpener(text[j])
    ensures ClosesNext(text[i..]) <==> j < |text| && IsCloser(text[j])
  {
    j := i;
    while j < |text| && IsWs(text[j])
      invariant i <= j <= |text|
      invariant forall k :: i <= k < j ==> IsWs(text[k])
    {
      j := j + 1;
    }
    SkipWsFrom(text, i, j);
    assert j < |text| ==> text[j..][0] == text[j];
  }

  lemma RepairAt(st: Lex, text: string, i: nat, before: string)
    requires i < |text|
    ensures before + Repair(st, text[i..])
         == before + Emit(st, text[i], text[i + 1..]) + Repair(Step(st, text[i]), text[i + 1..])
  {
    assert text[i..][0] == text[i] && text[i..][1..] == text[i + 1..];
    var e, tail := Emit(st, text[i], text[i + 1..]), Repair(Step(st, text[i]), text[i + 1..]);
    assert before + (e + tail) == before + e + tail;
  }

  ghost function LexOf(inStr: bool, esc: bool): Lex {
    if esc then Esc else if inStr then In else Out
  }

  /** The scanner as written: a cursor, two flags and an output buffer. */
  method RepairJsonTypos(text: string) returns (out: string)
    ensures out == Repair(Out, text)
  {
    out := "";
    var n := |text|;
    var i := 0;
    var inStr, esc := false, false;
    assert text[0..] == text;
    while i < n
      invariant 0 <= i <= n == |text|
      invariant esc ==> inStr
      invariant out + Repair(LexOf(inStr, esc), text[i..]) == Repair(Out, text)
    {
      var ch := text[i];
      ghost var st := LexOf(inStr, esc);
      var piece := [ch];
      if esc {
        esc := false;
      } else if inStr {
        if ch == '\\' {
          esc := true;
        } else if ch == '"' {
          inStr := false;
          var j := PeekFrom(text, i + 1);
          if j < n && IsOpener(text[j]) {
            piece := [ch, ','];
          }
        }
      } else if ch == '"' {
        inStr := true;
      } else if ch == ',' {
        var j := PeekFrom(text, i + 1);
        if j < n && IsCloser(text[j]) {
          piece := [];
        }
      } else if IsCloser(ch) {
        var j := PeekFrom(text, i + 1);
        if j < n && IsOpener(text[j]) {
          piece := [ch, ','];
        }
      }
      assert piece == Emit(st, ch, text[i + 1..]) && LexOf(inStr, esc) == Step(st, ch);
      RepairAt(st, text, i, out);
      out := out + piece;
      i := i + 1;
    }
    assert text[i..] == "";
  }

  // ------------------------------------------------------------------ only commas move

  /** The text without its out-of-string commas, each character tagged with the lexer state
      it is met in. */
  function Skeleton(st: Lex, t: string): seq<(char, Lex)>
    decreases |t|
  {
    if t == "" then []
    else if st == Out && t[0] == ',' then Skeleton(Out, t[1..])
    else [(t[0], st)] + Skeleton(Step(st, t[0]), t[1..])
  }

  function FinalLex(st: Lex, t: string): Lex
    decreases |t|
  {
    if t == "" then st else FinalLex(Step(st, t[0]), t[1..])
  }

  /** Repair touches nothing but commas outside strings, in any text whatever: both texts have
      the same skeleton, tags included, and leave the lexer in the same state. */
  lemma {:induction false} RepairMovesOnlyCommas(st: Lex, t: string)
    ensures Skeleton(st, Repair(st, t)) == Skeleton(st, t)
    ensures FinalLex(st, Repair(st, t)) == FinalLex(st, t)
    decreases |t|
  {
    if t != "" {
      var e, st' := Emit(st, t[0], t[1..]), Step(st, t[0]);
      var tail := Repair(st', t[1..]);
      RepairMovesOnlyCommas(st', t[1..]);
      if e == "" {
        assert e + tail == tail;
      } else {
        assert (e + tail)[0] == t[0];
        if |e| == 2 {
          assert (e + tail)[1..] == [','] + tail;
          assert ([','] + tail)[1..] == tail;
        } else {
          assert (e + tail)[1..] == tail;
        }
      }
    }
  }

  // ------------------------------------------------------------------ fixpoints

  /** Some character of `t` is one the pass would act on. */
  predicate HasFault(st: Lex, t: string)
    decreases |t|
  {
    t != "" && (Emit(st, t[0], t[1..]) != [t[0]] || HasFault(Step(st, t[0]), t[1..]))
  }

  /** The texts repair leaves alone are exactly those with no trailing comma before a closer
      and no string or closer directly followed by an opener. */
  lemma {:induction false} RepairFixpoints(st: Lex, t: string)
    ensures Repair(st, t) == t <==> !HasFault(st, t)
    decreases |t|
  {
    if t != "" {
      var c, rest := t[0], t[1..];
      var e, tail := Emit(st, c, rest), Repair(Step(st, c), rest);
      RepairFixpoints(Step(st, c), rest);
      assert t == [c] + rest;
      if e == [c] {
        assert (e + tail)[1..] == tail;
      } else if e == "" {
        RepairStartsWith(rest);
        assert e + tail == tail;
        assert tail != "" && tail[0] != ',';
      } else {
        assert (e + tail)[1] == ',';
        assert rest != "" && rest[0] != ',';
        assert t[1] == rest[0];
      }
    }
  }

  /** Outside strings, a text whose next visible character is not a comma keeps its whitespace
      and that character at the front. */
  lemma {:induction false} RepairStartsWith(t: string)
    requires t != "" && t[0] != ','
    ensures Repair(Out, t) != "" && Repair(Out, t)[0] == t[0]
  {
  }

  // ------------------------------------------------------------------ idempotence

  /** Some out-of-string comma is followed by a second comma that is itself a trailing one. */
  predicate HasDoubledTrailing(st: Lex, t: string)
    decreases |t|
  {
    t != "" &&
    ((st == Out && t[0] == ',' && CommaNext(t[1..]) && ClosesNext(SkipWs(t[1..])[1..]))
     || HasDoubledTrailing(Step(st, t[0]), t[1..]))
  }

  lemma {:induction false} SkipWsRepair(t: string)
    ensures SkipWs(Repair(Out, t)) == SkipWs(Repair(Out, SkipWs(t)))
  {
    if t != "" && IsWs(t[0]) {
      var tail := Repair(Out, t[1..]);
      SkipWsRepair(t[1..]);
      assert Repair(Out, t) == [t[0]] + tail;
      assert ([t[0]] + tail)[1..] == tail;
    }
  }

  /** What the repaired text shows next, whitespace aside. */
  lemma PeekAfterRepair(t: string)
    ensures OpensNext(Repair(Out, t)) <==> OpensNext(t)
    ensures ClosesNext(Repair(Out, t))
       <==> ClosesNext(t) || (CommaNext(t) && ClosesNext(SkipWs(t)[1..]))
  {
    var u := SkipWs(t);
    SkipWsRepair(t);
    if u != "" {
      var e, tail := Emit(Out, u[0], u[1..]), Repair(Step(Out, u[0]), u[1..]);
      assert Repair(Out, u) == e + tail;
      if e == "" {
        DroppedBeforeCloser(u[1..]);
        assert e + tail == tail;
      } else {
        assert SkipWs(e + tail) == e + tail && (e + tail)[0] == u[0];
      }
    }
  }

  lemma DroppedBeforeCloser(t: string)
    requires ClosesNext(t)
    ensures ClosesNext(Repair(Out, t)) && !OpensNext(Repair(Out, t))
  {
    var u := SkipWs(t);
    SkipWsRepair(t);
    RepairStartsWith(u);
  }

  /** A second pass changes something exactly when the first met a doubled trailing comma. */
  lemma {:induction false} FaultAfterRepair(st: Lex, t: string)
    ensures HasFault(st, Repair(st, t)) <==> HasDoubledTrailing(st, t)
    decreases |t|
  {
    if t != "" {
      var c, rest := t[0], t[1..];
      var tail := Repair(Step(st, c), rest);
      FaultAfterRepair(Step(st, c), rest);
      PeekAfterRepair(rest);
      FaultAfterEmit(st, c, rest, tail);
    }
  }

  lemma FaultAfterEmit(st: Lex, c: char, rest: string, tail: string)
    requires Step(st, c) == Out ==> (OpensNext(tail) <==> OpensNext(rest))
    requires Step(st, c) == Out ==>
      (ClosesNext(tail) <==> ClosesNext(rest) || (CommaNext(rest) && ClosesNext(SkipWs(rest)[1..])))
    ensures HasFault(st, Emit(st, c, rest) + tail) <==>
      (st == Out && c == ',' && CommaNext(rest) && ClosesNext(SkipWs(rest)[1..])) || HasFault(Step(st, c), tail)
  {
    var e := Emit(st, c, rest);
    var u := e + tail;
    if e == "" {
      assert u == tail;
    } else if e == [c] {
      assert u[0] == c && u[1..] == tail;
    } else {
      var v := [','] + tail;
      assert u[0] == c && u[1..] == v && v[1..] == tail;
      assert SkipWs(v) == v;
    }
  }

  /** Repair is idempotent on a text if and only if the text has no doubled trailing comma. */
  lemma RepairIdempotentIff(t: string)
    ensures Repair(Out, Repair(Out, t)) == Repair(Out, t) <==> !HasDoubledTrailing(Out, t)
  {
    FaultAfterRepair(Out, t);
    RepairFixpoints(Out, Repair(Out, t));
  }

  /** The concrete family on which one pass is not enough: `,,` before a closer loses one
      comma per pass. */
  lemma RepairNotIdempotent(closer: char)
    requires IsCloser(closer)
    ensures Repair(Out, Repair(Out, [',', ',', closer])) != Repair(Out, [',', ',', closer])
  {
    var t := [',', ',', closer];
    var rest := t[1..];
    assert SkipWs(rest) == rest && rest[1..] == [closer];
    assert SkipWs([closer]) == [closer];
    RepairIdempotentIff(t);
  }

  /** In particular no out-of-string comma followed by another comma suffices. */
  predicate HasCommaRun(st: Lex, t: string)
    decreases |t|
  {
    t != "" && ((st == Out && t[0] == ',' && CommaNext(t[1..])) || HasCommaRun(Step(st, t[0]), t[1..]))
  }

  lemma {:induction false} RepairIdempotentWithoutCommaRuns(st: Lex, t: string)
    requires !HasCommaRun(st, t)
    ensures !HasDoubledTrailing(st, t)
    ensures st == Out ==> Repair(Out, Repair(Out, t)) == Repair(Out, t)
    decreases |t|
  {
    if t != "" {
      RepairIdempotentWithoutCommaRuns(Step(st, t[0]), t[1..]);
    }
    RepairIdempotentIff(t);
  }
}
