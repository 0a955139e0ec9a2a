/** Reading a compiled statement back the way the database does: split the
    text into words, recognise each `column op $n` conjunct and look `$n` up
    in the bound values. Decoding a compiled WHERE fragment yields exactly
    the conjuncts the filter asked for, each with the value it was bound to. */
module ReadBack {
  import opened Wrappers
  import opened JsValues
  import opened Text
  import opened QueryBuilder

  /** The three words of one rendered conjunct. */
  function TermTokens(t: Term, n: nat): seq<string> {
    [t.column, OpToken(t.op), Placeholder(n)]
  }

  lemma RenderTermIsJoin(t: Term, n: nat)
    ensures RenderTerm(t, n) == Join(TermTokens(t, n), " ")
  {
    var toks := TermTokens(t, n);
    assert toks[1..][1..] == [Placeholder(n)];
    assert Join(toks[1..], " ") == OpToken(t.op) + " " + Placeholder(n);
  }

  /** The words of `t0 AND t1 AND ...`, placeholders numbered from `n`. */
  function ConjTokens(ts: seq<Term>, n: nat): (toks: seq<string>)
    requires |ts| > 0
    ensures |toks| == 4 * |ts| - 1
    ensures toks[..3] == TermTokens(ts[0], n)
    decreases |ts|
  {
    if |ts| == 1 then TermTokens(ts[0], n)
    else TermTokens(ts[0], n) + ["AND"] + ConjTokens(ts[1..], n + 1)
  }

  function ParseOp(tok: string): Option<Op> {
    if tok == ">=" then Some(Ge)
    else if tok == "<=" then Some(Le)
    else if tok == "=" then Some(Eq)
    else None
  }

  /** The number of a `$n` word. */
  function ParsePlaceholder(tok: string): Option<nat> {
    if |tok| > 0 && tok[0] == '$' then ParseNat(tok[1..]) else None
  }

  /** The value the database binds to `$n` when the value list starts at
      placeholder number `base`. */
  function Bound(values: seq<Val>, base: nat, n: nat): Option<Val> {
    if base <= n < base + |values| then Some(values[n - base]) else None
  }

  /** One conjunct read back from its three words. */
  function DecodeTerm(column: string, opTok: string, phTok: string, values: seq<Val>, base: nat): Option<Term> {
    match (ParseOp(opTok), ParsePlaceholder(phTok))
    case (Some(op), Some(n)) =>
      (match Bound(values, base, n)
       case Some(v) => Some(Term(column, op, v))
       case None => None)
    case _ => None
  }

  /** Conjuncts separated by the word `AND`. */
  function DecodeConj(toks: seq<string>, values: seq<Val>, base: nat): Option<seq<Term>>
    decreases |toks|
  {
    if |toks| < 3 then None
    else
      match DecodeTerm(toks[0], toks[1], toks[2], values, base)
      case None => None
      case Some(t) =>
        if |toks| == 3 then Some([t])
        else if toks[3] == "AND" then
          match DecodeConj(toks[4..], values, base)
          case Some(rest) => Some([t] + rest)
          case None => None
        else None
  }

  /** A WHERE fragment read back: the empty clause is no conjunct at all. */
  function DecodeWhere(clause: string, values: seq<Val>, base: nat): Option<seq<Term>> {
    if clause == "" then Some([])
    else
      var toks := Split(clause, ' ');
      if toks[0] == "WHERE" then DecodeConj(toks[1..], values, base) else None
  }

  lemma ParseOpToken(op: Op)
    ensures ParseOp(OpToken(op)) == Some(op)
  {
  }

  lemma ParsePlaceholderRoundTrip(n: nat)
    ensures ParsePlaceholder(Placeholder(n)) == Some(n)
  {
    assert Placeholder(n)[1..] == NatToString(n);
    ParseNatToString(n);
  }

  lemma DecodeTermTokens(t: Term, n: nat, values: seq<Val>, base: nat)
    requires base <= n < base + |values| && values[n - base] == t.value
    ensures DecodeTerm(t.column, OpToken(t.op), Placeholder(n), values, base) == Some(t)
  {
    ParseOpToken(t.op);
    ParsePlaceholderRoundTrip(n);
  }

  /** Reading back the words of a conjunction restores its terms, provided
      the value list binds each placeholder to its term's value. */
  lemma {:induction false} DecodeConjTokens(ts: seq<Term>, n: nat, values: seq<Val>, base: nat)
    requires |ts| > 0 && base <= n && n - base + |ts| <= |values|
    requires forall i :: 0 <= i < |ts| ==> values[n - base + i] == ts[i].value
    ensures DecodeConj(ConjTokens(ts, n), values, base) == Some(ts)
    decreases |ts|, 1
  {
    assert values[n - base + 0] == ts[0].value;
    DecodeTermTokens(ts[0], n, values, base);
    if |ts| > 1 {
      DecodeConjTokensFront(ts, n, values, base);
    } else {
      var toks := ConjTokens(ts, n);
      assert toks[0] == ts[0].column && toks[1] == OpToken(ts[0].op) && toks[2] == Placeholder(n);
      assert [ts[0]] == ts;
    }
  }

  lemma {:induction false} DecodeConjTokensFront(ts: seq<Term>, n: nat, values: seq<Val>, base: nat)
    requires |ts| > 1 && base <= n && n - base + |ts| <= |values|
    requires forall i :: 0 <= i < |ts| ==> values[n - base + i] == ts[i].value
    requires DecodeTerm(ts[0].column, OpToken(ts[0].op), Placeholder(n), values, base) == Some(ts[0])
    ensures DecodeConj(ConjTokens(ts, n), values, base) == Some(ts)
    decreases |ts|, 0
  {
    var toks := ConjTokens(ts, n);
    var rest, m := ts[1..], n + 1;
    ConjTokensFront(ts, n, rest, m);
    ValuesShift(ts, n, values, base, rest, m);
    DecodeConjTokens(rest, m, values, base);
    DecodeConjStep(toks, values, base, ts[0], rest);
    assert [ts[0]] + rest == ts;
  }

  /** The words of several conjuncts: the first one's three, `AND`, then the rest's. */
  lemma ConjTokensFront(ts: seq<Term>, n: nat, rest: seq<Term>, m: nat)
    requires |ts| > 1 && rest == ts[1..] && m == n + 1
    ensures var toks := ConjTokens(ts, n);
            && |toks| > 4
            && toks[0] == ts[0].column && toks[1] == OpToken(ts[0].op) && toks[2] == Placeholder(n)
            && toks[3] == "AND" && toks[4..] == ConjTokens(rest, m)
  {
    var toks := ConjTokens(ts, n);
    assert toks == TermTokens(ts[0], n) + ["AND"] + ConjTokens(rest, m);
  }

  /** One step of the conjunction reader: a conjunct, `AND`, then the rest. */
  lemma DecodeConjStep(toks: seq<string>, values: seq<Val>, base: nat, t: Term, rest: seq<Term>)
    requires |toks| > 4 && toks[3] == "AND"
    requires DecodeTerm(toks[0], toks[1], toks[2], values, base) == Some(t)
    requires DecodeConj(toks[4..], values, base) == Some(rest)
    ensures DecodeConj(toks, values, base) == Some([t] + rest)
  {
  }

  /** Rendering from the front: the first term, then the rest renumbered. */
  lemma RenderTermsFront(ts: seq<Term>, n: nat)
    requires |ts| > 0
    ensures RenderTerms(ts, n) == [RenderTerm(ts[0], n)] + RenderTerms(ts[1..], n + 1)
  {
    assert ts == [ts[0]] + ts[1..];
    RenderSplit(ts, [ts[0]], ts[1..], n, n + 1);
    assert RenderTerms([ts[0]], n) == [RenderTerm(ts[0], n)];
  }

  /** The conjuncts joined by ` AND ` are the words joined by single spaces. */
  lemma {:induction false} ConjTokensJoin(ts: seq<Term>, n: nat)
    requires |ts| > 0
    ensures Join(ConjTokens(ts, n), " ") == Join(RenderTerms(ts, n), " AND ")
    decreases |ts|
  {
    RenderTermsFront(ts, n);
    if |ts| > 1 {
      var tt, ct := TermTokens(ts[0], n), ConjTokens(ts[1..], n + 1);
      var first, rest := RenderTerm(ts[0], n), RenderTerms(ts[1..], n + 1);
      assert |rest| > 0;
      calc {
        Join(ConjTokens(ts, n), " ");
        Join(tt + ["AND"] + ct, " ");
        { ConcatAssoc(tt, ["AND"], ct); }
        Join(tt + (["AND"] + ct), " ");
        { JoinAppend(tt, ["AND"] + ct, " "); }
        Join(tt, " ") + " " + Join(["AND"] + ct, " ");
        { JoinCons("AND", ct, " "); }
        Join(tt, " ") + " " + ("AND" + " " + Join(ct, " "));
        { RenderTermIsJoin(ts[0], n); ConjTokensJoin(ts[1..], n + 1); }
        first + " " + ("AND" + " " + Join(rest, " AND "));
        { AndSeparator(first, Join(rest, " AND ")); }
        first + " AND " + Join(rest, " AND ");
        { JoinCons(first, rest, " AND "); }
        Join([first] + rest, " AND ");
      }
    } else {
      RenderTermIsJoin(ts[0], n);
    }
  }

  /** A space, `AND` and a space make the ` AND ` separator. */
  lemma AndSeparator(x: string, y: string)
    ensures x + " " + ("AND" + " " + y) == x + " AND " + y
  {
    assert " " + "AND" + " " == " AND ";
  }

  /** No word of a rendered conjunction contains a space when no column does. */
  lemma {:induction false} ConjTokensNoSpace(ts: seq<Term>, n: nat)
    requires |ts| > 0
    requires forall i :: 0 <= i < |ts| ==> ' ' !in ts[i].column
    ensures forall i :: 0 <= i < |ConjTokens(ts, n)| ==> ' ' !in ConjTokens(ts, n)[i]
    decreases |ts|
  {
    var toks := ConjTokens(ts, n);
    assert ' ' !in NatToString(n);
    assert ' ' !in Placeholder(n);
    if |ts| > 1 {
      ConjTokensNoSpace(ts[1..], n + 1);
      assert toks == TermTokens(ts[0], n) + ["AND"] + ConjTokens(ts[1..], n + 1);
    }
  }

  /** Every column a filter compiles to is one of the filter's keys. */
  lemma {:induction false} FilterTermsColumns(entries: JsObject)
    ensures forall j :: 0 <= j < |FilterTerms(entries)| ==> HasKey(entries, FilterTerms(entries)[j].column)
  {
    if |entries| > 0 {
      var init, last := entries[..|entries| - 1], entries[|entries| - 1];
      FilterTermsColumns(init);
      var ts := FilterTerms(entries);
      forall j | 0 <= j < |ts|
        ensures HasKey(entries, ts[j].column)
      {
        if j < |FilterTerms(init)| {
          assert ts[j] == FilterTerms(init)[j];
          assert HasKey(init, ts[j].column);
        } else {
          assert ts[j].column == last.0;
        }
      }
    }
  }

  /** Round trip of the filter compiler: when no filter key contains a
      space, the database reading the clause with its values sees exactly
      the conjuncts of the filter, in order, each bound to its own value. */
  lemma WhereRoundTrip(filter: Option<JsObject>, startIndex: nat)
    requires forall i :: 0 <= i < |Spread(filter)| ==> ' ' !in Spread(filter)[i].0
    ensures var r := WhereClause(filter, startIndex);
            DecodeWhere(r.clause, r.values, startIndex) == Some(FilterTerms(Spread(filter)))
  {
    var entries := Spread(filter);
    if filter.Some? && |filter.value| > 0 && |FilterTerms(entries)| > 0 {
      FilterTermsColumns(entries);
      ClauseRoundTrip(FilterTerms(entries), startIndex);
    }
  }

  /** A non-empty conjunction of terms over space-free columns reads back as
      those terms, each with the value its placeholder binds. */
  lemma ClauseRoundTrip(ts: seq<Term>, startIndex: nat)
    requires |ts| > 0
    requires forall i :: 0 <= i < |ts| ==> ' ' !in ts[i].column
    ensures DecodeWhere("WHERE " + Join(RenderTerms(ts, startIndex), " AND "), ValuesOf(ts), startIndex) == Some(ts)
  {
    ClauseWords(ts, startIndex);
    forall i | 0 <= i < |ts|
      ensures ValuesOf(ts)[startIndex - startIndex + i] == ts[i].value
    {
      ValuesOfAt(ts, i);
    }
    DecodeConjTokens(ts, startIndex, ValuesOf(ts), startIndex);
  }

  /** The words of a WHERE clause: `WHERE`, then the conjunction's words. */
  lemma ClauseWords(ts: seq<Term>, startIndex: nat)
    requires |ts| > 0
    requires forall i :: 0 <= i < |ts| ==> ' ' !in ts[i].column
    ensures Split("WHERE " + Join(RenderTerms(ts, startIndex), " AND "), ' ') == ["WHERE"] + ConjTokens(ts, startIndex)
  {
    ConjTokensNoSpace(ts, startIndex);
    calc {
      "WHERE " + Join(RenderTerms(ts, startIndex), " AND ");
      { ConjTokensJoin(ts, startIndex); }
      "WHERE " + Join(ConjTokens(ts, startIndex), " ");
      { assert "WHERE " == "WHERE" + " "; }
      "WHERE" + " " + Join(ConjTokens(ts, startIndex), " ");
      { JoinAppend(["WHERE"], ConjTokens(ts, startIndex), " "); }
      Join(["WHERE"] + ConjTokens(ts, startIndex), " ");
    }
    SplitJoin(["WHERE"] + ConjTokens(ts, startIndex), ' ');
  }

  /** The words of `c0 = $n, c1 = $(n+1), ...`: every placeholder word but
      the last carries the separating comma. */
  function SetTokens(ts: seq<Term>, n: nat): (toks: seq<string>)
    requires |ts| > 0
    ensures |toks| == 3 * |ts|
    decreases |ts|
  {
    if |ts| == 1 then TermTokens(ts[0], n)
    else [ts[0].column, OpToken(ts[0].op), Placeholder(n) + ","] + SetTokens(ts[1..], n + 1)
  }

  /** Comma-separated assignments at the front of `toks`, and the words
      that follow them. */
  function DecodeSet(toks: seq<string>, values: seq<Val>, base: nat): Option<(seq<Term>, seq<string>)>
    decreases |toks|
  {
    if |toks| < 3 then None
    else
      var ph := toks[2];
      if |ph| > 0 && ph[|ph| - 1] == ',' then
        match DecodeTerm(toks[0], toks[1], ph[..|ph| - 1], values, base)
        case None => None
        case Some(t) =>
          (match DecodeSet(toks[3..], values, base)
           case Some((rest, tail)) => Some(([t] + rest, tail))
           case None => None)
      else
        match DecodeTerm(toks[0], toks[1], ph, values, base)
        case None => None
        case Some(t) => Some(([t], toks[3..]))
  }

  lemma Join3(a: string, b: string, c: string, sep: string)
    ensures Join([a, b, c], sep) == a + sep + b + sep + c
  {
    assert [a, b, c][1..] == [b, c];
    assert [b, c][1..] == [c];
    assert Join([b, c], sep) == b + sep + c;
    assert Join([a, b, c], sep) == a + sep + (b + sep + c);
  }

  /** The assignments joined by `, ` are the words joined by single spaces. */
  lemma {:induction false} SetTokensJoin(ts: seq<Term>, n: nat)
    requires |ts| > 0
    ensures Join(SetTokens(ts, n), " ") == Join(RenderTerms(ts, n), ", ")
    decreases |ts|
  {
    RenderTermsFront(ts, n);
    if |ts| > 1 {
      var c, op, ph := ts[0].column, OpToken(ts[0].op), Placeholder(n);
      var head, st := [c, op, ph + ","], SetTokens(ts[1..], n + 1);
      var rest := RenderTerms(ts[1..], n + 1);
      assert |rest| > 0;
      calc {
        Join(SetTokens(ts, n), " ");
        Join(head + st, " ");
        { JoinAppend(head, st, " "); }
        Join(head, " ") + " " + Join(st, " ");
        { Join3(c, op, ph + ",", " "); SetTokensJoin(ts[1..], n + 1); }
        c + " " + op + " " + (ph + ",") + " " + Join(rest, ", ");
        { CommaSeparator(c + " " + op + " ", ph, Join(rest, ", ")); }
        c + " " + op + " " + ph + ", " + Join(rest, ", ");
        { Join3(c, op, ph, " "); RenderTermIsJoin(ts[0], n); }
        RenderTerm(ts[0], n) + ", " + Join(rest, ", ");
        { JoinCons(RenderTerm(ts[0], n), rest, ", "); }
        Join([RenderTerm(ts[0], n)] + rest, ", ");
      }
    } else {
      RenderTermIsJoin(ts[0], n);
    }
  }

  /** A comma glued to a placeholder and then a space make the `, ` separator. */
  lemma CommaSeparator(x: string, ph: string, y: string)
    ensures x + (ph + ",") + " " + y == x + ph + ", " + y
  {
    assert "," + " " == ", ";
  }

  lemma {:induction false} SetTokensNoSpace(ts: seq<Term>, n: nat)
    requires |ts| > 0
    requires forall i :: 0 <= i < |ts| ==> ' ' !in ts[i].column
    ensures forall i :: 0 <= i < |SetTokens(ts, n)| ==> ' ' !in SetTokens(ts, n)[i]
    decreases |ts|
  {
    assert ' ' !in NatToString(n);
    assert ' ' !in Placeholder(n);
    assert ' ' !in Placeholder(n) + ",";
    if |ts| > 1 {
      SetTokensNoSpace(ts[1..], n + 1);
    }
  }

  /** Reading back the words of an assignment list restores its terms and
      leaves whatever followed it untouched. */
  lemma {:induction false} DecodeSetTokens(ts: seq<Term>, n: nat, values: seq<Val>, base: nat, tail: seq<string>)
    requires |ts| > 0 && base <= n && n - base + |ts| <= |values|
    requires forall i :: 0 <= i < |ts| ==> values[n - base + i] == ts[i].value
    ensures DecodeSet(SetTokens(ts, n) + tail, values, base) == Some((ts, tail))
    decreases |ts|, 1
  {
    if |ts| > 1 {
      DecodeSetTokensFront(ts, n, values, base, tail);
    } else {
      DecodeSetTokensLast(ts, n, values, base, tail);
    }
  }

  /** The first assignment of several ends in a comma and is read before the rest. */
  lemma {:induction false} DecodeSetTokensFront(ts: seq<Term>, n: nat, values: seq<Val>, base: nat, tail: seq<string>)
    requires |ts| > 1 && base <= n && n - base + |ts| <= |values|
    requires forall i :: 0 <= i < |ts| ==> values[n - base + i] == ts[i].value
    ensures DecodeSet(SetTokens(ts, n) + tail, values, base) == Some((ts, tail))
    decreases |ts|, 0
  {
    var toks := SetTokens(ts, n) + tail;
    var ph := Placeholder(n);
    SetTokensFront(ts, n, tail);
    assert toks[2][..|toks[2]| - 1] == ph;
    assert values[n - base + 0] == ts[0].value;
    DecodeTermTokens(ts[0], n, values, base);
    var rest, m := ts[1..], n + 1;
    ValuesShift(ts, n, values, base, rest, m);
    DecodeSetTokens(rest, m, values, base, tail);
    DecodeSetStep(toks, values, base, ts[0], rest, tail);
    assert [ts[0]] + rest == ts;
  }

  /** One step of the SET reader: an assignment ending in a comma, then the rest. */
  lemma DecodeSetStep(toks: seq<string>, values: seq<Val>, base: nat, t: Term, rest: seq<Term>, tail: seq<string>)
    requires |toks| >= 3 && |toks[2]| > 0 && toks[2][|toks[2]| - 1] == ','
    requires DecodeTerm(toks[0], toks[1], toks[2][..|toks[2]| - 1], values, base) == Some(t)
    requires DecodeSet(toks[3..], values, base) == Some((rest, tail))
    ensures DecodeSet(toks, values, base) == Some(([t] + rest, tail))
  {
  }

  /** The words of several assignments: the first one's three, then the rest's. */
  lemma SetTokensFront(ts: seq<Term>, n: nat, tail: seq<string>)
    requires |ts| > 1
    ensures var toks := SetTokens(ts, n) + tail;
            && |toks| >= 3
            && toks[0] == ts[0].column && toks[1] == OpToken(ts[0].op) && toks[2] == Placeholder(n) + ","
            && toks[3..] == SetTokens(ts[1..], n + 1) + tail
  {
    var head := [ts[0].column, OpToken(ts[0].op), Placeholder(n) + ","];
    assert SetTokens(ts, n) + tail == head + (SetTokens(ts[1..], n + 1) + tail);
  }

  /** Dropping the first term moves every later value one placeholder down. */
  lemma ValuesShift(ts: seq<Term>, n: nat, values: seq<Val>, base: nat, rest: seq<Term>, m: nat)
    requires |ts| > 0 && base <= n && n - base + |ts| <= |values|
    requires forall i :: 0 <= i < |ts| ==> values[n - base + i] == ts[i].value
    requires rest == ts[1..] && m == n + 1
    ensures m - base + |rest| <= |values|
    ensures forall i :: 0 <= i < |rest| ==> values[m - base + i] == rest[i].value
  {
    forall i | 0 <= i < |rest|
      ensures values[m - base + i] == rest[i].value
    {
      assert values[n - base + (i + 1)] == ts[i + 1].value;
    }
  }

  /** The last assignment has no comma, and the words after it are left. */
  lemma DecodeSetTokensLast(ts: seq<Term>, n: nat, values: seq<Val>, base: nat, tail: seq<string>)
    requires |ts| == 1 && base <= n && n - base < |values| && values[n - base] == ts[0].value
    ensures DecodeSet(SetTokens(ts, n) + tail, values, base) == Some((ts, tail))
  {
    var toks := SetTokens(ts, n) + tail;
    var ph := Placeholder(n);
    DecodeTermTokens(ts[0], n, values, base);
    assert toks[..3] == TermTokens(ts[0], n);
    assert ph[|ph| - 1] != ',' by {
      assert ph[|ph| - 1] == NatToString(n)[|NatToString(n)| - 1];
    }
    assert toks[3..] == tail;
    assert [ts[0]] == ts;
  }
}
