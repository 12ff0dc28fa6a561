/** Numbering the placeholders of a query, and how it commutes with renaming. */
module SqlRebind {
  import opened Text
  import opened SqlText

  // ----- numbering -----

  function Signs(s: string): (r: seq<Token>) {
    seq(|s|, i requires 0 <= i < |s| => Sign(s[i]))
  }

  /** The tokens of the `$n` form of a placeholder. */
  function Argument(n: nat): (r: seq<Token>) {
    [Sign('$')] + Signs(Decimal(n))
  }

  predicate IsPlaceholder(t: Token) {
    t == Sign('?')
  }

  /** Every placeholder outside quotes replaced by its number, counting from `n`. */
  function Number(ts: seq<Token>, n: nat): (r: seq<Token>) {
    if ts == [] then []
    else if IsPlaceholder(ts[0]) then Argument(n) + Number(ts[1..], n + 1)
    else [ts[0]] + Number(ts[1..], n)
  }

  /** What the rebinder computes. */
  function Rebound(q: string): (r: string) {
    TextOf(Number(Lex(TrimSpace(q), Plain), 1))
  }

  /** What remains to be written from a position on. */
  function NumberedRest(q: string, i: nat, mode: Mode, n: nat): (r: string)
    requires i <= |q|
  {
    TextOf(Number(Lex(q[i..], mode), n))
  }

  lemma {:induction false} TextOfConcat(ts: seq<Token>, us: seq<Token>)
    ensures TextOf(ts + us) == TextOf(ts) + TextOf(us)
  {
    if ts == [] {
      assert ts + us == us;
    } else {
      assert (ts + us)[1..] == ts[1..] + us;
      TextOfConcat(ts[1..], us);
    }
  }

  lemma {:induction false} TextOfSigns(s: string)
    ensures TextOf(Signs(s)) == s
  {
    if s != [] {
      assert Signs(s)[1..] == Signs(s[1..]);
      TextOfSigns(s[1..]);
    }
  }

  lemma TextOfArgument(n: nat)
    ensures TextOf(Argument(n)) == "$" + Decimal(n)
  {
    assert Argument(n)[1..] == Signs(Decimal(n));
    TextOfSigns(Decimal(n));
  }

  lemma RestOfPlaceholder(q: string, i: nat, n: nat)
    requires i < |q| && q[i] == '?'
    ensures NumberedRest(q, i, Plain, n) == "$" + Decimal(n) + NumberedRest(q, i + 1, Plain, n + 1)
  {
    hide TextOf, Argument;
    assert q[i..][1..] == q[i + 1..];
    var ts := Lex(q[i..], Plain);
    assert ts[1..] == Lex(q[i + 1..], Plain);
    TextOfArgument(n);
    TextOfConcat(Argument(n), Number(ts[1..], n + 1));
  }

  lemma OtherToken(ts: seq<Token>, n: nat)
    requires ts != [] && !IsPlaceholder(ts[0])
    ensures TextOf(Number(ts, n)) == ts[0].Text() + TextOf(Number(ts[1..], n))
  {
    assert Number(ts, n)[1..] == Number(ts[1..], n);
  }

  function NumberedText(q: string, n: nat): (r: string) {
    TextOf(Number(Lex(q, Plain), n))
  }

  lemma WordFirst(q: string, n: nat)
    requires q != [] && IsIdentStart(q[0])
    ensures var k := 1 + Span(q[1..]); NumberedText(q, n) == q[..k] + NumberedText(q[k..], n)
  {
    hide Number, TextOf;
    var k := 1 + Span(q[1..]);
    OtherToken(Lex(q, Plain), n);
    assert Lex(q, Plain)[0].Text() == q[..k] && Lex(q, Plain)[1..] == Lex(q[k..], Plain);
  }

  lemma DigitFirst(q: string, n: nat)
    requires q != [] && '0' <= q[0] <= '9'
    ensures NumberedText(q, n) == [q[0]] + NumberedText(q[1..], n)
  {
    hide Number, TextOf;
    OtherToken(Lex(q, Plain), n);
    assert Lex(q, Plain)[1..] == Lex(q[1..], Plain);
  }

  /** The rebinder goes through an identifier character by character, which makes no difference. */
  lemma {:induction false} IdentifierByCharacters(q: string, n: nat)
    requires q != [] && IsIdentContinue(q[0])
    ensures NumberedText(q, n) == [q[0]] + NumberedText(q[1..], n)
    decreases |q|, 0
  {
    hide NumberedText, Span;
    if IsIdentStart(q[0]) {
      WordFirst(q, n);
      var rest := q[1..];
      Identifier(rest, n);
      var k := Span(rest);
      assert rest[k..] == q[1 + k..] && q[..1 + k] == [q[0]] + rest[..k];
    } else {
      DigitFirst(q, n);
    }
  }

  lemma {:induction false} Identifier(q: string, n: nat)
    ensures NumberedText(q, n) == q[..Span(q)] + NumberedText(q[Span(q)..], n)
    decreases |q|, 1
  {
    hide NumberedText;
    if q == [] || !IsIdentContinue(q[0]) {
      assert q[0..] == q;
    } else {
      IdentifierByCharacters(q, n);
      var rest := q[1..];
      Identifier(rest, n);
      var k := Span(rest);
      assert rest[k..] == q[1 + k..] && q[..1 + k] == [q[0]] + rest[..k];
    }
  }

  lemma NumberedRestOfChar(q: string, i: nat, mode: Mode, n: nat)
    requires i < |q| && !(mode == Plain && q[i] == '?')
    ensures NumberedRest(q, i, mode, n) == [q[i]] + NumberedRest(q, i + 1, NextMode(mode, q[i]), n)
  {
    hide Number, TextOf;
    assert q[i..][1..] == q[i + 1..];
    if mode == Plain && IsIdentStart(q[i]) {
      IdentifierByCharacters(q[i..], n);
    } else {
      var ts := Lex(q[i..], mode);
      assert ts[1..] == Lex(q[i + 1..], NextMode(mode, q[i]));
      OtherToken(ts, n);
    }
  }

  method RebindDollar(query: string) returns (b: string)
    ensures b == Rebound(query)
  {
    hide NumberedRest, Lex, Number, TextOf, Rebound, TrimSpace;
    var q := TrimSpace(query);
    RebindStartsAndEnds(query);
    if q == "" {
      return "";
    }
    b := "";
    var inSingle, inDouble, arg := false, false, 1;
    for i := 0 to |q|
      invariant !(inSingle && inDouble)
      invariant b + NumberedRest(q, i, ModeOf(inSingle, inDouble), arg) == Rebound(query)
    {
      var c := q[i];
      if c == '\'' && !inDouble {
        NumberedRestOfChar(q, i, ModeOf(inSingle, inDouble), arg);
        inSingle := !inSingle;
        b := b + [c];
      } else if c == '\"' && !inSingle {
        NumberedRestOfChar(q, i, ModeOf(inSingle, inDouble), arg);
        inDouble := !inDouble;
        b := b + [c];
      } else if !inSingle && !inDouble && c == '?' {
        RestOfPlaceholder(q, i, arg);
        b := b + "$" + Decimal(arg);
        arg := arg + 1;
      } else {
        NumberedRestOfChar(q, i, ModeOf(inSingle, inDouble), arg);
        b := b + [c];
      }
    }
  }

  lemma RebindStartsAndEnds(query: string)
    ensures var q := TrimSpace(query);
            && NumberedRest(q, 0, Plain, 1) == Rebound(query)
            && (forall mode, n :: NumberedRest(q, |q|, mode, n) == "")
  {
    assert TrimSpace(query)[0..] == TrimSpace(query);
  }

  // ----- placeholders count up -----

  /** How many placeholders there are. */
  function Count(ts: seq<Token>): (r: nat) {
    if ts == [] then 0 else (if ts[0] == Sign('?') then 1 else 0) + Count(ts[1..])
  }

  lemma {:induction false} NumberConcat(ts: seq<Token>, us: seq<Token>, n: nat)
    ensures Number(ts + us, n) == Number(ts, n) + Number(us, n + Count(ts))
  {
    hide Argument;
    if ts == [] {
      assert ts + us == us;
    } else {
      assert (ts + us)[1..] == ts[1..] + us && (ts + us)[0] == ts[0];
      NumberConcat(ts[1..], us, if ts[0] == Sign('?') then n + 1 else n);
    }
  }

  /** A placeholder is numbered one higher than there are placeholders before it, whatever stands around it. */
  lemma PlaceholderNumbered(ts: seq<Token>, more: seq<Token>, n: nat)
    ensures Number(ts + ([Sign('?')] + more), n)
            == Number(ts, n) + (Argument(n + Count(ts)) + Number(more, n + Count(ts) + 1))
    ensures TextOf(Argument(n + Count(ts))) == "$" + Decimal(n + Count(ts))
            && NumberOf(Decimal(n + Count(ts))) == n + Count(ts)
  {
    TextOfArgument(n + Count(ts));
    DecimalReads(n + Count(ts));
    NumberConcat(ts, [Sign('?')] + more, n);
    hide Argument;
    assert ([Sign('?')] + more)[1..] == more;
  }

  /** The first placeholder of a query is number one, and a query without any is only trimmed. */
  lemma NumberedFromOne(q: string)
    ensures Rebound(q) == TextOf(Number(Lex(TrimSpace(q), Plain), 1))
    ensures Count(Lex(TrimSpace(q), Plain)) == 0 ==> Rebound(q) == TrimSpace(q)
  {
    hide TrimSpace, Lex, Number, TextOf, Lexical, Count;
    LexIsLexical(TrimSpace(q), Plain);
    if Count(Lex(TrimSpace(q), Plain)) == 0 {
      NothingToNumber(Lex(TrimSpace(q), Plain), 1);
    }
  }

  lemma {:induction false} NothingToNumber(ts: seq<Token>, n: nat)
    requires Count(ts) == 0
    ensures Number(ts, n) == ts
  {
    if ts != [] {
      NothingToNumber(ts[1..], n);
    }
  }

  // ----- numbering acts on tokens -----

  lemma {:induction false} SignsLexical(s: string, rest: seq<Token>)
    requires forall i :: 0 <= i < |s| ==> '0' <= s[i] <= '9'
    requires Lexical(rest, Plain)
    ensures Lexical(Signs(s) + rest, Plain)
  {
    if s == [] {
      assert Signs(s) + rest == rest;
    } else {
      SignsLexical(s[1..], rest);
      assert (Signs(s) + rest)[1..] == Signs(s[1..]) + rest;
    }
  }

  lemma NumberStarts(ts: seq<Token>, n: nat)
    ensures Number(ts, n) == [] <==> ts == []
    ensures ts != [] ==> Number(ts, n)[0] == if IsPlaceholder(ts[0]) then Sign('$') else ts[0]
  {
  }

  lemma ArgumentLexical(n: nat, rest: seq<Token>)
    requires Lexical(rest, Plain)
    ensures Lexical(Argument(n) + rest, Plain)
  {
    SignsLexical(Decimal(n), rest);
    assert (Argument(n) + rest)[1..] == Signs(Decimal(n)) + rest;
  }

  lemma FirstLexical(t: Token, rest: seq<Token>, numbered: seq<Token>, mode: Mode)
    requires Lexical([t] + rest, mode)
    requires Lexical(numbered, if t.Quoted? then NextMode(mode, t.c) else mode)
    requires numbered == [] <==> rest == []
    requires rest != [] ==> numbered[0] == rest[0] || numbered[0] == Sign('$')
    ensures Lexical([t] + numbered, mode)
  {
    assert ([t] + rest)[1..] == rest && ([t] + numbered)[1..] == numbered;
  }

  lemma {:induction false} NumberKeepsLexical(ts: seq<Token>, mode: Mode, n: nat)
    requires Lexical(ts, mode)
    ensures Lexical(Number(ts, n), mode)
    decreases |ts|
  {
    hide Argument;
    if ts != [] {
      var rest, n' := ts[1..], if IsPlaceholder(ts[0]) then n + 1 else n;
      NumberKeepsLexical(rest, if ts[0].Quoted? then NextMode(mode, ts[0].c) else mode, n');
      if IsPlaceholder(ts[0]) {
        ArgumentLexical(n, Number(rest, n'));
      } else {
        NumberStarts(rest, n');
        assert ts == [ts[0]] + rest;
        FirstLexical(ts[0], rest, Number(rest, n'), mode);
      }
    }
  }

  /** Numbering acts on tokens: outside the placeholders the rebound text reads as before. */
  lemma RebinderIsHomomorphism(q: string)
    ensures Lex(Rebound(q), Plain) == Number(Lex(TrimSpace(q), Plain), 1)
  {
    hide TrimSpace, Lex, Number, TextOf, Lexical;
    LexIsLexical(TrimSpace(q), Plain);
    NumberKeepsLexical(Lex(TrimSpace(q), Plain), Plain, 1);
    LexOfText(Number(Lex(TrimSpace(q), Plain), 1), Plain);
  }

  lemma {:induction false} RenameConcat(ts: seq<Token>, us: seq<Token>, repl: map<string, string>)
    ensures RenameAll(ts + us, repl) == RenameAll(ts, repl) + RenameAll(us, repl)
  {
  }

  lemma RenameArgument(n: nat, repl: map<string, string>)
    ensures RenameAll(Argument(n), repl) == Argument(n)
  {
  }

  lemma {:induction false} NumberRenamed(ts: seq<Token>, repl: map<string, string>, n: nat)
    ensures Number(RenameAll(ts, repl), n) == RenameAll(Number(ts, n), repl)
    decreases |ts|
  {
    hide Argument;
    if ts != [] {
      assert RenameAll(ts, repl)[1..] == RenameAll(ts[1..], repl);
      if IsPlaceholder(ts[0]) {
        NumberRenamed(ts[1..], repl, n + 1);
        RenameArgument(n, repl);
        RenameConcat(Argument(n), Number(ts[1..], n + 1), repl);
      } else {
        NumberRenamed(ts[1..], repl, n);
        RenameConcat([ts[0]], Number(ts[1..], n), repl);
      }
    }
  }

  // ----- trimming acts on tokens -----

  /** A token that is one white-space character. */
  predicate Blank(t: Token) {
    !t.Word? && IsSpace(t.c)
  }

  function TrimTokensLeft(ts: seq<Token>): (r: seq<Token>) {
    if ts != [] && Blank(ts[0]) then TrimTokensLeft(ts[1..]) else ts
  }

  function TrimTokensRight(ts: seq<Token>): (r: seq<Token>) {
    if ts != [] && Blank(ts[|ts| - 1]) then TrimTokensRight(ts[..|ts| - 1]) else ts
  }

  function TrimTokens(ts: seq<Token>): (r: seq<Token>) {
    TrimTokensRight(TrimTokensLeft(ts))
  }

  lemma {:induction false} LexTrimLeft(q: string)
    ensures Lex(TrimLeft(q), Plain) == TrimTokensLeft(Lex(q, Plain))
  {
    if q != [] && IsSpace(q[0]) {
      LexTrimLeft(q[1..]);
      assert Lex(q, Plain)[1..] == Lex(q[1..], Plain);
    }
  }

  lemma {:induction false} SpanWithSpace(q: string, c: char)
    requires IsSpace(c)
    ensures Span(q + [c]) == Span(q)
  {
    if q != [] {
      assert (q + [c])[1..] == q[1..] + [c];
      SpanWithSpace(q[1..], c);
    }
  }

  /** The first token of a text does not depend on a white-space character after it. */
  lemma FirstBeforeSpace(q: string, mode: Mode, c: char) returns (t: Token, rest: string, mode': Mode)
    requires q != [] && IsSpace(c)
    ensures |rest| < |q|
    ensures Lex(q, mode) == [t] + Lex(rest, mode') && Lex(q + [c], mode) == [t] + Lex(rest + [c], mode')
  {
    var q' := q + [c];
    assert q'[1..] == q[1..] + [c];
    if mode == Plain && IsIdentStart(q[0]) {
      SpanWithSpace(q[1..], c);
      hide Span;
      var n := 1 + Span(q[1..]);
      assert q'[..n] == q[..n] && q'[n..] == q[n..] + [c];
      t, rest, mode' := Word(q[..n]), q[n..], Plain;
    } else {
      t := if mode != Plain || IsQuote(q[0]) then Quoted(q[0]) else Sign(q[0]);
      rest, mode' := q[1..], NextMode(mode, q[0]);
    }
  }

  lemma OnlySpace(mode: Mode, c: char)
    requires IsSpace(c)
    ensures Lex([c], mode) == [if mode != Plain then Quoted(c) else Sign(c)]
  {
  }

  /** A white-space character at the end is a token of its own. */
  lemma {:induction false} LexWithSpace(q: string, mode: Mode, c: char)
    requires IsSpace(c)
    ensures var ts := Lex(q + [c], mode);
            ts != [] && Blank(ts[|ts| - 1]) && ts[..|ts| - 1] == Lex(q, mode)
    decreases |q|
  {
    if q == [] {
      assert q + [c] == [c];
      OnlySpace(mode, c);
    } else {
      hide Lex, Blank;
      var t, rest, mode' := FirstBeforeSpace(q, mode, c);
      LexWithSpace(rest, mode', c);
    }
  }

  /** A character that is not white space ends a token that is not blank. */
  lemma {:induction false} LexWithoutSpace(q: string, mode: Mode)
    requires q != [] && !IsSpace(q[|q| - 1])
    ensures var ts := Lex(q, mode); ts != [] && !Blank(ts[|ts| - 1])
    decreases |q|
  {
    if mode != Plain || IsQuote(q[0]) {
      if |q| > 1 { LexWithoutSpace(q[1..], NextMode(mode, q[0])); }
    } else if IsIdentStart(q[0]) {
      var n := 1 + Span(q[1..]);
      if n < |q| { LexWithoutSpace(q[n..], Plain); }
    } else {
      if |q| > 1 { LexWithoutSpace(q[1..], Plain); }
    }
  }

  lemma {:induction false} LexTrimRight(q: string)
    ensures Lex(TrimRight(q), Plain) == TrimTokensRight(Lex(q, Plain))
  {
    if q != [] {
      if IsSpace(q[|q| - 1]) {
        var rest := q[..|q| - 1];
        LexTrimRight(rest);
        assert q == rest + [q[|q| - 1]];
        LexWithSpace(rest, Plain, q[|q| - 1]);
      } else {
        LexWithoutSpace(q, Plain);
      }
    }
  }

  lemma LexTrim(q: string)
    ensures Lex(TrimSpace(q), Plain) == TrimTokens(Lex(q, Plain))
  {
    LexTrimLeft(q);
    LexTrimRight(TrimLeft(q));
  }

  lemma {:induction false} TrimRenamedLeft(ts: seq<Token>, repl: map<string, string>)
    ensures TrimTokensLeft(RenameAll(ts, repl)) == RenameAll(TrimTokensLeft(ts), repl)
  {
    if ts != [] && Blank(ts[0]) {
      assert RenameAll(ts, repl)[1..] == RenameAll(ts[1..], repl);
      TrimRenamedLeft(ts[1..], repl);
    }
  }

  lemma TrimRightStep(rest: seq<Token>, last: Token)
    ensures TrimTokensRight(rest + [last]) == if Blank(last) then TrimTokensRight(rest) else rest + [last]
  {
    assert (rest + [last])[..|rest|] == rest;
  }

  lemma RenameLast(rest: seq<Token>, last: Token, repl: map<string, string>)
    ensures RenameAll(rest + [last], repl) == RenameAll(rest, repl) + [Renamed(last, repl)]
    ensures Blank(Renamed(last, repl)) <==> Blank(last)
  {
    RenameConcat(rest, [last], repl);
  }

  lemma {:induction false} TrimRenamedRight(ts: seq<Token>, repl: map<string, string>)
    ensures TrimTokensRight(RenameAll(ts, repl)) == RenameAll(TrimTokensRight(ts), repl)
  {
    if ts != [] {
      hide TrimTokensRight, RenameAll, Renamed, Blank;
      var rest, last := ts[..|ts| - 1], ts[|ts| - 1];
      assert ts == rest + [last];
      RenameLast(rest, last, repl);
      TrimRightStep(rest, last);
      TrimRightStep(RenameAll(rest, repl), Renamed(last, repl));
      TrimRenamedRight(rest, repl);
    }
  }

  // ----- the two together -----

  /** Renaming and numbering commute, so every placeholder keeps its ordinal. */
  lemma RenamingCommutesWithRebinding(q: string, repl: map<string, string>)
    requires Replaces(repl)
    ensures Rewritten(Rebound(q), repl) == Rebound(Rewritten(q, repl))
  {
    hide Lex, TextOf, Number, TrimSpace, TrimTokensLeft, TrimTokensRight, RenameAll, QuotedPart;
    var ts := Lex(q, Plain);
    RebinderIsHomomorphism(q);
    LexTrim(q);
    NumberRenamed(TrimTokens(ts), repl, 1);
    RewriterIsHomomorphism(q, repl);
    LexTrim(Rewritten(q, repl));
    TrimRenamedLeft(ts, repl);
    TrimRenamedRight(TrimTokensLeft(ts), repl);
  }
}
