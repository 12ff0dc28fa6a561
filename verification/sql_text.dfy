/**
 Two one-pass lexers over SQL text: one renames identifiers, one numbers
 placeholders. Both respect quotes, act token by token, and commute.
*/
module SqlText {
  import opened Text

  predicate IsIdentStart(c: char) {
    'a' <= c <= 'z' || 'A' <= c <= 'Z' || c == '_'
  }

  predicate IsIdentContinue(c: char) {
    IsIdentStart(c) || '0' <= c <= '9'
  }

  predicate IsIdent(s: string) {
    s != [] && IsIdentStart(s[0]) && forall i :: 0 < i < |s| ==> IsIdentContinue(s[i])
  }

  predicate IsQuote(c: char) {
    c == '\'' || c == '\"'
  }

  // ----- tokens -----

  datatype Mode = Plain | InSingle | InDouble

  /** Identifiers and other characters outside quotes; quotes and everything between them. */
  datatype Token = Word(text: string) | Sign(c: char) | Quoted(c: char) {
    function Text(): (r: string) {
      match this
      case Word(text) => text
      case Sign(c) => [c]
      case Quoted(c) => [c]
    }
  }

  /** A quote toggles its own kind of quotation, unless it is inside the other. */
  function NextMode(mode: Mode, c: char): (r: Mode) {
    if c == '\'' && mode != InDouble then (if mode == InSingle then Plain else InSingle)
    else if c == '\"' && mode != InSingle then (if mode == InDouble then Plain else InDouble)
    else mode
  }

  /** How many characters continue an identifier. */
  function Span(q: string): (n: nat)
    ensures n <= |q|
    ensures forall i :: 0 <= i < n ==> IsIdentContinue(q[i])
    ensures n < |q| ==> !IsIdentContinue(q[n])
  {
    if q == [] || !IsIdentContinue(q[0]) then 0 else 1 + Span(q[1..])
  }

  function Lex(q: string, mode: Mode): (r: seq<Token>)
    decreases |q|
  {
    if q == [] then []
    else if mode != Plain || IsQuote(q[0]) then [Quoted(q[0])] + Lex(q[1..], NextMode(mode, q[0]))
    else if IsIdentStart(q[0]) then
      var n := 1 + Span(q[1..]);
      [Word(q[..n])] + Lex(q[n..], Plain)
    else [Sign(q[0])] + Lex(q[1..], Plain)
  }

  function TextOf(ts: seq<Token>): (r: string) {
    if ts == [] then [] else ts[0].Text() + TextOf(ts[1..])
  }

  /** A token that would be read as part of an identifier before it. */
  predicate Sticks(t: Token) {
    t.Word? || (t.Sign? && IsIdentContinue(t.c))
  }

  /** Token lists that a text can be read as. */
  predicate Lexical(ts: seq<Token>, mode: Mode) {
    if ts == [] then true else
    match ts[0]
    case Word(text) => mode == Plain && IsIdent(text) && (|ts| > 1 ==> !Sticks(ts[1])) && Lexical(ts[1..], Plain)
    case Sign(c) => mode == Plain && !IsQuote(c) && !IsIdentStart(c) && Lexical(ts[1..], Plain)
    case Quoted(c) => (mode != Plain || IsQuote(c)) && Lexical(ts[1..], NextMode(mode, c))
  }

  lemma WordLexed(q: string)
    requires q != [] && !IsQuote(q[0]) && IsIdentStart(q[0])
    requires var after := q[1 + Span(q[1..])..]; Lexical(Lex(after, Plain), Plain) && TextOf(Lex(after, Plain)) == after
    ensures Lexical(Lex(q, Plain), Plain) && TextOf(Lex(q, Plain)) == q
  {
    var n := 1 + Span(q[1..]);
    var rest := Lex(q[n..], Plain);
    WordSpan(q);
    FirstSticks(q[n..]);
    WordFirst(q[..n], rest);
    hide IsQuote, IsIdentStart, IsIdentContinue, IsIdent, Span;
    assert Lex(q, Plain) == [Word(q[..n])] + rest;
  }

  lemma WordSpan(q: string)
    requires q != [] && IsIdentStart(q[0])
    ensures var n := 1 + Span(q[1..]); IsIdent(q[..n]) && (n < |q| ==> !IsIdentContinue(q[n]))
  {
    hide IsIdentStart, IsIdentContinue;
    var n := 1 + Span(q[1..]);
    assert forall i :: 0 < i < n ==> q[i] == q[1..][i - 1];
  }

  lemma WordFirst(w: string, ts: seq<Token>)
    requires IsIdent(w) && Lexical(ts, Plain) && (ts != [] ==> !Sticks(ts[0]))
    ensures Lexical([Word(w)] + ts, Plain) && TextOf([Word(w)] + ts) == w + TextOf(ts)
  {
    hide IsIdent, Sticks;
    assert ([Word(w)] + ts)[1..] == ts;
  }

  /** A text that does not go on with an identifier does not begin with a token that would. */
  lemma FirstSticks(q: string)
    requires q != [] ==> !IsIdentContinue(q[0])
    ensures Lex(q, Plain) != [] ==> !Sticks(Lex(q, Plain)[0])
  {
  }

  lemma QuotedLexed(q: string, mode: Mode)
    requires q != [] && (mode != Plain || IsQuote(q[0]))
    requires var mode' := NextMode(mode, q[0]);
             Lexical(Lex(q[1..], mode'), mode') && TextOf(Lex(q[1..], mode')) == q[1..]
    ensures Lexical(Lex(q, mode), mode) && TextOf(Lex(q, mode)) == q
  {
    hide NextMode, IsQuote, IsIdentStart;
    var rest := Lex(q[1..], NextMode(mode, q[0]));
    QuotedFirst(q[0], rest, mode);
    assert Lex(q, mode) == [Quoted(q[0])] + rest;
  }

  lemma QuotedFirst(c: char, ts: seq<Token>, mode: Mode)
    requires (mode != Plain || IsQuote(c)) && Lexical(ts, NextMode(mode, c))
    ensures Lexical([Quoted(c)] + ts, mode) && TextOf([Quoted(c)] + ts) == [c] + TextOf(ts)
  {
    assert ([Quoted(c)] + ts)[1..] == ts;
  }

  lemma SignLexed(q: string)
    requires q != [] && !IsQuote(q[0]) && !IsIdentStart(q[0])
    requires Lexical(Lex(q[1..], Plain), Plain) && TextOf(Lex(q[1..], Plain)) == q[1..]
    ensures Lexical(Lex(q, Plain), Plain) && TextOf(Lex(q, Plain)) == q
  {
    hide IsQuote, IsIdentStart;
    var rest := Lex(q[1..], Plain);
    SignFirst(q[0], rest);
    assert Lex(q, Plain) == [Sign(q[0])] + rest;
  }

  lemma SignFirst(c: char, ts: seq<Token>)
    requires !IsQuote(c) && !IsIdentStart(c) && Lexical(ts, Plain)
    ensures Lexical([Sign(c)] + ts, Plain) && TextOf([Sign(c)] + ts) == [c] + TextOf(ts)
  {
    assert ([Sign(c)] + ts)[1..] == ts;
  }

  lemma NothingLexed(mode: Mode)
    ensures Lexical(Lex([], mode), mode) && TextOf(Lex([], mode)) == []
  {
  }

  lemma {:induction false} LexIsLexical(q: string, mode: Mode)
    ensures Lexical(Lex(q, mode), mode) && TextOf(Lex(q, mode)) == q
    decreases |q|
  {
    hide Lex, Lexical, TextOf, NextMode, IsIdentStart, IsQuote;
    if q == [] {
      NothingLexed(mode);
    } else if mode == Plain && !IsQuote(q[0]) && IsIdentStart(q[0]) {
      LexIsLexical(q[1 + Span(q[1..])..], Plain);
      WordLexed(q);
    } else if mode == Plain && !IsQuote(q[0]) {
      LexIsLexical(q[1..], Plain);
      SignLexed(q);
    } else {
      LexIsLexical(q[1..], NextMode(mode, q[0]));
      QuotedLexed(q, mode);
    }
  }

  lemma {:induction false} SpanOf(w: string, rest: string)
    requires forall i :: 0 <= i < |w| ==> IsIdentContinue(w[i])
    requires rest != [] ==> !IsIdentContinue(rest[0])
    ensures Span(w + rest) == |w|
  {
    if w == [] {
      assert w + rest == rest;
    } else {
      assert (w + rest)[1..] == w[1..] + rest;
      SpanOf(w[1..], rest);
    }
  }

  /** First character of a text. */
  lemma TextStarts(ts: seq<Token>, mode: Mode)
    requires Lexical(ts, mode) && ts != []
    ensures TextOf(ts) != [] && TextOf(ts)[0] == (if ts[0].Word? then ts[0].text[0] else ts[0].c)
  {
  }

  lemma WordRead(ts: seq<Token>)
    requires ts != [] && ts[0].Word? && Lexical(ts, Plain) && Lex(TextOf(ts[1..]), Plain) == ts[1..]
    ensures Lex(TextOf(ts), Plain) == ts
  {
    var w, q, rest := ts[0].text, TextOf(ts), TextOf(ts[1..]);
    if |ts| > 1 {
      TextStarts(ts[1..], Plain);
    }
    assert q[1..] == w[1..] + rest;
    SpanOf(w[1..], rest);
    assert q[..|w|] == w && q[|w|..] == rest;
    hide TextOf, Lexical;
    assert Lex(q, Plain) == [Word(w)] + Lex(rest, Plain);
  }

  /** Reading back a text gives its tokens. */
  lemma {:induction false} LexOfText(ts: seq<Token>, mode: Mode)
    requires Lexical(ts, mode)
    ensures Lex(TextOf(ts), mode) == ts
    decreases |ts|
  {
    if ts != [] {
      var q, rest := TextOf(ts), TextOf(ts[1..]);
      match ts[0]
      case Word(w) =>
        LexOfText(ts[1..], Plain);
        WordRead(ts);
      case Sign(c) =>
        LexOfText(ts[1..], Plain);
        assert q[1..] == rest;
      case Quoted(c) =>
        LexOfText(ts[1..], NextMode(mode, c));
        assert q[1..] == rest;
    }
  }

  // ----- quotations -----

  /** The characters of a quotation, each a token of its own. */
  function Verbatim(s: string): (r: seq<Token>) {
    seq(|s|, i requires 0 <= i < |s| => Quoted(s[i]))
  }

  predicate NoQuotes(s: string) {
    forall i :: 0 <= i < |s| ==> s[i] != '\'' && s[i] != '\"'
  }

  /** Inside a quotation everything is verbatim, quotes of the other kind included, until it is closed. */
  lemma {:induction false} InsideQuotes(b: string, c: char, rest: string)
    requires c == '\'' || c == '\"'
    requires forall i :: 0 <= i < |b| ==> b[i] != c
    ensures Lex(b + [c] + rest, if c == '\'' then InSingle else InDouble) == Verbatim(b + [c]) + Lex(rest, Plain)
  {
    var q := b + [c] + rest;
    if b == [] {
      assert q[1..] == rest && Verbatim([c]) == [Quoted(c)];
    } else {
      assert q[1..] == b[1..] + [c] + rest && q[0] == b[0];
      InsideQuotes(b[1..], c, rest);
      assert Verbatim(b + [c]) == [Quoted(b[0])] + Verbatim(b[1..] + [c]);
    }
  }

  lemma FirstWord(w: string, rest: string)
    requires IsIdent(w) && (rest != [] ==> !IsIdentContinue(rest[0]))
    ensures Lex(w + rest, Plain) == [Word(w)] + Lex(rest, Plain)
  {
    var q := w + rest;
    SpanOf(w[1..], rest);
    hide IsIdentContinue, Span;
    assert q[1..] == w[1..] + rest && q[..|w|] == w && q[|w|..] == rest;
  }

  lemma WordBeforeQuotes(a: string, tail: string)
    requires a != [] && IsIdentStart(a[0]) && tail != [] && !IsIdentContinue(tail[0])
    requires var n := 1 + Span(a[1..]); Lex(a[n..] + tail, Plain) == Lex(a[n..], Plain) + Lex(tail, Plain)
    ensures Lex(a + tail, Plain) == Lex(a, Plain) + Lex(tail, Plain)
  {
    hide IsIdent, IsIdentStart, IsIdentContinue, Lex;
    var n := 1 + Span(a[1..]);
    WordSpan(a);
    FirstWord(a[..n], a[n..]);
    FirstWord(a[..n], a[n..] + tail);
    assert a == a[..n] + a[n..] && a + tail == a[..n] + (a[n..] + tail);
  }

  /** Up to the first quote a text is read on its own. */
  lemma {:induction false} BeforeQuotes(a: string, c: char, rest: string)
    requires NoQuotes(a) && (c == '\'' || c == '\"')
    ensures Lex(a + ([c] + rest), Plain) == Lex(a, Plain) + Lex([c] + rest, Plain)
    decreases |a|
  {
    var tail := [c] + rest;
    if a == [] {
      assert a + tail == tail;
    } else if IsIdentStart(a[0]) {
      BeforeQuotes(a[1 + Span(a[1..])..], c, rest);
      WordBeforeQuotes(a, tail);
    } else {
      BeforeQuotes(a[1..], c, rest);
      hide Span;
      assert (a + tail)[1..] == a[1..] + tail;
    }
  }

  /** The tokens of a text with a quotation in it. */
  lemma QuotationLexed(a: string, b: string, c: char, rest: string)
    requires NoQuotes(a) && (c == '\'' || c == '\"') && forall i :: 0 <= i < |b| ==> b[i] != c
    ensures Lex(a + ([c] + (b + [c] + rest)), Plain) == Lex(a, Plain) + (Verbatim([c] + b + [c]) + Lex(rest, Plain))
  {
    hide Lex;
    BeforeQuotes(a, c, b + [c] + rest);
    OpenQuote(c, b + [c] + rest);
    InsideQuotes(b, c, rest);
    assert [Quoted(c)] + Verbatim(b + [c]) == Verbatim([c] + b + [c]);
  }

  /** A quotation is kept as it is, and the text before and after it is rewritten on its own. */
  lemma QuotationIsKept(a: string, b: string, c: char, rest: string, repl: map<string, string>)
    requires NoQuotes(a) && (c == '\'' || c == '\"') && forall i :: 0 <= i < |b| ==> b[i] != c
    ensures Rewritten(a + ([c] + (b + [c] + rest)), repl)
            == Rewritten(a, repl) + (([c] + b + [c]) + Rewritten(rest, repl))
  {
    hide Lex, TextOf, RenameAll, Verbatim;
    QuotationLexed(a, b, c, rest);
    RenamedConcat(Lex(a, Plain), Verbatim([c] + b + [c]) + Lex(rest, Plain), repl);
    RenamedConcat(Verbatim([c] + b + [c]), Lex(rest, Plain), repl);
    VerbatimText([c] + b + [c], repl);
  }

  lemma OpenQuote(c: char, rest: string)
    requires c == '\'' || c == '\"'
    ensures Lex([c] + rest, Plain) == [Quoted(c)] + Lex(rest, if c == '\'' then InSingle else InDouble)
  {
    assert ([c] + rest)[1..] == rest;
  }

  lemma {:induction false} RenamedConcat(ts: seq<Token>, us: seq<Token>, repl: map<string, string>)
    ensures TextOf(RenameAll(ts + us, repl)) == TextOf(RenameAll(ts, repl)) + TextOf(RenameAll(us, repl))
  {
    if ts == [] {
      assert ts + us == us;
    } else {
      assert (ts + us)[1..] == ts[1..] + us;
      RenamedConcat(ts[1..], us, repl);
      assert RenameAll(ts, repl)[1..] == RenameAll(ts[1..], repl);
      assert RenameAll(ts + us, repl)[1..] == RenameAll(ts[1..] + us, repl);
    }
  }

  lemma {:induction false} VerbatimText(s: string, repl: map<string, string>)
    ensures TextOf(RenameAll(Verbatim(s), repl)) == s
  {
    if s != [] {
      VerbatimText(s[1..], repl);
      assert Verbatim(s)[1..] == Verbatim(s[1..]);
      assert RenameAll(Verbatim(s), repl)[1..] == RenameAll(Verbatim(s[1..]), repl);
    }
  }

  // ----- renaming -----

  function Renamed(t: Token, repl: map<string, string>): (r: Token) {
    if t.Word? && t.text in repl then Word(repl[t.text]) else t
  }

  function RenameAll(ts: seq<Token>, repl: map<string, string>): (r: seq<Token>)
    ensures |r| == |ts| && forall i :: 0 <= i < |ts| ==> r[i] == Renamed(ts[i], repl)
  {
    if ts == [] then [] else [Renamed(ts[0], repl)] + RenameAll(ts[1..], repl)
  }

  predicate Replaces(repl: map<string, string>) {
    forall w :: w in repl ==> IsIdent(repl[w])
  }

  lemma {:induction false} RenameKeepsLexical(ts: seq<Token>, mode: Mode, repl: map<string, string>)
    requires Replaces(repl) && Lexical(ts, mode)
    ensures Lexical(RenameAll(ts, repl), mode)
    decreases |ts|
  {
    if ts != [] {
      var mode' := if ts[0].Quoted? then NextMode(mode, ts[0].c) else mode;
      RenameKeepsLexical(ts[1..], mode', repl);
      assert RenameAll(ts, repl)[1..] == RenameAll(ts[1..], repl);
    }
  }

  /** What the rewriter computes. */
  function Rewritten(q: string, repl: map<string, string>): (r: string) {
    TextOf(RenameAll(Lex(q, Plain), repl))
  }

  /** What remains to be written from a position on. */
  function Rest(q: string, i: nat, mode: Mode, repl: map<string, string>): (r: string)
    requires i <= |q|
  {
    TextOf(RenameAll(Lex(q[i..], mode), repl))
  }

  lemma RestOfChar(q: string, i: nat, mode: Mode, repl: map<string, string>)
    requires i < |q| && (mode != Plain || !IsIdentStart(q[i]))
    ensures Rest(q, i, mode, repl) == [q[i]] + Rest(q, i + 1, NextMode(mode, q[i]), repl)
  {
    assert q[i..][1..] == q[i + 1..];
    var ts := Lex(q[i..], mode);
    assert ts[1..] == Lex(q[i + 1..], NextMode(mode, q[i]));
  }

  lemma RestOfWord(q: string, i: nat, j: nat, repl: map<string, string>)
    requires i < j <= |q| && IsIdentStart(q[i])
    requires forall k :: i < k < j ==> IsIdentContinue(q[k])
    requires j < |q| ==> !IsIdentContinue(q[j])
    ensures Rest(q, i, Plain, repl) == Renamed(Word(q[i..j]), repl).Text() + Rest(q, j, Plain, repl)
  {
    SpanOf(q[i + 1..j], q[j..]);
    assert q[i..][1..] == q[i + 1..j] + q[j..];
    assert q[i..][..j - i] == q[i..j] && q[i..][j - i..] == q[j..];
    var ts := Lex(q[i..], Plain);
    assert ts[1..] == Lex(q[j..], Plain);
  }

  method IdentEnd(q: string, i: nat) returns (j: nat)
    requires i < |q|
    ensures i < j <= |q| && forall k :: i < k < j ==> IsIdentContinue(q[k])
    ensures j < |q| ==> !IsIdentContinue(q[j])
  {
    j := i + 1;
    while j < |q| && IsIdentContinue(q[j])
      invariant i < j <= |q| && forall k :: i < k < j ==> IsIdentContinue(q[k])
    {
      j := j + 1;
    }
  }

  /** One character written. */
  lemma CharWritten(b: string, q: string, i: nat, inSingle: bool, inDouble: bool, repl: map<string, string>)
    requires i < |q| && !(inSingle && inDouble) && (inSingle || inDouble || !IsIdentStart(q[i]))
    ensures var single := if q[i] == '\'' && !inDouble then !inSingle else inSingle;
            var double := if q[i] == '\"' && !inSingle then !inDouble else inDouble;
            b + Rest(q, i, ModeOf(inSingle, inDouble), repl)
                == (b + [q[i]]) + Rest(q, i + 1, ModeOf(single, double), repl)
  {
    hide Rest, IsIdentStart;
    RestOfChar(q, i, ModeOf(inSingle, inDouble), repl);
  }

  /** One identifier written. */
  lemma WordWritten(b: string, q: string, i: nat, j: nat, repl: map<string, string>)
    requires i < j <= |q| && IsIdentStart(q[i])
    requires forall k :: i < k < j ==> IsIdentContinue(q[k])
    requires j < |q| ==> !IsIdentContinue(q[j])
    ensures var ident := q[i..j];
            b + Rest(q, i, Plain, repl) == (b + if ident in repl then repl[ident] else ident) + Rest(q, j, Plain, repl)
  {
    hide Rest, IsIdentStart, IsIdentContinue;
    RestOfWord(q, i, j, repl);
  }

  method RewriteSqlIdents(q: string, repl: map<string, string>) returns (b: string)
    ensures b == Rewritten(q, repl)
  {
    hide Rest, Rewritten, IsIdentContinue, IsIdentStart, NextMode;
    RewriteStartsAndEnds(q, repl);
    if |repl| == 0 {
      return q;
    }
    b := "";
    var inSingle, inDouble, i := false, false, 0;
    while i < |q|
      invariant i <= |q| && !(inSingle && inDouble)
      invariant b + Rest(q, i, ModeOf(inSingle, inDouble), repl) == Rewritten(q, repl)
    {
      var c := q[i];
      NoQuoteStarts();
      if inSingle || inDouble || !IsIdentStart(c) {
        CharWritten(b, q, i, inSingle, inDouble, repl);
      }
      if c == '\'' && !inDouble {
        inSingle := !inSingle;
        b := b + [c];
        i := i + 1;
      } else if c == '\"' && !inSingle {
        inDouble := !inDouble;
        b := b + [c];
        i := i + 1;
      } else if inSingle || inDouble {
        b := b + [c];
        i := i + 1;
      } else if IsIdentStart(c) {
        var j := IdentEnd(q, i);
        WordWritten(b, q, i, j, repl);
        var ident := q[i..j];
        if ident in repl {
          b := b + repl[ident];
        } else {
          b := b + ident;
        }
        i := j;
      } else {
        b := b + [c];
        i := i + 1;
      }
    }
  }

  lemma NoQuoteStarts()
    ensures !IsIdentStart('\'') && !IsIdentStart('\"')
  {
  }

  lemma RewriteStartsAndEnds(q: string, repl: map<string, string>)
    ensures Rest(q, 0, Plain, repl) == Rewritten(q, repl)
    ensures forall mode :: Rest(q, |q|, mode, repl) == ""
    ensures |repl| == 0 ==> Rewritten(q, repl) == q
  {
    assert q[0..] == q;
    LexIsLexical(q, Plain);
    NothingToRename(Lex(q, Plain), repl);
  }

  function ModeOf(inSingle: bool, inDouble: bool): (r: Mode) {
    if inSingle then InSingle else if inDouble then InDouble else Plain
  }

  lemma {:induction false} NothingToRename(ts: seq<Token>, repl: map<string, string>)
    ensures |repl| == 0 ==> RenameAll(ts, repl) == ts
  {
    if |repl| == 0 {
      assert repl == map[];
    }
  }

  /** Renaming acts on tokens: the rewritten text reads as the renamed tokens, quotes and all else as they were. */
  lemma RewriterIsHomomorphism(q: string, repl: map<string, string>)
    requires Replaces(repl)
    ensures Lex(Rewritten(q, repl), Plain) == RenameAll(Lex(q, Plain), repl)
    ensures QuotedPart(Lex(Rewritten(q, repl), Plain)) == QuotedPart(Lex(q, Plain))
  {
    LexIsLexical(q, Plain);
    RenameKeepsLexical(Lex(q, Plain), Plain, repl);
    LexOfText(RenameAll(Lex(q, Plain), repl), Plain);
    QuotesUntouched(Lex(q, Plain), repl);
  }

  /** Everything between quotes, quotes included. */
  function QuotedPart(ts: seq<Token>): (r: string) {
    if ts == [] then [] else (if ts[0].Quoted? then [ts[0].c] else []) + QuotedPart(ts[1..])
  }

  lemma {:induction false} QuotesUntouched(ts: seq<Token>, repl: map<string, string>)
    ensures QuotedPart(RenameAll(ts, repl)) == QuotedPart(ts)
    decreases |ts|
  {
    if ts != [] {
      QuotesUntouched(ts[1..], repl);
      assert RenameAll(ts, repl)[1..] == RenameAll(ts[1..], repl);
    }
  }
}
