/** Tokenizer.tokenize: the character loop that splits a filter into tokens. A single
    quote toggles quoted mode and stays in the token; outside quotes whitespace separates
    tokens and each of ( ) , is a token of its own. */
module Lexer {
  import opened JavaText

  /** The loop's variables: the tokens emitted so far, the StringBuilder's contents and the
      inQuotes flag. */
  datatype LexState = LexState(tokens: seq<string>, pending: string, inQuotes: bool)

  const Start := LexState([], "", false)

  /** Appends the pending text as a token when it is not empty. */
  function Flush(tokens: seq<string>, pending: string): seq<string> {
    if |pending| > 0 then tokens + [pending] else tokens
  }

  /** One iteration of the loop over the input's characters. */
  function Step(st: LexState, ch: char): LexState {
    var inQuotes := if ch == '\'' then !st.inQuotes else st.inQuotes;
    if IsWhitespace(ch) && !inQuotes then LexState(Flush(st.tokens, st.pending), "", inQuotes)
    else if !inQuotes && IsPunct(ch) then LexState(Flush(st.tokens, st.pending) + [[ch]], "", inQuotes)
    else LexState(st.tokens, st.pending + [ch], inQuotes)
  }

  function Run(st: LexState, s: string): LexState
    decreases |s|
  {
    if s == [] then st else Run(Step(st, s[0]), s[1..])
  }

  /** The tokens of input: the loop's result, with the pending text flushed at the end. */
  function Tokens(input: string): seq<string> {
    var st := Run(Start, input);
    Flush(st.tokens, st.pending)
  }

  method Tokenize(input: string) returns (tokens: seq<string>)
    ensures tokens == Tokens(input)
  {
    tokens := [];
    var token := "";
    var inQuotes := false;
    for i := 0 to |input|
      invariant Run(LexState(tokens, token, inQuotes), input[i..]) == Run(Start, input)
    {
      var ch := input[i];
      assert input[i..] == [ch] + input[i + 1..];
      if ch == '\'' {
        inQuotes := !inQuotes;
      }
      if IsWhitespace(ch) && !inQuotes {
        if |token| > 0 {
          tokens := tokens + [token];
          token := "";
        }
      } else if !inQuotes && IsPunct(ch) {
        if |token| > 0 {
          tokens := tokens + [token];
          token := "";
        }
        tokens := tokens + [[ch]];
      } else {
        token := token + [ch];
      }
    }
    if |token| > 0 {
      tokens := tokens + [token];
    }
  }

  // ---------------------------------------------------------------------------
  // What a token is

  function QuoteCount(s: string): nat {
    if s == [] then 0 else QuoteCount(s[..|s| - 1]) + (if s[|s| - 1] == '\'' then 1 else 0)
  }

  /** An odd number of quotes has been read: the next character lies inside quotes. */
  predicate OpenQuote(s: string) {
    QuoteCount(s) % 2 == 1
  }

  predicate IsSeparator(c: char) {
    IsWhitespace(c) || IsPunct(c)
  }

  /** s with exactly its whitespace outside quotes removed. */
  function Kept(s: string): string {
    if s == [] then ""
    else
      var init, c := s[..|s| - 1], s[|s| - 1];
      Kept(init) + (if IsWhitespace(c) && !OpenQuote(init) then "" else [c])
  }

  /** Every whitespace or punctuation character of t lies inside quotes. */
  predicate Plain(t: string) {
    t == [] ||
    var init, c := t[..|t| - 1], t[|t| - 1];
    Plain(init) && (IsSeparator(c) ==> OpenQuote(init))
  }

  predicate PunctToken(t: string) {
    |t| == 1 && IsPunct(t[0])
  }

  /** A non-empty token with no separator outside quotes and its quotes balanced. */
  predicate ClosedWord(t: string) {
    t != "" && Plain(t) && !OpenQuote(t)
  }

  predicate ClosedToken(t: string) {
    PunctToken(t) || ClosedWord(t)
  }

  function Concat(ts: seq<string>): string {
    if ts == [] then "" else Concat(ts[..|ts| - 1]) + ts[|ts| - 1]
  }

  function Unwords(ts: seq<string>): string {
    if ts == [] then "" else if |ts| == 1 then ts[0] else ts[0] + " " + Unwords(ts[1..])
  }

  // ---------------------------------------------------------------------------
  // Lemmas

  lemma {:induction false} RunAppend(st: LexState, a: string, b: string)
    ensures Run(st, a + b) == Run(Run(st, a), b)
    decreases |a|
  {
    if a == [] {
      assert a + b == b;
    } else {
      assert (a + b)[1..] == a[1..] + b;
      RunAppend(Step(st, a[0]), a[1..], b);
    }
  }

  lemma RunSnoc(st: LexState, s: string, c: char)
    ensures Run(st, s + [c]) == Step(Run(st, s), c)
  {
    RunAppend(st, s, [c]);
  }

  /** Plain, position by position: a character of t that is whitespace or one of ( ) ,
      comes after an odd number of quotes in t. */
  lemma {:induction false} PlainMeaning(t: string)
    ensures Plain(t) <==> forall k :: 0 <= k < |t| && IsSeparator(t[k]) ==> OpenQuote(t[..k])
  {
    if t != [] {
      var init := t[..|t| - 1];
      PlainMeaning(init);
      assert forall k :: 0 <= k < |init| ==> init[k] == t[k] && init[..k] == t[..k];
    }
  }

  ghost predicate Good(st: LexState, s: string) {
    && Concat(st.tokens) + st.pending == Kept(s)
    && st.inQuotes == OpenQuote(s)
    && (forall i :: 0 <= i < |st.tokens| ==> ClosedToken(st.tokens[i]))
    && Plain(st.pending)
    && OpenQuote(st.pending) == st.inQuotes
  }

  lemma ConcatSnoc(ts: seq<string>, t: string)
    ensures Concat(ts + [t]) == Concat(ts) + t
  {
    assert (ts + [t])[..|ts|] == ts;
  }

  lemma FlushGood(st: LexState)
    requires Plain(st.pending) && !OpenQuote(st.pending)
    requires forall i :: 0 <= i < |st.tokens| ==> ClosedToken(st.tokens[i])
    ensures Concat(Flush(st.tokens, st.pending)) == Concat(st.tokens) + st.pending
    ensures forall i :: 0 <= i < |Flush(st.tokens, st.pending)| ==> ClosedToken(Flush(st.tokens, st.pending)[i])
  {
    if |st.pending| > 0 {
      ConcatSnoc(st.tokens, st.pending);
    }
  }

  lemma {:induction false} RunGood(s: string)
    ensures Good(Run(Start, s), s)
  {
    if s != [] {
      var init, c := s[..|s| - 1], s[|s| - 1];
      assert s == init + [c];
      RunGood(init);
      RunSnoc(Start, init, c);
      StepGood(Run(Start, init), init, c);
    }
  }

  lemma StepGood(st: LexState, s: string, c: char)
    requires Good(st, s)
    ensures Good(Step(st, c), s + [c])
  {
    SnocFacts(s, c);
    if IsWhitespace(c) && !OpenQuote(s + [c]) {
      StepSeparator(st, s, c);
    } else if !OpenQuote(s + [c]) && IsPunct(c) {
      StepPunct(st, s, c);
    } else {
      StepAppend(st, s, c);
    }
  }

  /** What appending one character does to Kept and to the quote count. */
  lemma SnocFacts(s: string, c: char)
    ensures Kept(s + [c]) == Kept(s) + (if IsWhitespace(c) && !OpenQuote(s) then "" else [c])
    ensures QuoteCount(s + [c]) == QuoteCount(s) + (if c == '\'' then 1 else 0)
    ensures OpenQuote(s + [c]) == if c == '\'' then !OpenQuote(s) else OpenQuote(s)
  {
    KeptSnoc(s, c);
    OpenQuoteSnoc(s, c);
  }

  lemma OpenQuoteSnoc(s: string, c: char)
    ensures QuoteCount(s + [c]) == QuoteCount(s) + (if c == '\'' then 1 else 0)
    ensures OpenQuote(s + [c]) == if c == '\'' then !OpenQuote(s) else OpenQuote(s)
  {
    QuoteCountSnoc(s, c);
    var n := QuoteCount(s);
    if c == '\'' {
      Parity(n);
    }
  }

  lemma Parity(n: nat)
    ensures ((n + 1) % 2 == 1) == (n % 2 != 1)
  {
  }

  lemma KeptSnoc(s: string, c: char)
    ensures Kept(s + [c]) == Kept(s) + (if IsWhitespace(c) && !OpenQuote(s) then "" else [c])
  {
    var s' := s + [c];
    assert s'[..|s'| - 1] == s && s'[|s'| - 1] == c;
  }

  lemma QuoteCountSnoc(s: string, c: char)
    ensures QuoteCount(s + [c]) == QuoteCount(s) + (if c == '\'' then 1 else 0)
  {
    var s' := s + [c];
    assert s'[..|s'| - 1] == s && s'[|s'| - 1] == c;
  }

  lemma StepSeparator(st: LexState, s: string, c: char)
    requires Good(st, s) && IsWhitespace(c) && !st.inQuotes
    ensures Good(Step(st, c), s + [c])
  {
    SnocFacts(s, c);
    FlushGood(st);
    var next := Step(st, c);
    assert next == LexState(Flush(st.tokens, st.pending), "", false);
    assert Concat(next.tokens) + next.pending == Kept(s + [c]);
  }

  lemma StepPunct(st: LexState, s: string, c: char)
    requires Good(st, s) && IsPunct(c) && !st.inQuotes
    ensures Good(Step(st, c), s + [c])
  {
    SnocFacts(s, c);
    FlushGood(st);
    var flushed := Flush(st.tokens, st.pending);
    ConcatSnoc(flushed, [c]);
    var next := Step(st, c);
    assert next == LexState(flushed + [[c]], "", false);
    assert Concat(next.tokens) + next.pending == Kept(s + [c]);
    assert PunctToken([c]);
    assert forall i :: 0 <= i < |next.tokens| ==> ClosedToken(next.tokens[i]);
  }

  lemma StepAppend(st: LexState, s: string, c: char)
    requires Good(st, s)
    requires var q := if c == '\'' then !st.inQuotes else st.inQuotes;
      !(IsWhitespace(c) && !q) && !(!q && IsPunct(c))
    ensures Good(Step(st, c), s + [c])
  {
    var q := if c == '\'' then !st.inQuotes else st.inQuotes;
    SnocFacts(s, c);
    SnocFacts(st.pending, c);
    assert IsSeparator(c) ==> OpenQuote(st.pending);
    AppendPlain(st.pending, c);
    var next := Step(st, c);
    assert next == LexState(st.tokens, st.pending + [c], q);
    assert Concat(st.tokens) + (st.pending + [c]) == (Concat(st.tokens) + st.pending) + [c];
  }

  lemma AppendPlain(p: string, c: char)
    requires Plain(p) && (IsSeparator(c) ==> OpenQuote(p))
    ensures Plain(p + [c])
    ensures QuoteCount(p + [c]) == QuoteCount(p) + (if c == '\'' then 1 else 0)
  {
    var p' := p + [c];
    assert p'[..|p'| - 1] == p;
  }

  /** Tokenizer conservation and token shape: concatenating the tokens gives the input with
      exactly its unquoted whitespace removed; no token is empty; every token is a single
      ( ) or , or holds separators only inside quotes; every token but the last has
      balanced quotes, and so does the last when the input's quotes are balanced. */
  lemma TokensShape(input: string)
    ensures Concat(Tokens(input)) == Kept(input)
    ensures forall i :: 0 <= i < |Tokens(input)| ==>
      Tokens(input)[i] != "" && (PunctToken(Tokens(input)[i]) || Plain(Tokens(input)[i]))
    ensures forall i :: 0 <= i < |Tokens(input)| - 1 ==> ClosedToken(Tokens(input)[i])
    ensures !OpenQuote(input) ==> forall i :: 0 <= i < |Tokens(input)| ==> ClosedToken(Tokens(input)[i])
  {
    var st := Run(Start, input);
    RunGood(input);
    if |st.pending| > 0 {
      ConcatSnoc(st.tokens, st.pending);
    }
  }

  /** A run of a plain token from an empty pending text accumulates it unchanged. */
  lemma {:induction false} RunPlain(d: seq<string>, t: string)
    requires Plain(t)
    ensures Run(LexState(d, "", false), t) == LexState(d, t, OpenQuote(t))
  {
    if t != [] {
      var init, c := t[..|t| - 1], t[|t| - 1];
      assert t == init + [c];
      RunPlain(d, init);
      RunSnoc(LexState(d, "", false), init, c);
      assert QuoteCount(t) == QuoteCount(init) + (if c == '\'' then 1 else 0);
    }
  }

  /** The state after reading the last of a space-separated run of tokens. */
  function After(d: seq<string>, t: string): LexState {
    if PunctToken(t) then LexState(d + [t], "", false) else LexState(d, t, false)
  }

  lemma RunClosedToken(d: seq<string>, t: string)
    requires ClosedToken(t)
    ensures Run(LexState(d, "", false), t) == After(d, t)
    ensures Flush(After(d, t).tokens, After(d, t).pending) == d + [t]
    ensures Step(After(d, t), ' ') == LexState(d + [t], "", false)
  {
    if PunctToken(t) {
      assert t == [t[0]];
    } else {
      RunPlain(d, t);
    }
  }

  lemma RunClosedTokenSpace(d: seq<string>, t: string)
    requires ClosedToken(t)
    ensures Run(LexState(d, "", false), t + " ") == LexState(d + [t], "", false)
  {
    RunSnoc(LexState(d, "", false), t, ' ');
    RunClosedToken(d, t);
  }

  lemma {:induction false} RunUnwords(d: seq<string>, ts: seq<string>)
    requires |ts| >= 1
    requires forall i :: 0 <= i < |ts| ==> ClosedToken(ts[i])
    ensures Run(LexState(d, "", false), Unwords(ts)) == After(d + ts[..|ts| - 1], ts[|ts| - 1])
    decreases |ts|
  {
    if |ts| == 1 {
      RunClosedToken(d, ts[0]);
    } else {
      var t, more := ts[0], ts[1..];
      var s0 := LexState(d, "", false);
      assert Unwords(ts) == (t + " ") + Unwords(more);
      RunAppend(s0, t + " ", Unwords(more));
      RunClosedTokenSpace(d, t);
      RunUnwords(d + [t], more);
      assert more[|more| - 1] == ts[|ts| - 1];
      assert d + [t] + more[..|more| - 1] == d + ts[..|ts| - 1];
    }
  }

  /** The tokenizer inverts joining with spaces: a sequence of closed tokens joined by
      single spaces tokenizes back to itself. */
  lemma {:induction false} TokensUnwords(ts: seq<string>)
    requires forall i :: 0 <= i < |ts| ==> ClosedToken(ts[i])
    ensures Tokens(Unwords(ts)) == ts
  {
    if ts == [] {
      assert Unwords(ts) == "";
      assert Run(Start, "") == Start;
    } else {
      var init, last := ts[..|ts| - 1], ts[|ts| - 1];
      RunUnwords([], ts);
      assert [] + init == init;
      RunClosedToken(init, last);
      var st := Run(Start, Unwords(ts));
      assert st == After(init, last);
      assert Flush(st.tokens, st.pending) == init + [last];
      assert init + [last] == ts;
    }
  }

  lemma {:induction false} QuoteCountAppend(a: string, b: string)
    ensures QuoteCount(a + b) == QuoteCount(a) + QuoteCount(b)
    decreases |b|
  {
    if b != [] {
      var init := b[..|b| - 1];
      assert (a + b)[..|a + b| - 1] == a + init;
      QuoteCountAppend(a, init);
    } else {
      assert a + b == a;
    }
  }

  lemma {:induction false} QuoteFree(s: string)
    requires '\'' !in s
    ensures QuoteCount(s) == 0
  {
    if s != [] {
      QuoteFree(s[..|s| - 1]);
    }
  }
}
