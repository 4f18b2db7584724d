/** The Tokenizer object: the token list of a filter and a forward-only index into it,
    with consume, next and nextValue. */
module Cursor {
  import opened Wrappers
  import opened JavaText
  import opened Syntax
  import opened Lexer

  /** nextValue's conversion of a token: a token that starts and ends with a quote gives
      the text between them verbatim (a lone quote makes substring(1, 0) throw); otherwise
      a token Double.parseDouble accepts is a number and anything else the raw string. */
  function Coerce(token: string): (r: Result<Literal, Cause>)
    ensures r.Failure? <==> token == "'"
    ensures r.Success? && r.value.Num? ==> r.value.text == token && ParsesAsDouble(token)
    ensures r.Success? && r.value.Str? ==> r.value.s == token || token == "'" + r.value.s + "'"
    ensures !(|token| > 0 && token[0] == '\'' && token[|token| - 1] == '\'') ==>
      r.Success? && (r.value.Num? <==> ParsesAsDouble(token))
  {
    if |token| > 0 && token[0] == '\'' && token[|token| - 1] == '\'' then
      if |token| >= 2 then Success(Str(token[1..|token| - 1]))
      else Failure(SubstringOutOfRange(token))
    else if ParsesAsDouble(token) then Success(Num(token))
    else Success(Str(token))
  }

  /** Any text between two quotes comes back verbatim: there is no escape processing. */
  lemma CoerceQuoted(s: string)
    ensures Coerce("'" + s + "'") == Success(Str(s))
  {
    var t := "'" + s + "'";
    assert t[1..|t| - 1] == s;
  }

  class Tokenizer {
    const tokens: seq<string>
    var index: nat

    ghost predicate Valid()
      reads this
    {
      index <= |tokens|
    }

    /** The tokens not yet consumed. */
    ghost function Rest(): seq<string>
      reads this
      requires Valid()
    {
      tokens[index..]
    }

    constructor (input: string)
      ensures Valid() && tokens == Tokens(input) && index == 0
    {
      var ts := Tokenize(input);
      tokens := ts;
      index := 0;
    }

    /** Advances past the current token exactly when there is one and it equals token
        ignoring case. */
    method Consume(token: string) returns (matched: bool)
      requires Valid()
      modifies this
      ensures Valid()
      ensures matched == (old(index) < |tokens| && EqualsIgnoreCase(tokens[old(index)], token))
      ensures index == if matched then old(index) + 1 else old(index)
      ensures Rest() == if matched then old(Rest())[1..] else old(Rest())
    {
      matched := false;
      if index < |tokens| && EqualsIgnoreCase(tokens[index], token) {
        index := index + 1;
        matched := true;
      }
    }

    /** Returns the current token and advances, or fails at the end of input. */
    method Next() returns (r: Result<string, Cause>)
      requires Valid()
      modifies this
      ensures Valid()
      ensures old(index) < |tokens| ==> r == Success(tokens[old(index)]) && index == old(index) + 1
      ensures old(index) == |tokens| ==> r == Failure(EndOfInput) && index == old(index)
      ensures r.Success? ==> Rest() == old(Rest())[1..]
    {
      if index < |tokens| {
        r := Success(tokens[index]);
        index := index + 1;
        return;
      }
      r := Failure(EndOfInput);
    }

    /** Returns the current token coerced to a literal and advances, or fails at the end
        of input. */
    method NextValue() returns (r: Result<Literal, Cause>)
      requires Valid()
      modifies this
      ensures Valid()
      ensures old(index) < |tokens| ==> r == Coerce(tokens[old(index)]) && index == old(index) + 1
      ensures old(index) == |tokens| ==> r == Failure(EndOfInput) && index == old(index)
      ensures r.Success? ==> Rest() == old(Rest())[1..]
    {
      if index < |tokens| {
        var value := tokens[index];
        index := index + 1;
        if |value| > 0 && value[0] == '\'' && value[|value| - 1] == '\'' {
          if |value| < 2 {
            r := Failure(SubstringOutOfRange(value));
            return;
          }
          r := Success(Str(value[1..|value| - 1]));
          return;
        }
        if ParsesAsDouble(value) {
          r := Success(Num(value));
        } else {
          r := Success(Str(value));
        }
        return;
      }
      r := Failure(EndOfInput);
    }
  }
}
