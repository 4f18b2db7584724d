/** parseOrExpr, parseAndExpr and parseComparisonExpr: recursive descent over the token
    cursor, with OR binding looser than AND, AND looser than a comparison or a
    parenthesised group. Each parse method is proved against a function over the
    remaining tokens. */
module Parser {
  import opened Wrappers
  import opened JavaText
  import opened Syntax
  import opened Cursor

  /** A parsed filter and the tokens left after it. */
  datatype Parsed = Parsed(query: Query, rest: seq<string>)

  /** The first token is there and equals word ignoring case: what consume(word) tests. */
  predicate StartsWith(ts: seq<string>, word: string) {
    |ts| > 0 && EqualsIgnoreCase(ts[0], word)
  }

  /** p consumed at least one token of ts, left a suffix of ts, and built a collapsed
      tree. */
  predicate Consumed(ts: seq<string>, p: Parsed) {
    |p.rest| < |ts| && p.rest == ts[|ts| - |p.rest|..] && Collapsed(p.query)
  }

  /** A bad-request fault names one of the tokens as the unknown filter field. */
  predicate NamesToken(ts: seq<string>, f: Fault) {
    f.BadRequest? ==> exists t :: t in ts && f.message == FilterFieldMessage(t)
  }

  predicate AllCollapsed(qs: seq<Query>) {
    forall i :: 0 <= i < |qs| ==> Collapsed(qs[i])
  }

  /** One operand is returned as it is; two or more are wrapped in a disjunction or a
      conjunction in the order they were parsed. */
  function Collapse(qs: seq<Query>, disjunction: bool): (q: Query)
    requires |qs| >= 1 && AllCollapsed(qs)
    ensures Collapsed(q)
    ensures |qs| == 1 ==> q == qs[0]
  {
    if |qs| == 1 then qs[0] else if disjunction then Or(qs) else And(qs)
  }

  /** OrExpr := AndExpr ("or" AndExpr)* */
  function ParseOrF(ts: seq<string>, prefix: string, resolve: Resolver): (r: Result<Parsed, Fault>)
    ensures r.Success? ==> Consumed(ts, r.value)
    ensures r.Failure? ==> NamesToken(ts, r.error)
    decreases |ts|, 4
  {
    OrLoop([], ts, prefix, resolve)
  }

  /** The do-while loop of parseOrExpr, with acc the operands parsed so far. */
  function OrLoop(acc: seq<Query>, ts: seq<string>, prefix: string, resolve: Resolver): (r: Result<Parsed, Fault>)
    requires AllCollapsed(acc)
    ensures r.Success? ==> Consumed(ts, r.value)
    ensures r.Failure? ==> NamesToken(ts, r.error)
    decreases |ts|, 3
  {
    match ParseAndF(ts, prefix, resolve)
    case Failure(f) => Failure(f)
    case Success(Parsed(q, rest)) =>
      if StartsWith(rest, "or") then
        DropSuffix(ts, rest);
        OrLoop(acc + [q], rest[1..], prefix, resolve)
      else Success(Parsed(Collapse(acc + [q], true), rest))
  }

  /** AndExpr := CmpExpr ("and" CmpExpr)* */
  function ParseAndF(ts: seq<string>, prefix: string, resolve: Resolver): (r: Result<Parsed, Fault>)
    ensures r.Success? ==> Consumed(ts, r.value)
    ensures r.Failure? ==> NamesToken(ts, r.error)
    decreases |ts|, 2
  {
    AndLoop([], ts, prefix, resolve)
  }

  function AndLoop(acc: seq<Query>, ts: seq<string>, prefix: string, resolve: Resolver): (r: Result<Parsed, Fault>)
    requires AllCollapsed(acc)
    ensures r.Success? ==> Consumed(ts, r.value)
    ensures r.Failure? ==> NamesToken(ts, r.error)
    decreases |ts|, 1
  {
    match ParseCmpF(ts, prefix, resolve)
    case Failure(f) => Failure(f)
    case Success(Parsed(q, rest)) =>
      if StartsWith(rest, "and") then
        DropSuffix(ts, rest);
        AndLoop(acc + [q], rest[1..], prefix, resolve)
      else Success(Parsed(Collapse(acc + [q], false), rest))
  }

  /** CmpExpr := "(" OrExpr [")"] | field op value. The field is resolved before the
      operator is read, and the value is read before the operator is checked. */
  function ParseCmpF(ts: seq<string>, prefix: string, resolve: Resolver): (r: Result<Parsed, Fault>)
    ensures r.Success? ==> Consumed(ts, r.value)
    ensures r.Failure? ==> NamesToken(ts, r.error)
    ensures |ts| > 0 && !StartsWith(ts, "(") && resolve(Key(prefix, ts[0])).None? ==>
      r == Failure(BadRequest(FilterFieldMessage(ts[0])))
    decreases |ts|, 0
  {
    if StartsWith(ts, "(") then
      match ParseOrF(ts[1..], prefix, resolve)
      case Failure(f) => Failure(f)
      case Success(Parsed(q, rest)) =>
        Success(Parsed(q, if StartsWith(rest, ")") then rest[1..] else rest))
    else if |ts| == 0 then Failure(Unexpected(EndOfInput))
    else
      var keyName := ts[0];
      match resolve(Key(prefix, keyName))
      case None => Failure(BadRequest(FilterFieldMessage(keyName)))
      case Some(left) =>
        if |ts| < 3 then Failure(Unexpected(EndOfInput))
        else
          match Coerce(ts[2])
          case Failure(c) => Failure(Unexpected(c))
          case Success(right) =>
            match ParseOperator(ts[1])
            case None => Failure(Unexpected(UnsupportedOperator(ts[1])))
            case Some(op) => Success(Parsed(Cmp(left, op, right), ts[3..]))
  }

  /** Dropping the first token of a suffix of ts leaves a shorter suffix of ts, whose
      tokens are all tokens of ts. */
  lemma DropSuffix(ts: seq<string>, rest: seq<string>)
    requires 0 < |rest| <= |ts| && rest == ts[|ts| - |rest|..]
    ensures rest[1..] == ts[|ts| - |rest[1..]|..]
    ensures forall t :: t in rest[1..] ==> t in ts
  {
  }

  /** The method's result and the cursor's new position agree with the parse function's result, expected. */
  ghost predicate Agrees(r: Result<Query, Fault>, expected: Result<Parsed, Fault>, c: Tokenizer)
    reads c
    requires c.Valid()
  {
    match expected
    case Failure(f) => r == Failure(f)
    case Success(p) => r == Success(p.query) && c.Rest() == p.rest
  }

  method ParseOr(c: Tokenizer, prefix: string, resolve: Resolver) returns (r: Result<Query, Fault>)
    requires c.Valid()
    modifies c
    ensures c.Valid()
    ensures Agrees(r, ParseOrF(old(c.Rest()), prefix, resolve), c)
    decreases |c.tokens| - c.index, 4
  {
    ghost var start := c.Rest();
    var orList: seq<Query> := [];
    while true
      invariant c.Valid() && old(c.index) <= c.index
      invariant AllCollapsed(orList)
      invariant OrLoop(orList, c.Rest(), prefix, resolve) == ParseOrF(start, prefix, resolve)
      decreases |c.tokens| - c.index
    {
      var operand := ParseAnd(c, prefix, resolve);
      if operand.Failure? {
        return Failure(operand.error);
      }
      orList := orList + [operand.value];
      var more := c.Consume("or");
      if !more {
        return Success(if |orList| == 1 then orList[0] else Or(orList));
      }
    }
  }

  method ParseAnd(c: Tokenizer, prefix: string, resolve: Resolver) returns (r: Result<Query, Fault>)
    requires c.Valid()
    modifies c
    ensures c.Valid()
    ensures Agrees(r, ParseAndF(old(c.Rest()), prefix, resolve), c)
    decreases |c.tokens| - c.index, 2
  {
    ghost var start := c.Rest();
    var andList: seq<Query> := [];
    while true
      invariant c.Valid() && old(c.index) <= c.index
      invariant AllCollapsed(andList)
      invariant AndLoop(andList, c.Rest(), prefix, resolve) == ParseAndF(start, prefix, resolve)
      decreases |c.tokens| - c.index
    {
      var operand := ParseComparison(c, prefix, resolve);
      if operand.Failure? {
        return Failure(operand.error);
      }
      andList := andList + [operand.value];
      var more := c.Consume("and");
      if !more {
        return Success(if |andList| == 1 then andList[0] else And(andList));
      }
    }
  }

  method ParseComparison(c: Tokenizer, prefix: string, resolve: Resolver) returns (r: Result<Query, Fault>)
    requires c.Valid()
    modifies c
    ensures c.Valid()
    ensures Agrees(r, ParseCmpF(old(c.Rest()), prefix, resolve), c)
    decreases |c.tokens| - c.index, 0
  {
    var open := c.Consume("(");
    if open {
      r := ParseOr(c, prefix, resolve);
      if r.Failure? {
        return;
      }
      var closed := c.Consume(")");
      return;
    }
    var keyName := c.Next();
    if keyName.Failure? {
      return Failure(Unexpected(keyName.error));
    }
    var left := resolve(Key(prefix, keyName.value));
    if left.None? {
      return Failure(BadRequest(FilterFieldMessage(keyName.value)));
    }
    var op := c.Next();
    if op.Failure? {
      return Failure(Unexpected(op.error));
    }
    var right := c.NextValue();
    if right.Failure? {
      return Failure(Unexpected(right.error));
    }
    var operator := ParseOperator(op.value);
    if operator.None? {
      return Failure(Unexpected(UnsupportedOperator(op.value)));
    }
    r := Success(Cmp(left.value, operator.value, right.value));
  }
}
