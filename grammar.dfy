/** The filter grammar read backwards: a printer from parsed trees to tokens, and the
    theorem that the parser inverts it. The printer inserts parentheses exactly where
    precedence needs them, so the round trip shows that OR binds looser than AND, AND
    looser than a comparison, that parentheses override both, and that operand lists keep
    their order. */
module Grammar {
  import opened Wrappers
  import opened JavaText
  import opened Syntax
  import opened Lexer
  import opened Cursor
  import opened Parser

  /** The grammar level a sub-filter is printed at. */
  datatype Level = OrLevel | AndLevel | CmpLevel

  function Rank(l: Level): nat {
    match l
    case OrLevel => 1
    case AndLevel => 2
    case CmpLevel => 3
  }

  function Join(parts: seq<seq<string>>, sep: string): seq<string> {
    if |parts| == 0 then [] else if |parts| == 1 then parts[0] else parts[0] + [sep] + Join(parts[1..], sep)
  }

  /** A field name or number token: non-empty, without whitespace, ( ) , or quotes. */
  predicate Word(t: string) {
    t != "" && forall i :: 0 <= i < |t| ==> !IsSeparator(t[i]) && t[i] != '\''
  }

  function LiteralText(v: Literal): string {
    match v
    case Str(s) => "'" + s + "'"
    case Num(t) => t
  }

  predicate PrintableLiteral(v: Literal) {
    match v
    case Str(s) => '\'' !in s
    case Num(t) => Word(t) && ParsesAsDouble(t)
  }

  /** Field names are words, string literals hold no quote, numbers are words Java parses,
      and every combinator has at least two children. */
  predicate Printable(q: Query) {
    match q
    case Cmp(f, _, v) => Word(f) && PrintableLiteral(v)
    case And(cs) => |cs| >= 2 && forall i :: 0 <= i < |cs| ==> Printable(cs[i])
    case Or(cs) => |cs| >= 2 && forall i :: 0 <= i < |cs| ==> Printable(cs[i])
  }

  /** Every field of q has a property under prefix. */
  predicate Resolvable(q: Query, prefix: string, resolve: Resolver) {
    match q
    case Cmp(f, _, _) => resolve(Key(prefix, f)).Some?
    case And(cs) => forall i :: 0 <= i < |cs| ==> Resolvable(cs[i], prefix, resolve)
    case Or(cs) => forall i :: 0 <= i < |cs| ==> Resolvable(cs[i], prefix, resolve)
  }

  /** q with every field replaced by the name it resolves to. */
  function Rename(q: Query, prefix: string, resolve: Resolver): Query
    requires Resolvable(q, prefix, resolve)
  {
    match q
    case Cmp(f, op, v) => Cmp(resolve(Key(prefix, f)).value, op, v)
    case And(cs) => And(seq(|cs|, i requires 0 <= i < |cs| => Rename(cs[i], prefix, resolve)))
    case Or(cs) => Or(seq(|cs|, i requires 0 <= i < |cs| => Rename(cs[i], prefix, resolve)))
  }

  /** The tokens of q printed at level lvl: a disjunction is parenthesised below the OR
      level, a conjunction below the AND level. */
  function Render(q: Query, lvl: Level): seq<string>
    decreases q, Rank(lvl)
  {
    match q
    case Cmp(f, op, v) => [f, OperatorText(op), LiteralText(v)]
    case And(cs) =>
      if lvl == CmpLevel then ["("] + Render(q, OrLevel) + [")"]
      else Join(Parts(q, CmpLevel), "and")
    case Or(cs) =>
      if lvl != OrLevel then ["("] + Render(q, OrLevel) + [")"]
      else Join(Parts(q, AndLevel), "or")
  }

  /** The children of a combinator, each printed at level lvl. */
  function Parts(q: Query, lvl: Level): (r: seq<seq<string>>)
    requires !q.Cmp?
    decreases q, 0
  {
    match q
    case And(cs) => seq(|cs|, i requires 0 <= i < |cs| => Render(cs[i], lvl))
    case Or(cs) => seq(|cs|, i requires 0 <= i < |cs| => Render(cs[i], lvl))
  }

  // ---------------------------------------------------------------------------
  // The parser inverts the printer

  lemma WordIsNotKeyword(t: string, kw: string)
    requires Word(t) && (kw == "(" || kw == ")")
    ensures !EqualsIgnoreCase(t, kw)
  {
    assert !IsSeparator(t[0]);
    assert ToLowerAscii(t[0]) != kw[0];
  }

  lemma {:induction false} RenameCollapsed(q: Query, prefix: string, resolve: Resolver)
    requires Printable(q) && Resolvable(q, prefix, resolve)
    ensures Collapsed(Rename(q, prefix, resolve))
  {
    match q
    case Cmp(_, _, _) =>
    case And(cs) =>
      forall i | 0 <= i < |cs| ensures Collapsed(Rename(cs[i], prefix, resolve)) {
        RenameCollapsed(cs[i], prefix, resolve);
      }
    case Or(cs) =>
      forall i | 0 <= i < |cs| ensures Collapsed(Rename(cs[i], prefix, resolve)) {
        RenameCollapsed(cs[i], prefix, resolve);
      }
  }

  lemma RenameAllCollapsed(qs: seq<Query>, prefix: string, resolve: Resolver)
    requires forall i :: 0 <= i < |qs| ==> Printable(qs[i]) && Resolvable(qs[i], prefix, resolve)
    ensures AllCollapsed(RenameAll(qs, prefix, resolve))
  {
    forall i | 0 <= i < |qs| ensures Collapsed(RenameAll(qs, prefix, resolve)[i]) {
      RenameCollapsed(qs[i], prefix, resolve);
    }
  }

  lemma RenameAllSnoc(qs: seq<Query>, k: nat, prefix: string, resolve: Resolver)
    requires k < |qs| && forall i :: 0 <= i < |qs| ==> Resolvable(qs[i], prefix, resolve)
    ensures RenameAll(qs[..k], prefix, resolve) + [Rename(qs[k], prefix, resolve)] == RenameAll(qs[..k + 1], prefix, resolve)
  {
  }

  lemma RenameChildren(q: Query, prefix: string, resolve: Resolver)
    requires !q.Cmp? && Resolvable(q, prefix, resolve)
    ensures q.And? ==> Rename(q, prefix, resolve) == And(RenameAll(q.conjuncts, prefix, resolve))
    ensures q.Or? ==> Rename(q, prefix, resolve) == Or(RenameAll(q.disjuncts, prefix, resolve))
  {
  }

  lemma AndLoopStep(acc: seq<Query>, ts: seq<string>, q: Query, tail: seq<string>, prefix: string, resolve: Resolver)
    requires AllCollapsed(acc) && Collapsed(q)
    requires ParseCmpF(ts, prefix, resolve) == Success(Parsed(q, tail))
    ensures AndLoop(acc, ts, prefix, resolve) ==
      if StartsWith(tail, "and") then AndLoop(acc + [q], tail[1..], prefix, resolve)
      else Success(Parsed(Collapse(acc + [q], false), tail))
  {
  }

  lemma OrLoopStep(acc: seq<Query>, ts: seq<string>, q: Query, tail: seq<string>, prefix: string, resolve: Resolver)
    requires AllCollapsed(acc) && Collapsed(q)
    requires ParseAndF(ts, prefix, resolve) == Success(Parsed(q, tail))
    ensures OrLoop(acc, ts, prefix, resolve) ==
      if StartsWith(tail, "or") then OrLoop(acc + [q], tail[1..], prefix, resolve)
      else Success(Parsed(Collapse(acc + [q], true), tail))
  {
  }

  lemma AndLoopFailStep(acc: seq<Query>, ts: seq<string>, prefix: string, resolve: Resolver)
    requires AllCollapsed(acc) && ParseCmpF(ts, prefix, resolve).Failure?
    ensures AndLoop(acc, ts, prefix, resolve) == Failure(ParseCmpF(ts, prefix, resolve).error)
  {
  }

  lemma OrLoopFailStep(acc: seq<Query>, ts: seq<string>, prefix: string, resolve: Resolver)
    requires AllCollapsed(acc) && ParseAndF(ts, prefix, resolve).Failure?
    ensures OrLoop(acc, ts, prefix, resolve) == Failure(ParseAndF(ts, prefix, resolve).error)
  {
  }

  lemma KeywordFacts()
    ensures EqualsIgnoreCase("or", "or") && EqualsIgnoreCase("and", "and") && EqualsIgnoreCase(")", ")")
    ensures !EqualsIgnoreCase("or", "and") && !EqualsIgnoreCase("and", "or")
    ensures !EqualsIgnoreCase(")", "and") && !EqualsIgnoreCase(")", "or")
  {
  }

  lemma CoerceLiteral(v: Literal)
    requires PrintableLiteral(v)
    ensures Coerce(LiteralText(v)) == Success(v)
  {
    match v
    case Str(s) => CoerceQuoted(s);
    case Num(t) => assert t[0] != '\'';
  }

  /** A printed comparison is read back with its field resolved. */
  lemma RoundTripComparison(f: string, op: Op, v: Literal, rest: seq<string>, prefix: string, resolve: Resolver)
    requires Word(f) && PrintableLiteral(v) && resolve(Key(prefix, f)).Some?
    ensures ParseCmpF([f, OperatorText(op), LiteralText(v)] + rest, prefix, resolve) ==
            Success(Parsed(Cmp(resolve(Key(prefix, f)).value, op, v), rest))
  {
    var ts := [f, OperatorText(op), LiteralText(v)] + rest;
    WordIsNotKeyword(f, "(");
    CoerceLiteral(v);
    assert ts[0] == f && ts[1] == OperatorText(op) && ts[2] == LiteralText(v) && ts[3..] == rest;
  }

  lemma {:induction false} RoundTripCmp(q: Query, rest: seq<string>, prefix: string, resolve: Resolver)
    requires Printable(q) && Resolvable(q, prefix, resolve)
    ensures ParseCmpF(Render(q, CmpLevel) + rest, prefix, resolve) == Success(Parsed(Rename(q, prefix, resolve), rest))
    decreases q, if q.Cmp? then 0 else if q.Or? then 2 else 5, 0
  {
    var ts := Render(q, CmpLevel) + rest;
    match q
    case Cmp(f, op, v) =>
      RoundTripComparison(f, op, v, rest, prefix, resolve);
    case _ =>
      KeywordFacts();
      assert ts[1..] == Render(q, OrLevel) + ([")"] + rest);
      RoundTripOr(q, [")"] + rest, prefix, resolve);
      assert ([")"] + rest)[1..] == rest;
  }

  lemma {:induction false} RoundTripAnd(q: Query, rest: seq<string>, prefix: string, resolve: Resolver)
    requires Printable(q) && Resolvable(q, prefix, resolve)
    requires !StartsWith(rest, "and")
    ensures ParseAndF(Render(q, AndLevel) + rest, prefix, resolve) == Success(Parsed(Rename(q, prefix, resolve), rest))
    decreases q, if q.And? then 1 else 3, 0
  {
    if q.And? {
      AndLoopRender(q, 0, rest, prefix, resolve);
      assert q.conjuncts[..0] == [];
    } else {
      assert Render(q, AndLevel) == Render(q, CmpLevel);
      RoundTripCmp(q, rest, prefix, resolve);
    }
  }

  lemma {:induction false} RoundTripOr(q: Query, rest: seq<string>, prefix: string, resolve: Resolver)
    requires Printable(q) && Resolvable(q, prefix, resolve)
    requires !StartsWith(rest, "and") && !StartsWith(rest, "or")
    ensures ParseOrF(Render(q, OrLevel) + rest, prefix, resolve) == Success(Parsed(Rename(q, prefix, resolve), rest))
    decreases q, if q.Or? then 1 else 4, 0
  {
    if q.Or? {
      OrLoopRender(q, 0, rest, prefix, resolve);
      assert q.disjuncts[..0] == [];
    } else {
      assert Render(q, OrLevel) == Render(q, AndLevel);
      RoundTripAnd(q, rest, prefix, resolve);
    }
  }

  function RenameAll(qs: seq<Query>, prefix: string, resolve: Resolver): (r: seq<Query>)
    requires forall i :: 0 <= i < |qs| ==> Resolvable(qs[i], prefix, resolve)
    ensures |r| == |qs|
  {
    seq(|qs|, i requires 0 <= i < |qs| => Rename(qs[i], prefix, resolve))
  }

  lemma JoinUnfold(parts: seq<seq<string>>, sep: string, k: nat)
    requires k < |parts|
    ensures Join(parts[k..], sep) == if k + 1 < |parts| then parts[k] + [sep] + Join(parts[k + 1..], sep) else parts[k]
  {
    assert parts[k..][1..] == parts[k + 1..];
  }

  lemma {:induction false} AndLoopRender(q: Query, k: nat, rest: seq<string>, prefix: string, resolve: Resolver)
    requires q.And? && Printable(q) && Resolvable(q, prefix, resolve) && k < |q.conjuncts|
    requires !StartsWith(rest, "and")
    ensures AllCollapsed(RenameAll(q.conjuncts[..k], prefix, resolve))
    ensures AndLoop(RenameAll(q.conjuncts[..k], prefix, resolve), Join(Parts(q, CmpLevel)[k..], "and") + rest, prefix, resolve)
        == Success(Parsed(Rename(q, prefix, resolve), rest))
    decreases q, 0, |q.conjuncts| - k, 2
  {
    var cs := q.conjuncts;
    AndLoopHead(q, k, rest, prefix, resolve);
    if k + 1 < |cs| {
      AndLoopRender(q, k + 1, rest, prefix, resolve);
    } else {
      assert cs[..k + 1] == cs;
      RenameChildren(q, prefix, resolve);
    }
  }

  /** One turn of the AND loop over printed conjuncts: the k-th is parsed and added to the
      operands, then the loop goes on after the "and" or stops. */
  lemma AndLoopHead(q: Query, k: nat, rest: seq<string>, prefix: string, resolve: Resolver)
    requires q.And? && Printable(q) && Resolvable(q, prefix, resolve) && k < |q.conjuncts|
    requires !StartsWith(rest, "and")
    ensures AllCollapsed(RenameAll(q.conjuncts[..k], prefix, resolve))
    ensures AllCollapsed(RenameAll(q.conjuncts[..k + 1], prefix, resolve))
    ensures var acc := RenameAll(q.conjuncts[..k], prefix, resolve);
      AndLoop(acc, Join(Parts(q, CmpLevel)[k..], "and") + rest, prefix, resolve) ==
      if k + 1 < |q.conjuncts| then
        AndLoop(RenameAll(q.conjuncts[..k + 1], prefix, resolve), Join(Parts(q, CmpLevel)[k + 1..], "and") + rest, prefix, resolve)
      else Success(Parsed(Collapse(RenameAll(q.conjuncts[..k + 1], prefix, resolve), false), rest))
    decreases q, 0, |q.conjuncts| - k, 1
  {
    var cs, parts := q.conjuncts, Parts(q, CmpLevel);
    RenameAllCollapsed(cs[..k], prefix, resolve);
    RenameAllCollapsed(cs[..k + 1], prefix, resolve);
    RenameCollapsed(cs[k], prefix, resolve);
    RenameAllSnoc(cs, k, prefix, resolve);
    JoinUnfold(parts, "and", k);
    if k + 1 < |cs| {
      AndLoopMore(q, k, rest, prefix, resolve);
    } else {
      RoundTripCmp(cs[k], rest, prefix, resolve);
      AndLoopStep(RenameAll(cs[..k], prefix, resolve), parts[k] + rest, Rename(cs[k], prefix, resolve), rest, prefix, resolve);
    }
  }

  /** The AND loop turn when an "and" and another conjunct follow the k-th. */
  lemma AndLoopMore(q: Query, k: nat, rest: seq<string>, prefix: string, resolve: Resolver)
    requires q.And? && Printable(q) && Resolvable(q, prefix, resolve) && k + 1 < |q.conjuncts|
    requires AllCollapsed(RenameAll(q.conjuncts[..k], prefix, resolve))
    requires RenameAll(q.conjuncts[..k + 1], prefix, resolve) == RenameAll(q.conjuncts[..k], prefix, resolve) + [Rename(q.conjuncts[k], prefix, resolve)]
    requires Collapsed(Rename(q.conjuncts[k], prefix, resolve))
    ensures AndLoop(RenameAll(q.conjuncts[..k], prefix, resolve), Join(Parts(q, CmpLevel)[k..], "and") + rest, prefix, resolve) ==
      AndLoop(RenameAll(q.conjuncts[..k + 1], prefix, resolve), Join(Parts(q, CmpLevel)[k + 1..], "and") + rest, prefix, resolve)
    decreases q, 0, |q.conjuncts| - k, 0
  {
    var cs, parts := q.conjuncts, Parts(q, CmpLevel);
    JoinUnfold(parts, "and", k);
    KeywordFacts();
    var later := Join(parts[k + 1..], "and");
    var tail := ["and"] + (later + rest);
    assert Join(parts[k..], "and") + rest == parts[k] + tail;
    RoundTripCmp(cs[k], tail, prefix, resolve);
    AndLoopStep(RenameAll(cs[..k], prefix, resolve), parts[k] + tail, Rename(cs[k], prefix, resolve), tail, prefix, resolve);
    assert tail[0] == "and" && tail[1..] == later + rest;
  }

  lemma {:induction false} OrLoopRender(q: Query, k: nat, rest: seq<string>, prefix: string, resolve: Resolver)
    requires q.Or? && Printable(q) && Resolvable(q, prefix, resolve) && k < |q.disjuncts|
    requires !StartsWith(rest, "and") && !StartsWith(rest, "or")
    ensures AllCollapsed(RenameAll(q.disjuncts[..k], prefix, resolve))
    ensures OrLoop(RenameAll(q.disjuncts[..k], prefix, resolve), Join(Parts(q, AndLevel)[k..], "or") + rest, prefix, resolve)
        == Success(Parsed(Rename(q, prefix, resolve), rest))
    decreases q, 0, |q.disjuncts| - k, 2
  {
    var cs := q.disjuncts;
    OrLoopHead(q, k, rest, prefix, resolve);
    if k + 1 < |cs| {
      OrLoopRender(q, k + 1, rest, prefix, resolve);
    } else {
      assert cs[..k + 1] == cs;
      RenameChildren(q, prefix, resolve);
    }
  }

  /** One turn of the OR loop over printed disjuncts: the k-th is parsed and added to the
      operands, then the loop goes on after the "or" or stops. */
  lemma OrLoopHead(q: Query, k: nat, rest: seq<string>, prefix: string, resolve: Resolver)
    requires q.Or? && Printable(q) && Resolvable(q, prefix, resolve) && k < |q.disjuncts|
    requires !StartsWith(rest, "and") && !StartsWith(rest, "or")
    ensures AllCollapsed(RenameAll(q.disjuncts[..k], prefix, resolve))
    ensures AllCollapsed(RenameAll(q.disjuncts[..k + 1], prefix, resolve))
    ensures var acc := RenameAll(q.disjuncts[..k], prefix, resolve);
      OrLoop(acc, Join(Parts(q, AndLevel)[k..], "or") + rest, prefix, resolve) ==
      if k + 1 < |q.disjuncts| then
        OrLoop(RenameAll(q.disjuncts[..k + 1], prefix, resolve), Join(Parts(q, AndLevel)[k + 1..], "or") + rest, prefix, resolve)
      else Success(Parsed(Collapse(RenameAll(q.disjuncts[..k + 1], prefix, resolve), true), rest))
    decreases q, 0, |q.disjuncts| - k, 1
  {
    var cs, parts := q.disjuncts, Parts(q, AndLevel);
    RenameAllCollapsed(cs[..k], prefix, resolve);
    RenameAllCollapsed(cs[..k + 1], prefix, resolve);
    RenameCollapsed(cs[k], prefix, resolve);
    RenameAllSnoc(cs, k, prefix, resolve);
    JoinUnfold(parts, "or", k);
    if k + 1 < |cs| {
      OrLoopMore(q, k, rest, prefix, resolve);
    } else {
      RoundTripAnd(cs[k], rest, prefix, resolve);
      OrLoopStep(RenameAll(cs[..k], prefix, resolve), parts[k] + rest, Rename(cs[k], prefix, resolve), rest, prefix, resolve);
    }
  }

  /** The OR loop turn when an "or" and another disjunct follow the k-th. */
  lemma OrLoopMore(q: Query, k: nat, rest: seq<string>, prefix: string, resolve: Resolver)
    requires q.Or? && Printable(q) && Resolvable(q, prefix, resolve) && k + 1 < |q.disjuncts|
    requires AllCollapsed(RenameAll(q.disjuncts[..k], prefix, resolve))
    requires RenameAll(q.disjuncts[..k + 1], prefix, resolve) == RenameAll(q.disjuncts[..k], prefix, resolve) + [Rename(q.disjuncts[k], prefix, resolve)]
    requires Collapsed(Rename(q.disjuncts[k], prefix, resolve))
    ensures OrLoop(RenameAll(q.disjuncts[..k], prefix, resolve), Join(Parts(q, AndLevel)[k..], "or") + rest, prefix, resolve) ==
      OrLoop(RenameAll(q.disjuncts[..k + 1], prefix, resolve), Join(Parts(q, AndLevel)[k + 1..], "or") + rest, prefix, resolve)
    decreases q, 0, |q.disjuncts| - k, 0
  {
    var cs, parts := q.disjuncts, Parts(q, AndLevel);
    JoinUnfold(parts, "or", k);
    KeywordFacts();
    var later := Join(parts[k + 1..], "or");
    var tail := ["or"] + (later + rest);
    assert Join(parts[k..], "or") + rest == parts[k] + tail;
    RoundTripAnd(cs[k], tail, prefix, resolve);
    OrLoopStep(RenameAll(cs[..k], prefix, resolve), parts[k] + tail, Rename(cs[k], prefix, resolve), tail, prefix, resolve);
    assert tail[0] == "or" && tail[1..] == later + rest;
  }

  // ---------------------------------------------------------------------------
  // A field without a property stops the parse

  /** The first field of q, in print order, that has no property under prefix. */
  function MissingField(q: Query, prefix: string, resolve: Resolver): (r: Option<string>)
    ensures r.Some? ==> resolve(Key(prefix, r.value)).None?
    decreases q, 1
  {
    match q
    case Cmp(f, _, _) => if resolve(Key(prefix, f)).None? then Some(f) else None
    case _ => MissingFrom(q, 0, prefix, resolve)
  }

  /** The first field with no property among the children of q from the k-th on. */
  function MissingFrom(q: Query, k: nat, prefix: string, resolve: Resolver): (r: Option<string>)
    requires !q.Cmp?
    ensures r.Some? ==> resolve(Key(prefix, r.value)).None?
    decreases q, 0, (if q.And? then |q.conjuncts| else |q.disjuncts|) - k
  {
    var cs := if q.And? then q.conjuncts else q.disjuncts;
    if k >= |cs| then None
    else
      match MissingField(cs[k], prefix, resolve)
      case Some(f) => Some(f)
      case None => MissingFrom(q, k + 1, prefix, resolve)
  }

  /** A tree has a missing field exactly when it is not resolvable. */
  lemma {:induction false} MissingFieldResolvable(q: Query, prefix: string, resolve: Resolver)
    ensures MissingField(q, prefix, resolve).None? <==> Resolvable(q, prefix, resolve)
    decreases q, 1
  {
    if !q.Cmp? {
      MissingFromResolvable(q, 0, prefix, resolve);
    }
  }

  lemma {:induction false} MissingFromResolvable(q: Query, k: nat, prefix: string, resolve: Resolver)
    requires !q.Cmp?
    ensures var cs := if q.And? then q.conjuncts else q.disjuncts;
      MissingFrom(q, k, prefix, resolve).None? <==> forall j :: k <= j < |cs| ==> Resolvable(cs[j], prefix, resolve)
    decreases q, 0, (if q.And? then |q.conjuncts| else |q.disjuncts|) - k
  {
    var cs := if q.And? then q.conjuncts else q.disjuncts;
    if k < |cs| {
      MissingFieldResolvable(cs[k], prefix, resolve);
      MissingFromResolvable(q, k + 1, prefix, resolve);
    }
  }

  /** A printed comparison or group with a missing field fails naming that field, whatever
      follows. */
  lemma {:induction false} FailCmp(q: Query, rest: seq<string>, prefix: string, resolve: Resolver)
    requires Printable(q) && MissingField(q, prefix, resolve).Some?
    ensures ParseCmpF(Render(q, CmpLevel) + rest, prefix, resolve) ==
            Failure(BadRequest(FilterFieldMessage(MissingField(q, prefix, resolve).value)))
    decreases q, if q.Cmp? then 0 else if q.Or? then 2 else 5, 0
  {
    var ts := Render(q, CmpLevel) + rest;
    match q
    case Cmp(f, op, v) =>
      WordIsNotKeyword(f, "(");
      assert ts[0] == f;
    case _ =>
      KeywordFacts();
      assert ts[1..] == Render(q, OrLevel) + ([")"] + rest);
      FailOr(q, [")"] + rest, prefix, resolve);
  }

  lemma {:induction false} FailAnd(q: Query, rest: seq<string>, prefix: string, resolve: Resolver)
    requires Printable(q) && MissingField(q, prefix, resolve).Some?
    ensures ParseAndF(Render(q, AndLevel) + rest, prefix, resolve) ==
            Failure(BadRequest(FilterFieldMessage(MissingField(q, prefix, resolve).value)))
    decreases q, if q.And? then 1 else 3, 0
  {
    if q.And? {
      AndLoopFail(q, 0, [], rest, prefix, resolve);
    } else {
      assert Render(q, AndLevel) == Render(q, CmpLevel);
      FailCmp(q, rest, prefix, resolve);
      AndLoopFailStep([], Render(q, CmpLevel) + rest, prefix, resolve);
    }
  }

  lemma {:induction false} FailOr(q: Query, rest: seq<string>, prefix: string, resolve: Resolver)
    requires Printable(q) && MissingField(q, prefix, resolve).Some?
    ensures ParseOrF(Render(q, OrLevel) + rest, prefix, resolve) ==
            Failure(BadRequest(FilterFieldMessage(MissingField(q, prefix, resolve).value)))
    decreases q, if q.Or? then 1 else 4, 0
  {
    if q.Or? {
      OrLoopFail(q, 0, [], rest, prefix, resolve);
    } else {
      assert Render(q, OrLevel) == Render(q, AndLevel);
      FailAnd(q, rest, prefix, resolve);
      OrLoopFailStep([], Render(q, AndLevel) + rest, prefix, resolve);
    }
  }

  /** From the k-th printed conjunct on, the AND loop fails at the first missing field,
      after parsing the conjuncts before it. */
  lemma {:induction false} AndLoopFail(q: Query, k: nat, acc: seq<Query>, rest: seq<string>, prefix: string, resolve: Resolver)
    requires q.And? && Printable(q) && k < |q.conjuncts| && AllCollapsed(acc)
    requires MissingFrom(q, k, prefix, resolve).Some?
    ensures AndLoop(acc, Join(Parts(q, CmpLevel)[k..], "and") + rest, prefix, resolve) ==
            Failure(BadRequest(FilterFieldMessage(MissingFrom(q, k, prefix, resolve).value)))
    decreases q, 0, |q.conjuncts| - k, 1
  {
    var cs := q.conjuncts;
    if MissingField(cs[k], prefix, resolve).Some? {
      AndLoopMiss(q, k, acc, rest, prefix, resolve);
    } else {
      MissingFieldResolvable(cs[k], prefix, resolve);
      AndLoopPass(q, k, acc, rest, prefix, resolve);
      AndLoopFail(q, k + 1, acc + [Rename(cs[k], prefix, resolve)], rest, prefix, resolve);
    }
  }

  /** The k-th conjunct has a missing field: the AND loop fails on it. */
  lemma AndLoopMiss(q: Query, k: nat, acc: seq<Query>, rest: seq<string>, prefix: string, resolve: Resolver)
    requires q.And? && Printable(q) && k < |q.conjuncts| && AllCollapsed(acc)
    requires MissingField(q.conjuncts[k], prefix, resolve).Some?
    ensures AndLoop(acc, Join(Parts(q, CmpLevel)[k..], "and") + rest, prefix, resolve) ==
            Failure(BadRequest(FilterFieldMessage(MissingField(q.conjuncts[k], prefix, resolve).value)))
    decreases q, 0, |q.conjuncts| - k, 0
  {
    var cs, parts := q.conjuncts, Parts(q, CmpLevel);
    JoinUnfold(parts, "and", k);
    var tail := rest;
    if k + 1 < |cs| {
      tail := ["and"] + (Join(parts[k + 1..], "and") + rest);
    }
    assert Join(parts[k..], "and") + rest == parts[k] + tail;
    FailCmp(cs[k], tail, prefix, resolve);
    AndLoopFailStep(acc, parts[k] + tail, prefix, resolve);
  }

  /** A resolvable k-th conjunct followed by "and" is parsed and the loop goes on. */
  lemma AndLoopPass(q: Query, k: nat, acc: seq<Query>, rest: seq<string>, prefix: string, resolve: Resolver)
    requires q.And? && Printable(q) && k + 1 < |q.conjuncts| && AllCollapsed(acc)
    requires Resolvable(q.conjuncts[k], prefix, resolve)
    ensures AllCollapsed(acc + [Rename(q.conjuncts[k], prefix, resolve)])
    ensures AndLoop(acc, Join(Parts(q, CmpLevel)[k..], "and") + rest, prefix, resolve) ==
            AndLoop(acc + [Rename(q.conjuncts[k], prefix, resolve)], Join(Parts(q, CmpLevel)[k + 1..], "and") + rest, prefix, resolve)
  {
    var cs, parts := q.conjuncts, Parts(q, CmpLevel);
    JoinUnfold(parts, "and", k);
    var later := Join(parts[k + 1..], "and");
    var tail := ["and"] + (later + rest);
    assert Join(parts[k..], "and") + rest == parts[k] + tail;
    var head := Rename(cs[k], prefix, resolve);
    RoundTripCmp(cs[k], tail, prefix, resolve);
    RenameCollapsed(cs[k], prefix, resolve);
    KeywordFacts();
    AndLoopStep(acc, parts[k] + tail, head, tail, prefix, resolve);
    assert tail[1..] == later + rest;
  }

  lemma {:induction false} OrLoopFail(q: Query, k: nat, acc: seq<Query>, rest: seq<string>, prefix: string, resolve: Resolver)
    requires q.Or? && Printable(q) && k < |q.disjuncts| && AllCollapsed(acc)
    requires MissingFrom(q, k, prefix, resolve).Some?
    ensures OrLoop(acc, Join(Parts(q, AndLevel)[k..], "or") + rest, prefix, resolve) ==
            Failure(BadRequest(FilterFieldMessage(MissingFrom(q, k, prefix, resolve).value)))
    decreases q, 0, |q.disjuncts| - k, 1
  {
    var cs := q.disjuncts;
    if MissingField(cs[k], prefix, resolve).Some? {
      OrLoopMiss(q, k, acc, rest, prefix, resolve);
    } else {
      MissingFieldResolvable(cs[k], prefix, resolve);
      OrLoopPass(q, k, acc, rest, prefix, resolve);
      OrLoopFail(q, k + 1, acc + [Rename(cs[k], prefix, resolve)], rest, prefix, resolve);
    }
  }

  lemma OrLoopMiss(q: Query, k: nat, acc: seq<Query>, rest: seq<string>, prefix: string, resolve: Resolver)
    requires q.Or? && Printable(q) && k < |q.disjuncts| && AllCollapsed(acc)
    requires MissingField(q.disjuncts[k], prefix, resolve).Some?
    ensures OrLoop(acc, Join(Parts(q, AndLevel)[k..], "or") + rest, prefix, resolve) ==
            Failure(BadRequest(FilterFieldMessage(MissingField(q.disjuncts[k], prefix, resolve).value)))
    decreases q, 0, |q.disjuncts| - k, 0
  {
    var cs, parts := q.disjuncts, Parts(q, AndLevel);
    JoinUnfold(parts, "or", k);
    var tail := rest;
    if k + 1 < |cs| {
      tail := ["or"] + (Join(parts[k + 1..], "or") + rest);
    }
    assert Join(parts[k..], "or") + rest == parts[k] + tail;
    FailAnd(cs[k], tail, prefix, resolve);
    OrLoopFailStep(acc, parts[k] + tail, prefix, resolve);
  }

  lemma OrLoopPass(q: Query, k: nat, acc: seq<Query>, rest: seq<string>, prefix: string, resolve: Resolver)
    requires q.Or? && Printable(q) && k + 1 < |q.disjuncts| && AllCollapsed(acc)
    requires Resolvable(q.disjuncts[k], prefix, resolve)
    ensures AllCollapsed(acc + [Rename(q.disjuncts[k], prefix, resolve)])
    ensures OrLoop(acc, Join(Parts(q, AndLevel)[k..], "or") + rest, prefix, resolve) ==
            OrLoop(acc + [Rename(q.disjuncts[k], prefix, resolve)], Join(Parts(q, AndLevel)[k + 1..], "or") + rest, prefix, resolve)
  {
    var cs, parts := q.disjuncts, Parts(q, AndLevel);
    JoinUnfold(parts, "or", k);
    var later := Join(parts[k + 1..], "or");
    var tail := ["or"] + (later + rest);
    assert Join(parts[k..], "or") + rest == parts[k] + tail;
    var head := Rename(cs[k], prefix, resolve);
    KeywordFacts();
    RoundTripAnd(cs[k], tail, prefix, resolve);
    RenameCollapsed(cs[k], prefix, resolve);
    OrLoopStep(acc, parts[k] + tail, head, tail, prefix, resolve);
    assert tail[1..] == later + rest;
  }

  /** The failure half of the round trip: a printed filter with a field that has no
      property is a bad request naming the first such field in print order, whatever
      follows. */
  lemma UnresolvedFails(q: Query, rest: seq<string>, prefix: string, resolve: Resolver)
    requires Printable(q) && !Resolvable(q, prefix, resolve)
    ensures MissingField(q, prefix, resolve).Some?
    ensures ParseOrF(Render(q, OrLevel) + rest, prefix, resolve) ==
            Failure(BadRequest(FilterFieldMessage(MissingField(q, prefix, resolve).value)))
  {
    MissingFieldResolvable(q, prefix, resolve);
    FailOr(q, rest, prefix, resolve);
  }

  // ---------------------------------------------------------------------------
  // Printed tokens survive the tokenizer

  lemma WordClosed(t: string)
    requires Word(t)
    ensures ClosedWord(t)
  {
    PlainMeaning(t);
    QuoteFree(t);
  }

  lemma QuotedClosed(s: string)
    requires '\'' !in s
    ensures ClosedWord("'" + s + "'")
  {
    var t := "'" + s + "'";
    QuoteFree(s);
    forall k | 0 <= k < |t| && IsSeparator(t[k]) ensures OpenQuote(t[..k]) {
      assert 1 <= k <= |s|;
      assert t[..k] == "'" + s[..k - 1];
      QuoteFree(s[..k - 1]);
      QuoteCountAppend("'", s[..k - 1]);
    }
    PlainMeaning(t);
    QuoteCountAppend("'" + s, "'");
    QuoteCountAppend("'", s);
  }

  predicate AllClosed(ts: seq<string>) {
    forall i :: 0 <= i < |ts| ==> ClosedToken(ts[i])
  }

  lemma {:induction false} JoinClosed(parts: seq<seq<string>>, sep: string)
    requires forall i :: 0 <= i < |parts| ==> AllClosed(parts[i])
    requires ClosedToken(sep)
    ensures AllClosed(Join(parts, sep))
  {
    if |parts| > 1 {
      JoinClosed(parts[1..], sep);
    }
  }

  lemma KeywordsClosed()
    ensures ClosedToken("(") && ClosedToken(")") && ClosedToken("and") && ClosedToken("or")
    ensures forall o: Op :: ClosedToken(OperatorText(o))
  {
    WordClosed("and");
    WordClosed("or");
    forall o: Op ensures ClosedToken(OperatorText(o)) {
      WordClosed(OperatorText(o));
    }
  }

  /** Every token the printer emits is a single ( or ) or a closed word, so the printed
      filter can be written out with spaces and tokenized back. */
  lemma {:induction false} RenderClosed(q: Query, lvl: Level)
    requires Printable(q)
    ensures AllClosed(Render(q, lvl))
    decreases q, Rank(lvl)
  {
    KeywordsClosed();
    match q
    case Cmp(f, op, v) =>
      WordClosed(f);
      match v {
        case Str(s) => QuotedClosed(s);
        case Num(t) => WordClosed(t);
      }
    case And(cs) =>
      if lvl == CmpLevel {
        RenderClosed(q, OrLevel);
      } else {
        forall i | 0 <= i < |cs| ensures AllClosed(Parts(q, CmpLevel)[i]) {
          RenderClosed(cs[i], CmpLevel);
        }
        JoinClosed(Parts(q, CmpLevel), "and");
      }
    case Or(cs) =>
      if lvl != OrLevel {
        RenderClosed(q, OrLevel);
      } else {
        forall i | 0 <= i < |cs| ensures AllClosed(Parts(q, AndLevel)[i]) {
          RenderClosed(cs[i], AndLevel);
        }
        JoinClosed(Parts(q, AndLevel), "or");
      }
  }

  // ---------------------------------------------------------------------------
  // Precedence and keywords, on concrete filters

  /** "or" is recognised in any letter case, like every keyword consume() looks for. */
  lemma OrKeywordAnyCase(q1: Query, q2: Query, kw: string, prefix: string, resolve: Resolver)
    requires Printable(q1) && Resolvable(q1, prefix, resolve)
    requires Printable(q2) && Resolvable(q2, prefix, resolve)
    requires EqualsIgnoreCase(kw, "or")
    ensures ParseOrF(Render(q1, AndLevel) + [kw] + Render(q2, AndLevel), prefix, resolve) ==
            Success(Parsed(Or([Rename(q1, prefix, resolve), Rename(q2, prefix, resolve)]), []))
  {
    OrKeywordFirst(q1, Render(q2, AndLevel), kw, prefix, resolve);
    OrKeywordSecond(Rename(q1, prefix, resolve), q2, prefix, resolve);
  }

  /** The first disjunct is parsed and the loop goes on after the keyword. */
  lemma OrKeywordFirst(q1: Query, r2: seq<string>, kw: string, prefix: string, resolve: Resolver)
    requires Printable(q1) && Resolvable(q1, prefix, resolve)
    requires EqualsIgnoreCase(kw, "or")
    ensures Collapsed(Rename(q1, prefix, resolve))
    ensures ParseOrF(Render(q1, AndLevel) + [kw] + r2, prefix, resolve) ==
            OrLoop([Rename(q1, prefix, resolve)], r2, prefix, resolve)
  {
    var r1, n1 := Render(q1, AndLevel), Rename(q1, prefix, resolve);
    var after := [kw] + r2;
    assert !StartsWith(after, "and");
    RoundTripAnd(q1, after, prefix, resolve);
    assert r1 + [kw] + r2 == r1 + after;
    RenameCollapsed(q1, prefix, resolve);
    OrLoopStep([], r1 + after, n1, after, prefix, resolve);
    assert after[1..] == r2 && [] + [n1] == [n1];
  }

  /** The last disjunct is parsed and the loop ends with the two-child disjunction. */
  lemma OrKeywordSecond(n1: Query, q2: Query, prefix: string, resolve: Resolver)
    requires Collapsed(n1) && Printable(q2) && Resolvable(q2, prefix, resolve)
    ensures OrLoop([n1], Render(q2, AndLevel), prefix, resolve) ==
            Success(Parsed(Or([n1, Rename(q2, prefix, resolve)]), []))
  {
    var r2, n2 := Render(q2, AndLevel), Rename(q2, prefix, resolve);
    KeywordFacts();
    RoundTripAnd(q2, [], prefix, resolve);
    assert r2 + [] == r2;
    RenameCollapsed(q2, prefix, resolve);
    OrLoopStep([n1], r2, n2, [], prefix, resolve);
    assert [n1] + [n2] == [n1, n2];
  }

  /** "and" is recognised in any letter case as well. */
  lemma {:induction false} AndKeywordAnyCase(q1: Query, q2: Query, kw: string, prefix: string, resolve: Resolver)
    requires Printable(q1) && Resolvable(q1, prefix, resolve)
    requires Printable(q2) && Resolvable(q2, prefix, resolve)
    requires EqualsIgnoreCase(kw, "and")
    ensures ParseAndF(Render(q1, CmpLevel) + [kw] + Render(q2, CmpLevel), prefix, resolve) ==
            Success(Parsed(And([Rename(q1, prefix, resolve), Rename(q2, prefix, resolve)]), []))
  {
    var r1, r2 := Render(q1, CmpLevel), Render(q2, CmpLevel);
    var n1, n2 := Rename(q1, prefix, resolve), Rename(q2, prefix, resolve);
    var after := [kw] + r2;
    RoundTripCmp(q1, after, prefix, resolve);
    assert r1 + [kw] + r2 == r1 + after;
    RenameCollapsed(q1, prefix, resolve);
    RenameCollapsed(q2, prefix, resolve);
    AndLoopStep([], r1 + after, n1, after, prefix, resolve);
    assert after[1..] == r2 && r2 + [] == r2;
    RoundTripCmp(q2, [], prefix, resolve);
    assert [] + [n1] == [n1] && [n1] + [n2] == [n1, n2];
    AndLoopStep([n1], r2, n2, [], prefix, resolve);
  }

  lemma UngroupedRender(a: Query, b: Query, c: Query)
    requires a.Cmp? && b.Cmp? && c.Cmp?
    ensures Render(Or([a, And([b, c])]), OrLevel) ==
            Render(a, CmpLevel) + ["or"] + Render(b, CmpLevel) + ["and"] + Render(c, CmpLevel)
  {
    var bc := And([b, c]);
    var q := Or([a, bc]);
    var ra, rb, rc := Render(a, CmpLevel), Render(b, CmpLevel), Render(c, CmpLevel);
    assert Parts(bc, CmpLevel) == [rb, rc];
    assert Join([rc], "and") == rc;
    assert Render(bc, AndLevel) == rb + ["and"] + rc;
    assert Parts(q, AndLevel) == [ra, rb + ["and"] + rc];
    assert Join([rb + ["and"] + rc], "or") == rb + ["and"] + rc;
  }

  /** For any three comparisons a, b, c: "a or b and c" groups as a or (b and c). */
  lemma AndBindsTighter(a: Query, b: Query, c: Query, prefix: string, resolve: Resolver)
    requires a.Cmp? && Printable(a) && Resolvable(a, prefix, resolve)
    requires b.Cmp? && Printable(b) && Resolvable(b, prefix, resolve)
    requires c.Cmp? && Printable(c) && Resolvable(c, prefix, resolve)
    ensures ParseOrF(Render(a, CmpLevel) + ["or"] + Render(b, CmpLevel) + ["and"] + Render(c, CmpLevel), prefix, resolve) ==
      Success(Parsed(Or([Rename(a, prefix, resolve),
                         And([Rename(b, prefix, resolve), Rename(c, prefix, resolve)])]), []))
  {
    var q := Or([a, And([b, c])]);
    UngroupedRender(a, b, c);
    UngroupedRename(a, b, c, prefix, resolve);
    RoundTripOr(q, [], prefix, resolve);
    assert Render(q, OrLevel) + [] == Render(q, OrLevel);
  }

  lemma UngroupedRename(a: Query, b: Query, c: Query, prefix: string, resolve: Resolver)
    requires Printable(a) && Resolvable(a, prefix, resolve)
    requires Printable(b) && Resolvable(b, prefix, resolve)
    requires Printable(c) && Resolvable(c, prefix, resolve)
    ensures Printable(Or([a, And([b, c])])) && Resolvable(Or([a, And([b, c])]), prefix, resolve)
    ensures Rename(Or([a, And([b, c])]), prefix, resolve) ==
      Or([Rename(a, prefix, resolve), And([Rename(b, prefix, resolve), Rename(c, prefix, resolve)])])
  {
    var bc := And([b, c]);
    var q := Or([a, bc]);
    assert Printable(bc) && Resolvable(bc, prefix, resolve);
    assert Rename(bc, prefix, resolve) == And([Rename(b, prefix, resolve), Rename(c, prefix, resolve)]);
    assert Rename(q, prefix, resolve) == Or([Rename(a, prefix, resolve), Rename(bc, prefix, resolve)]);
  }

  lemma GroupedRender(a: Query, b: Query, c: Query)
    requires a.Cmp? && b.Cmp? && c.Cmp?
    ensures Render(And([Or([a, b]), c]), OrLevel) ==
            ["("] + Render(a, CmpLevel) + ["or"] + Render(b, CmpLevel) + [")", "and"] + Render(c, CmpLevel)
  {
    var ab := Or([a, b]);
    var q := And([ab, c]);
    var ra, rb, rc := Render(a, CmpLevel), Render(b, CmpLevel), Render(c, CmpLevel);
    assert Parts(ab, AndLevel) == [ra, rb];
    assert Join([rb], "or") == rb;
    assert Render(ab, OrLevel) == ra + ["or"] + rb;
    assert Render(ab, CmpLevel) == ["("] + ra + ["or"] + rb + [")"];
    assert Parts(q, CmpLevel) == [["("] + ra + ["or"] + rb + [")"], rc];
    assert Join([rc], "and") == rc;
  }

  /** Parentheses override precedence: "( a or b ) and c" is (a or b) and c. */
  lemma ParenthesesGroup(a: Query, b: Query, c: Query, prefix: string, resolve: Resolver)
    requires a.Cmp? && Printable(a) && Resolvable(a, prefix, resolve)
    requires b.Cmp? && Printable(b) && Resolvable(b, prefix, resolve)
    requires c.Cmp? && Printable(c) && Resolvable(c, prefix, resolve)
    ensures ParseOrF(["("] + Render(a, CmpLevel) + ["or"] + Render(b, CmpLevel) + [")", "and"] + Render(c, CmpLevel),
                     prefix, resolve) ==
      Success(Parsed(And([Or([Rename(a, prefix, resolve), Rename(b, prefix, resolve)]),
                          Rename(c, prefix, resolve)]), []))
  {
    var ab := Or([a, b]);
    var q := And([ab, c]);
    var ts := Render(q, OrLevel);
    GroupedRender(a, b, c);
    assert Printable(ab) && Resolvable(ab, prefix, resolve);
    assert Printable(q) && Resolvable(q, prefix, resolve);
    RoundTripOr(q, [], prefix, resolve);
    assert ts + [] == ts;
    assert Rename(ab, prefix, resolve) == Or([Rename(a, prefix, resolve), Rename(b, prefix, resolve)]);
    assert Rename(q, prefix, resolve) == And([Rename(ab, prefix, resolve), Rename(c, prefix, resolve)]);
  }
}
