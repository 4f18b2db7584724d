/** The filter language's abstract syntax, the field resolver it consults and the
    failures the transform can raise. */
module Syntax {
  import opened Wrappers

  /** The six comparison operators of the switch in parseComparisonExpr. */
  datatype Op = Eq | Ne | Gt | Ge | Lt | Le

  /** A literal after coercion by nextValue: a string, or a number that keeps the token
      it was parsed from. */
  datatype Literal = Str(s: string) | Num(text: string)

  /** A parsed filter: a comparison, or a conjunction or disjunction of sub-filters in
      parse order. */
  datatype Query =
    | Cmp(field: string, op: Op, value: Literal)
    | And(conjuncts: seq<Query>)
    | Or(disjuncts: seq<Query>)

  /** The Java exceptions that are not ModuleExceptions; each becomes an internal error. */
  datatype Cause =
    | EndOfInput                            // IllegalStateException from next/nextValue
    | UnsupportedOperator(op: string)       // IllegalArgumentException from the switch
    | SubstringOutOfRange(token: string)    // StringIndexOutOfBoundsException on "'"

  /** What a parse or options step can fail with: a ModuleException raised as
      BAD_REQUEST, or some other exception. */
  datatype Fault = BadRequest(message: string) | Unexpected(cause: Cause)

  /** The configuration-property lookup: a full property name to its value, if any. */
  type Resolver = string -> Option<string>

  /** The property name a logical field is looked up under. */
  function Key(prefix: string, name: string): string {
    prefix + "." + name
  }

  function FilterFieldMessage(name: string): string {
    "Invalid filter field '" + name + "'. Please check if its correct/present in YAML file"
  }

  function SelectFieldMessage(name: string): string {
    "Invalid select field '" + name + "'. Please check if its correct/present in YAML file"
  }

  function OperatorText(o: Op): string {
    match o
    case Eq => "eq"
    case Ne => "ne"
    case Gt => "gt"
    case Ge => "ge"
    case Lt => "lt"
    case Le => "le"
  }

  /** The case-sensitive switch on the operator token. */
  function ParseOperator(s: string): (r: Option<Op>)
    ensures r.Some? ==> OperatorText(r.value) == s
    ensures r.None? <==> forall o: Op :: OperatorText(o) != s
  {
    if s == "eq" then Some(Eq)
    else if s == "ne" then Some(Ne)
    else if s == "gt" then Some(Gt)
    else if s == "ge" then Some(Ge)
    else if s == "lt" then Some(Lt)
    else if s == "le" then Some(Le)
    else None
  }

  /** No combinator has fewer than two children: one operand is always returned
      unwrapped. */
  predicate Collapsed(q: Query) {
    match q
    case Cmp(_, _, _) => true
    case And(cs) => |cs| >= 2 && forall i :: 0 <= i < |cs| ==> Collapsed(cs[i])
    case Or(cs) => |cs| >= 2 && forall i :: 0 <= i < |cs| ==> Collapsed(cs[i])
  }
}
