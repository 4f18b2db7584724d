/** Lowering of a parsed filter to the Elasticsearch query object that
    parseComparisonExpr, parseAndExpr and parseOrExpr build. */
module Dsl {
  import opened Syntax
  import opened Json

  function LiteralJson(v: Literal): Json {
    match v
    case Str(s) => JString(s)
    case Num(t) => JNumber(t)
  }

  function Single(key: string, value: Json): Json {
    JObject(map[key := value])
  }

  /** The range bound key of an ordering operator. */
  function RangeKey(o: Op): string
    requires o != Eq && o != Ne
  {
    match o
    case Gt => "gt"
    case Ge => "gte"
    case Lt => "lt"
    case Le => "lte"
  }

  /** The members of the query object for q: eq is match_phrase, ne is
      bool.must_not.match_phrase, the orderings are a range on the field, a conjunction is
      bool.must and a disjunction bool.should over the children in order. Every node is an
      object with one key. */
  function Node(q: Query): (r: map<string, Json>)
    ensures |r| == 1
    ensures r.Keys == {"match_phrase"} || r.Keys == {"bool"} || r.Keys == {"range"}
  {
    match q
    case Cmp(field, op, v) =>
      (match op
       case Eq => map["match_phrase" := Single(field, LiteralJson(v))]
       case Ne => map["bool" := Single("must_not", Single("match_phrase", Single(field, LiteralJson(v))))]
       case _ => map["range" := Single(field, Single(RangeKey(op), LiteralJson(v)))])
    case And(cs) =>
      map["bool" := Single("must", JArray(seq(|cs|, i requires 0 <= i < |cs| => JObject(Node(cs[i])))))]
    case Or(cs) =>
      map["bool" := Single("should", JArray(seq(|cs|, i requires 0 <= i < |cs| => JObject(Node(cs[i])))))]
  }

  lemma SingleInjective(k1: string, v1: Json, k2: string, v2: Json)
    requires Single(k1, v1) == Single(k2, v2)
    ensures k1 == k2 && v1 == v2
  {
    assert k1 in Single(k2, v2).members;
  }

  /** Different filters give different documents: the query object determines the
      comparison, operator, field, literal and the combinator tree it was built from. */
  lemma {:induction false} NodeInjective(q1: Query, q2: Query)
    requires Node(q1) == Node(q2)
    ensures q1 == q2
    decreases q1, 1
  {
    match q1 {
      case Cmp(_, _, _) =>
        match q2 {
          case Cmp(_, _, _) => CmpInjective(q1, q2);
          case And(cs) => assert "bool" in Node(q1); CmpNotCombinator(q1, "must", cs);
          case Or(cs) => assert "bool" in Node(q1); CmpNotCombinator(q1, "should", cs);
        }
      case And(cs1) =>
        match q2 {
          case Cmp(_, _, _) => assert "bool" in Node(q2); CmpNotCombinator(q2, "must", cs1);
          case And(cs2) => ChildrenInjective(q1, q2, cs1, cs2, "must");
          case Or(cs2) =>
            SingleInjective("must", Node(q1)["bool"].members["must"], "should", Node(q2)["bool"].members["should"]);
        }
      case Or(cs1) =>
        match q2 {
          case Cmp(_, _, _) => assert "bool" in Node(q2); CmpNotCombinator(q2, "should", cs1);
          case And(cs2) =>
            SingleInjective("should", Node(q1)["bool"].members["should"], "must", Node(q2)["bool"].members["must"]);
          case Or(cs2) => ChildrenInjective(q1, q2, cs1, cs2, "should");
        }
    }
  }

  lemma CmpInjective(q1: Query, q2: Query)
    requires q1.Cmp? && q2.Cmp? && Node(q1) == Node(q2)
    ensures q1 == q2
  {
    var v1, v2 := LiteralJson(q1.value), LiteralJson(q2.value);
    match q1.op
    case Eq =>
      assert "match_phrase" in Node(q2);
      assert q2.op == Eq;
      SingleInjective(q1.field, v1, q2.field, v2);
    case Ne =>
      assert "bool" in Node(q2);
      assert q2.op == Ne;
      SingleInjective(q1.field, v1, q2.field, v2);
    case _ =>
      assert "range" in Node(q2);
      assert q2.op != Eq && q2.op != Ne;
      SingleInjective(q1.field, Single(RangeKey(q1.op), v1), q2.field, Single(RangeKey(q2.op), v2));
      SingleInjective(RangeKey(q1.op), v1, RangeKey(q2.op), v2);
  }

  lemma CmpNotCombinator(q: Query, key: string, cs: seq<Query>)
    requires q.Cmp? && key in {"must", "should"} && "bool" in Node(q)
    ensures Node(q)["bool"] != Single(key, JArray(seq(|cs|, i requires 0 <= i < |cs| => JObject(Node(cs[i])))))
  {
    if Node(q)["bool"] == Single(key, JArray(seq(|cs|, i requires 0 <= i < |cs| => JObject(Node(cs[i]))))) {
      assert q.op == Ne;
      SingleInjective("must_not", Single("match_phrase", Single(q.field, LiteralJson(q.value))),
        key, JArray(seq(|cs|, i requires 0 <= i < |cs| => JObject(Node(cs[i])))));
    }
  }

  lemma {:induction false} ChildrenInjective(q1: Query, q2: Query, cs1: seq<Query>, cs2: seq<Query>, key: string)
    requires (q1 == And(cs1) && q2 == And(cs2) && key == "must") || (q1 == Or(cs1) && q2 == Or(cs2) && key == "should")
    requires Node(q1) == Node(q2)
    ensures cs1 == cs2
    decreases q1, 0
  {
    var a1 := seq(|cs1|, i requires 0 <= i < |cs1| => JObject(Node(cs1[i])));
    var a2 := seq(|cs2|, i requires 0 <= i < |cs2| => JObject(Node(cs2[i])));
    SingleInjective(key, JArray(a1), key, JArray(a2));
    assert |cs1| == |cs2|;
    forall i | 0 <= i < |cs1| ensures cs1[i] == cs2[i] {
      assert a1[i] == a2[i];
      NodeInjective(cs1[i], cs2[i]);
    }
  }
}
