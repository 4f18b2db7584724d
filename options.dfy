/** applyOptions: adds _source.includes, size and from to the query object and wraps it
    as the value of "query". */
module Options {
  import opened Wrappers
  import opened JavaText
  import opened Syntax
  import opened Json

  /** Java's 32-bit int, the type of top and offset. */
  newtype int32 = x: int | -0x8000_0000 <= x < 0x8000_0000

  predicate Resolves(prefix: string, resolve: Resolver, field: string) {
    resolve(Key(prefix, field)).Some?
  }

  /** Resolves the select fields in order and stops at the first that has no property. */
  function ResolveAll(fields: seq<string>, prefix: string, resolve: Resolver): (r: Result<seq<string>, Fault>)
    ensures r.Success? <==> forall i :: 0 <= i < |fields| ==> Resolves(prefix, resolve, fields[i])
    ensures r.Success? ==>
      && |r.value| == |fields|
      && forall i :: 0 <= i < |fields| ==> resolve(Key(prefix, fields[i])) == Some(r.value[i])
    ensures r.Failure? ==>
      exists i :: FirstMiss(fields, prefix, resolve, i) && r.error == BadRequest(SelectFieldMessage(fields[i]))
  {
    if fields == [] then Success([])
    else
      var init, last := fields[..|fields| - 1], fields[|fields| - 1];
      assert forall i :: 0 <= i < |init| ==> init[i] == fields[i];
      match ResolveAll(init, prefix, resolve)
      case Failure(f) =>
        var i :| FirstMiss(init, prefix, resolve, i) && f == BadRequest(SelectFieldMessage(init[i]));
        assert FirstMiss(fields, prefix, resolve, i);
        Failure(f)
      case Success(names) =>
        match resolve(Key(prefix, last))
        case None =>
          assert FirstMiss(fields, prefix, resolve, |fields| - 1);
          Failure(BadRequest(SelectFieldMessage(last)))
        case Some(name) => Success(names + [name])
  }

  /** Field i is the first of the fields that does not resolve. */
  predicate FirstMiss(fields: seq<string>, prefix: string, resolve: Resolver, i: int) {
    && 0 <= i < |fields|
    && !Resolves(prefix, resolve, fields[i])
    && forall j :: 0 <= j < i ==> Resolves(prefix, resolve, fields[j])
  }

  /** The includes list: the select text as it is when it is "*", otherwise its
      comma-separated fields resolved. */
  function Includes(select: string, prefix: string, resolve: Resolver): Result<seq<string>, Fault> {
    if select == "*" then Success(Split(select)) else ResolveAll(Split(select), prefix, resolve)
  }

  function Source(names: seq<string>): Json {
    JObject(map["includes" := JArray(seq(|names|, i requires 0 <= i < |names| => JString(names[i])))])
  }

  /** The document applyOptions returns: one key, "query", whose object is the query object
      with _source, and size and from when given, added and every other member kept. */
  function Envelope(query: map<string, Json>, names: seq<string>, top: Option<int32>, offset: Option<int32>): (r: Json)
    ensures r.JObject? && r.members.Keys == {"query"} && r.members["query"].JObject?
    ensures var inner := r.members["query"].members;
      && inner.Keys == query.Keys + {"_source"} + (if top.Some? then {"size"} else {}) + (if offset.Some? then {"from"} else {})
      && inner["_source"] == Source(names)
      && (top.Some? ==> inner["size"] == JInt(top.value as int))
      && (offset.Some? ==> inner["from"] == JInt(offset.value as int))
      && forall k :: k in query && k != "_source" && (top.Some? ==> k != "size") && (offset.Some? ==> k != "from") ==> inner[k] == query[k]
  {
    var withSource := query["_source" := Source(names)];
    var withSize := if top.Some? then withSource["size" := JInt(top.value as int)] else withSource;
    var withFrom := if offset.Some? then withSize["from" := JInt(offset.value as int)] else withSize;
    JObject(map["query" := JObject(withFrom)])
  }

  function ApplyOptionsF(query: map<string, Json>, select: string, top: Option<int32>, offset: Option<int32>,
                         prefix: string, resolve: Resolver): Result<Json, Fault> {
    match Includes(select, prefix, resolve)
    case Failure(f) => Failure(f)
    case Success(names) => Success(Envelope(query, names, top, offset))
  }

  /** A failure on a prefix of the fields is the failure on all of them. */
  lemma {:induction false} ResolveAllPrefixFailure(fields: seq<string>, k: nat, prefix: string, resolve: Resolver)
    requires k <= |fields| && ResolveAll(fields[..k], prefix, resolve).Failure?
    ensures ResolveAll(fields, prefix, resolve) == ResolveAll(fields[..k], prefix, resolve)
  {
    if k == |fields| {
      assert fields[..k] == fields;
    } else {
      var init := fields[..|fields| - 1];
      assert init[..k] == fields[..k];
      ResolveAllPrefixFailure(init, k, prefix, resolve);
    }
  }

  /** One more field: its property is appended, or its miss is the failure of the whole
      list. */
  lemma ResolveAllStep(fields: seq<string>, i: nat, names: seq<string>, prefix: string, resolve: Resolver)
    requires i < |fields| && ResolveAll(fields[..i], prefix, resolve) == Success(names)
    ensures resolve(Key(prefix, fields[i])).Some? ==>
      ResolveAll(fields[..i + 1], prefix, resolve) == Success(names + [resolve(Key(prefix, fields[i])).value])
    ensures resolve(Key(prefix, fields[i])).None? ==>
      ResolveAll(fields, prefix, resolve) == Failure(BadRequest(SelectFieldMessage(fields[i])))
  {
    assert fields[..i + 1][..i] == fields[..i];
    if resolve(Key(prefix, fields[i])).None? {
      ResolveAllPrefixFailure(fields, i + 1, prefix, resolve);
    }
  }

  method ApplyOptions(query: map<string, Json>, select: string, top: Option<int32>, offset: Option<int32>,
                      prefix: string, resolve: Resolver) returns (r: Result<Json, Fault>)
    ensures r == ApplyOptionsF(query, select, top, offset, prefix, resolve)
  {
    var inner := query;
    ghost var names: seq<string>;
    if select == "*" {
      names := Split(select);
      inner := inner["_source" := Source(Split(select))];
    } else {
      var selectList: seq<string> := [];
      var fields := Split(select);
      for i := 0 to |fields|
        invariant ResolveAll(fields[..i], prefix, resolve) == Success(selectList)
      {
        var mappedField := resolve(Key(prefix, fields[i]));
        ResolveAllStep(fields, i, selectList, prefix, resolve);
        if mappedField.None? {
          return Failure(BadRequest(SelectFieldMessage(fields[i])));
        }
        selectList := selectList + [mappedField.value];
      }
      assert fields[..|fields|] == fields;
      names := selectList;
      inner := inner["_source" := Source(selectList)];
    }
    assert Includes(select, prefix, resolve) == Success(names);
    if top.Some? {
      inner := inner["size" := JInt(top.value as int)];
    }
    if offset.Some? {
      inner := inner["from" := JInt(offset.value as int)];
    }
    r := Success(JObject(map["query" := JObject(inner)]));
    assert r == Success(Envelope(query, names, top, offset));
  }

  /** With select "*" the includes list is ["*"] and no field is looked up: the result
      does not depend on the resolver. */
  lemma SelectWildcard(query: map<string, Json>, top: Option<int32>, offset: Option<int32>, prefix: string, resolve: Resolver)
    ensures ApplyOptionsF(query, "*", top, offset, prefix, resolve) == Success(Envelope(query, ["*"], top, offset))
  {
    assert ',' !in "*";
  }
}
