/** generateELKDSLQuery: tokenize the filter, parse it, add the options, and report every
    failure as a module error: the bad-request errors raised for unknown fields as they
    are, anything else as an internal error that carries its cause. */
module Operations {
  import opened Wrappers
  import opened JavaText
  import opened Syntax
  import opened Json
  import opened Lexer
  import opened Cursor
  import opened Parser
  import opened Dsl
  import opened Options
  import opened Grammar

  datatype ErrorKind = BAD_REQUEST | INTERNAL_SERVER_ERROR

  /** The ModuleException the operation throws: its error type, its message and, for an
      internal error, the exception it wraps. */
  datatype ModuleError = ModuleError(kind: ErrorKind, message: string, cause: Option<Cause>)

  const UnknownErrorMessage := "An unknown error occurred in ODATA ELK Module"

  /** A ModuleException passes through unchanged; any other exception becomes an internal
      error with the fixed message. */
  function Wrap(f: Fault): ModuleError {
    match f
    case BadRequest(message) => ModuleError(BAD_REQUEST, message, None)
    case Unexpected(cause) => ModuleError(INTERNAL_SERVER_ERROR, UnknownErrorMessage, Some(cause))
  }

  function Lift(r: Result<Json, Fault>): Result<Json, ModuleError> {
    match r
    case Failure(f) => Failure(Wrap(f))
    case Success(doc) => Success(doc)
  }

  /** The document the operation returns for a filter, or the error it throws. Tokens left
      after the filter are not looked at. */
  function Transform(prefix: string, filter: string, select: string, offset: int32, top: int32,
                     resolve: Resolver): Result<Json, ModuleError> {
    match ParseOrF(Tokens(filter), prefix, resolve)
    case Failure(f) => Failure(Wrap(f))
    case Success(p) => Lift(ApplyOptionsF(Node(p.query), select, Some(top), Some(offset), prefix, resolve))
  }

  method GenerateELKDSLQuery(prefix: string, filter: string, select: string, offset: int32, top: int32,
                             resolve: Resolver) returns (r: Result<Json, ModuleError>)
    ensures r == Transform(prefix, filter, select, offset, top, resolve)
  {
    var tokenizer := new Tokenizer(filter);
    var result := ParseOr(tokenizer, prefix, resolve);
    if result.Failure? {
      return Failure(Wrap(result.error));
    }
    var finalResult := ApplyOptions(Node(result.value), select, Some(top), Some(offset), prefix, resolve);
    r := Lift(finalResult);
  }

  // ---------------------------------------------------------------------------
  // Properties of the whole transform

  /** Every failure is reported with the kind its fault calls for: a bad request names
      a filter token or a select field that has no property, anything else is an internal
      error with the fixed message and its cause. */
  lemma ErrorKinds(prefix: string, filter: string, select: string, offset: int32, top: int32, resolve: Resolver)
    ensures var r := Transform(prefix, filter, select, offset, top, resolve);
      r.Failure? ==>
        || (&& r.error.kind == BAD_REQUEST && r.error.cause == None
            && ((exists t :: t in Tokens(filter) && r.error.message == FilterFieldMessage(t)) ||
                (exists t :: t in Split(select) && r.error.message == SelectFieldMessage(t))))
        || (r.error.kind == INTERNAL_SERVER_ERROR && r.error.message == UnknownErrorMessage && r.error.cause.Some?)
  {
    var ts := Tokens(filter);
    match ParseOrF(ts, prefix, resolve)
    case Failure(f) =>
    case Success(p) =>
      if select != "*" {
        var fields := Split(select);
        var o := ResolveAll(fields, prefix, resolve);
        if o.Failure? {
          var i :| FirstMiss(fields, prefix, resolve, i) && o.error == BadRequest(SelectFieldMessage(fields[i]));
          assert fields[i] in fields;
        }
      }
  }

  /** A filter printed from a tree, with tokens joined by single spaces, is turned into
      the DSL of that tree with its fields renamed; only the select list can still fail. */
  lemma {:induction false} PrintedFilter(q: Query, prefix: string, select: string, offset: int32, top: int32,
                                         resolve: Resolver)
    requires Printable(q) && Resolvable(q, prefix, resolve)
    ensures Transform(prefix, Unwords(Render(q, OrLevel)), select, offset, top, resolve) ==
            Lift(ApplyOptionsF(Node(Rename(q, prefix, resolve)), select, Some(top), Some(offset), prefix, resolve))
  {
    RenderClosed(q, OrLevel);
    TokensUnwords(Render(q, OrLevel));
    RoundTripOr(q, [], prefix, resolve);
    assert Render(q, OrLevel) + [] == Render(q, OrLevel);
  }

  /** A printed filter in which some field has no property, in any comparison, is a bad
      request naming the first such field in print order. */
  lemma UnresolvedFilter(q: Query, prefix: string, select: string, offset: int32, top: int32, resolve: Resolver)
    requires Printable(q) && !Resolvable(q, prefix, resolve)
    ensures MissingField(q, prefix, resolve).Some?
    ensures Transform(prefix, Unwords(Render(q, OrLevel)), select, offset, top, resolve) ==
            Failure(ModuleError(BAD_REQUEST, FilterFieldMessage(MissingField(q, prefix, resolve).value), None))
  {
    RenderClosed(q, OrLevel);
    TokensUnwords(Render(q, OrLevel));
    UnresolvedFails(q, [], prefix, resolve);
    assert Render(q, OrLevel) + [] == Render(q, OrLevel);
  }

  /** Tokens after a complete filter that do not continue it with "and" or "or" are
      ignored, a stray ")" included. */
  lemma {:induction false} TrailingTokensIgnored(q: Query, extra: seq<string>, prefix: string, select: string,
                                                 offset: int32, top: int32, resolve: Resolver)
    requires Printable(q) && Resolvable(q, prefix, resolve)
    requires AllClosed(extra) && !StartsWith(extra, "and") && !StartsWith(extra, "or")
    ensures Transform(prefix, Unwords(Render(q, OrLevel) + extra), select, offset, top, resolve) ==
            Transform(prefix, Unwords(Render(q, OrLevel)), select, offset, top, resolve)
  {
    var ts := Render(q, OrLevel);
    RenderClosed(q, OrLevel);
    assert AllClosed(ts + extra);
    TokensUnwords(ts + extra);
    RoundTripOr(q, extra, prefix, resolve);
    PrintedFilter(q, prefix, select, offset, top, resolve);
  }

  /** An opening parenthesis whose ")" never comes is accepted: "( f" means f. */
  lemma {:induction false} MissingCloseParen(q: Query, prefix: string, select: string, offset: int32, top: int32,
                                             resolve: Resolver)
    requires Printable(q) && Resolvable(q, prefix, resolve)
    ensures Transform(prefix, Unwords(["("] + Render(q, OrLevel)), select, offset, top, resolve) ==
            Transform(prefix, Unwords(Render(q, OrLevel)), select, offset, top, resolve)
  {
    var ts := Render(q, OrLevel);
    var open := ["("] + ts;
    RenderClosed(q, OrLevel);
    KeywordsClosed();
    assert AllClosed(open);
    TokensUnwords(open);
    RoundTripOr(q, [], prefix, resolve);
    assert ts + [] == ts;
    var r := Rename(q, prefix, resolve);
    RenameCollapsed(q, prefix, resolve);
    assert open[1..] == ts;
    assert ParseCmpF(open, prefix, resolve) == Success(Parsed(r, []));
    AndLoopStep([], open, r, [], prefix, resolve);
    assert [] + [r] == [r];
    OrLoopStep([], open, r, [], prefix, resolve);
    PrintedFilter(q, prefix, select, offset, top, resolve);
  }

  /** When the first comparison of the filter fails, the transform fails with that
      fault, wrapped. */
  lemma FirstComparisonFails(prefix: string, filter: string, select: string, offset: int32, top: int32,
                             resolve: Resolver)
    requires ParseCmpF(Tokens(filter), prefix, resolve).Failure?
    ensures Transform(prefix, filter, select, offset, top, resolve) ==
            Failure(Wrap(ParseCmpF(Tokens(filter), prefix, resolve).error))
  {
    var ts := Tokens(filter);
    var f := ParseCmpF(ts, prefix, resolve).error;
    assert AndLoop([], ts, prefix, resolve) == Failure(f);
    assert ParseAndF(ts, prefix, resolve) == Failure(f);
    assert OrLoop([], ts, prefix, resolve) == Failure(f);
  }

  /** A filter with no tokens fails at the first next(): an internal error. */
  lemma EmptyFilter(prefix: string, filter: string, select: string, offset: int32, top: int32, resolve: Resolver)
    requires Tokens(filter) == []
    ensures Transform(prefix, filter, select, offset, top, resolve) ==
            Failure(ModuleError(INTERNAL_SERVER_ERROR, UnknownErrorMessage, Some(EndOfInput)))
  {
    FirstComparisonFails(prefix, filter, select, offset, top, resolve);
  }

  /** A first field with no property is a bad request naming it. */
  lemma UnknownFilterField(prefix: string, filter: string, select: string, offset: int32, top: int32, resolve: Resolver)
    requires |Tokens(filter)| > 0 && !EqualsIgnoreCase(Tokens(filter)[0], "(")
    requires resolve(Key(prefix, Tokens(filter)[0])).None?
    ensures Transform(prefix, filter, select, offset, top, resolve) ==
            Failure(ModuleError(BAD_REQUEST, FilterFieldMessage(Tokens(filter)[0]), None))
  {
    FirstComparisonFails(prefix, filter, select, offset, top, resolve);
  }

  /** A known field followed by fewer than two tokens runs out of input, whatever the
      operator token is: the value is read before the operator is checked. */
  lemma MissingValue(prefix: string, filter: string, select: string, offset: int32, top: int32, resolve: Resolver)
    requires 1 <= |Tokens(filter)| <= 2 && !EqualsIgnoreCase(Tokens(filter)[0], "(")
    requires resolve(Key(prefix, Tokens(filter)[0])).Some?
    ensures Transform(prefix, filter, select, offset, top, resolve) ==
            Failure(ModuleError(INTERNAL_SERVER_ERROR, UnknownErrorMessage, Some(EndOfInput)))
  {
    FirstComparisonFails(prefix, filter, select, offset, top, resolve);
  }

  /** A value token that is a single quote makes substring fail: an internal error. */
  lemma LoneQuoteValue(prefix: string, filter: string, select: string, offset: int32, top: int32, resolve: Resolver)
    requires |Tokens(filter)| >= 3 && !EqualsIgnoreCase(Tokens(filter)[0], "(")
    requires resolve(Key(prefix, Tokens(filter)[0])).Some? && Tokens(filter)[2] == "'"
    ensures Transform(prefix, filter, select, offset, top, resolve) ==
            Failure(ModuleError(INTERNAL_SERVER_ERROR, UnknownErrorMessage, Some(SubstringOutOfRange("'"))))
  {
    FirstComparisonFails(prefix, filter, select, offset, top, resolve);
  }

  /** An operator other than the six, followed by a readable value, is an internal error
      naming the operator. */
  lemma UnknownOperator(prefix: string, filter: string, select: string, offset: int32, top: int32, resolve: Resolver)
    requires |Tokens(filter)| >= 3 && !EqualsIgnoreCase(Tokens(filter)[0], "(")
    requires resolve(Key(prefix, Tokens(filter)[0])).Some? && Tokens(filter)[2] != "'"
    requires forall o: Op :: OperatorText(o) != Tokens(filter)[1]
    ensures Transform(prefix, filter, select, offset, top, resolve) ==
            Failure(ModuleError(INTERNAL_SERVER_ERROR, UnknownErrorMessage, Some(UnsupportedOperator(Tokens(filter)[1]))))
  {
    FirstComparisonFails(prefix, filter, select, offset, top, resolve);
  }

  // ---------------------------------------------------------------------------
  // The behaviour the module's functional test pins down

  /** The document of match_phrase newName = "Naveen" with select "*", offset 0, top 500. */
  lemma NaveenDocument()
    ensures Envelope(Node(Cmp("newName", Eq, Str("Naveen"))), ["*"], Some(500), Some(0)) ==
      JObject(map["query" := JObject(map[
        "match_phrase" := JObject(map["newName" := JString("Naveen")]),
        "size" := JInt(500),
        "_source" := JObject(map["includes" := JArray([JString("*")])]),
        "from" := JInt(0)])])
  {
    var m := JObject(map["newName" := JString("Naveen")]);
    assert Node(Cmp("newName", Eq, Str("Naveen"))) == map["match_phrase" := m];
    var s := JObject(map["includes" := JArray([JString("*")])]);
    assert Source(["*"]) == s by {
      assert seq(1, i requires 0 <= i < 1 => JString(["*"][i])) == [JString("*")];
    }
    var got := map["match_phrase" := m]["_source" := s]["size" := JInt(500)]["from" := JInt(0)];
    var want := map["match_phrase" := m, "size" := JInt(500), "_source" := s, "from" := JInt(0)];
    assert got.Keys == want.Keys;
    assert got == want;
  }

  /** The filter of the test is the printed form of one comparison. */
  lemma NaveenFilter()
    ensures Printable(Cmp("name", Eq, Str("Naveen")))
    ensures Unwords(Render(Cmp("name", Eq, Str("Naveen")), OrLevel)) == "name eq 'Naveen'"
  {
    assert "'" + "Naveen" + "'" == "'Naveen'";
    assert Render(Cmp("name", Eq, Str("Naveen")), OrLevel) == ["name", "eq", "'Naveen'"];
    assert Unwords(["name", "eq", "'Naveen'"]) == "name eq 'Naveen'";
    NameIsWord();
  }

  lemma NameIsWord()
    ensures Word("name")
  {
    forall i | 0 <= i < 4 ensures !IsSeparator("name"[i]) && "name"[i] != '\'' {
      assert "name"[i] in "name";
    }
  }

  /** "name eq 'Naveen'" with name mapped to newName, select "*", offset 0 and top 500
      gives the document the test expects. */
  lemma NaveenScenario(prefix: string, resolve: Resolver)
    requires resolve(Key(prefix, "name")) == Some("newName")
    ensures Transform(prefix, "name eq 'Naveen'", "*", 0, 500, resolve) ==
      Success(JObject(map["query" := JObject(map[
        "match_phrase" := JObject(map["newName" := JString("Naveen")]),
        "size" := JInt(500),
        "_source" := JObject(map["includes" := JArray([JString("*")])]),
        "from" := JInt(0)])]))
  {
    var q := Cmp("name", Eq, Str("Naveen"));
    var renamed := Cmp("newName", Eq, Str("Naveen"));
    NaveenFilter();
    PrintedFilter(q, prefix, "*", 0, 500, resolve);
    assert Rename(q, prefix, resolve) == renamed;
    SelectWildcard(Node(renamed), Some(500), Some(0), prefix, resolve);
    NaveenDocument();
  }

  /** Selecting "name" lists its property, newName, in _source.includes. */
  lemma NaveenSelectName(prefix: string, resolve: Resolver)
    requires resolve(Key(prefix, "name")) == Some("newName")
    ensures Transform(prefix, "name eq 'Naveen'", "name", 0, 500, resolve) ==
      Success(Envelope(map["match_phrase" := JObject(map["newName" := JString("Naveen")])], ["newName"], Some(500), Some(0)))
  {
    var q := Cmp("name", Eq, Str("Naveen"));
    NaveenFilter();
    PrintedFilter(q, prefix, "name", 0, 500, resolve);
    assert Rename(q, prefix, resolve) == Cmp("newName", Eq, Str("Naveen"));
    assert forall i :: 0 <= i < 4 ==> "name"[i] != ',';
    assert Split("name") == ["name"];
    var doc := Node(Cmp("newName", Eq, Str("Naveen")));
    assert doc == map["match_phrase" := JObject(map["newName" := JString("Naveen")])];
    ResolveName(prefix, resolve);
    assert ApplyOptionsF(doc, "name", Some(500), Some(0), prefix, resolve) ==
           Success(Envelope(doc, ["newName"], Some(500), Some(0)));
  }

  /** Selecting a field with no property is a bad request naming it, even after a field
      that resolves. */
  lemma NaveenUnknownSelect(prefix: string, resolve: Resolver)
    requires resolve(Key(prefix, "name")) == Some("newName") && resolve(Key(prefix, "lname")) == None
    ensures Transform(prefix, "name eq 'Naveen'", "name,lname", 0, 500, resolve) ==
      Failure(ModuleError(BAD_REQUEST, SelectFieldMessage("lname"), None))
  {
    var q := Cmp("name", Eq, Str("Naveen"));
    NaveenFilter();
    PrintedFilter(q, prefix, "name,lname", 0, 500, resolve);
    assert Rename(q, prefix, resolve) == Cmp("newName", Eq, Str("Naveen"));
    SplitTwoFields();
    ResolveNameLname(prefix, resolve);
    var doc := Node(Cmp("newName", Eq, Str("Naveen")));
    assert "name,lname" != "*";
    assert ApplyOptionsF(doc, "name,lname", Some(500), Some(0), prefix, resolve) ==
           Failure(BadRequest(SelectFieldMessage("lname")));
  }

  lemma ResolveName(prefix: string, resolve: Resolver)
    requires resolve(Key(prefix, "name")) == Some("newName")
    ensures ResolveAll(["name"], prefix, resolve) == Success(["newName"])
  {
    var fs := ["name"];
    assert fs[..0] == [] && fs[0] == "name";
    assert ResolveAll([], prefix, resolve) == Success([]);
    assert ResolveAll(fs, prefix, resolve) == Success([] + ["newName"]);
    assert [] + ["newName"] == ["newName"];
  }

  lemma ResolveNameLname(prefix: string, resolve: Resolver)
    requires resolve(Key(prefix, "name")) == Some("newName") && resolve(Key(prefix, "lname")) == None
    ensures ResolveAll(["name", "lname"], prefix, resolve) == Failure(BadRequest(SelectFieldMessage("lname")))
  {
    var fields := ["name", "lname"];
    assert fields[..1] == ["name"] && fields[1] == "lname";
    ResolveName(prefix, resolve);
  }

  lemma SplitTwoFields()
    ensures Split("name,lname") == ["name", "lname"]
  {
    assert JoinCommas(["name", "lname"]) == "name,lname";
    assert forall i :: 0 <= i < 4 ==> "name"[i] != ',';
    assert forall i :: 0 <= i < 5 ==> "lname"[i] != ',';
    SplitJoinCommas(["name", "lname"]);
  }
}
