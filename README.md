# OData filter to Elasticsearch DSL, modelled in Dafny

This project models the transform at the heart of the Mule OData/ELK connector,
`ODataELKOperations.generateELKDSLQuery`. It takes an OData-style filter string (for
example `name eq 'Naveen' and ( age gt 30 or city ne 'Paris' )`), a comma-separated
select list, an offset and a top count, and builds the Elasticsearch query document.
Every filter and select field is first mapped to its index field through configuration
properties named `<prefix>.<field>`.

The transform has four parts, and each is modelled in the form the Java code has.

- **Tokenizer** (`lexer.dfy`, `Lexer`). The character loop of `Tokenizer.tokenize` is a
  method with a `for` loop (`Lexer.Tokenize`). It is proved equal to a left fold, `Tokens`,
  whose step function is one iteration of the loop. Two theorems are proved about the
  fold:
  - conservation and token shape;
  - that it inverts joining closed tokens with spaces.
- **Token cursor** (`cursor.dfy`, `Cursor`). The `Tokenizer` object is a class with its
  token list and a mutable `index`. `Consume`, `Next` and `NextValue` are methods with
  `modifies this`. `nextValue`'s coercion of a token to a literal is the function
  `Coerce`.
- **Parser** (`parser.dfy`, `Parser`). `parseOrExpr`, `parseAndExpr` and
  `parseComparisonExpr` are methods over the cursor, with the do-while loops as `while`
  loops. Each is proved against a function over the remaining tokens (`ParseOrF`,
  `ParseAndF`, `ParseCmpF`). These functions return the parsed tree and the tokens left,
  or the fault. The tree is a typed syntax tree (`Syntax.Query`: `Cmp | And | Or`), and
  `Dsl.Node` lowers it to the JSON object that the Java code builds directly.
  `grammar.dfy` prints trees back to tokens and proves that the parser inverts the
  printer. This shows precedence (OR looser than AND looser than a comparison),
  grouping by parentheses and operand order. Its failure half shows that a printed filter
  with a field that has no property, in any comparison, is the bad request naming the
  first such field.
- **Options** (`options.dfy`, `Options`). `applyOptions` is a method with the `for` loop
  over the select fields. It is proved against `ApplyOptionsF`, whose `Envelope` states
  the document's shape.

`operations.dfy` (`Operations`) models `generateELKDSLQuery`: it tokenizes, parses and
applies the options. Its catch blocks become `Wrap`:
- a bad-request `ModuleException` passes through unchanged;
- any other exception becomes `INTERNAL_SERVER_ERROR` with the fixed message and the
  exception as its cause.

That file also holds the end-to-end properties and the scenario of the module's
functional test.

Supporting modules:
- `java_text.dfy` models the Java library behaviour the code relies on:
  - `Character.isWhitespace`;
  - `equalsIgnoreCase`;
  - `split(",")`, which drops trailing empty strings;
  - the input grammar of `Double.parseDouble`.
- `json.dfy` holds the JSON value tree.
- `syntax.dfy` holds the syntax tree, the resolver type and the error messages.

Three behaviours are modelled as the code has them, although a stricter design would differ:
- `size`, `from` and `_source` are added to the inner query object, and the returned
  document has the single key `query`. It is not a flat envelope, and the module's test
  expects exactly this shape.
- Tokens after a complete filter are ignored, not rejected.
- A missing `)` is accepted silently.

## Model

| member | source | states |
|---|---|---|
| Lexer.Tokenize | src/main/java/com/baml/gtsods/api/internal/ODataELKOperations.java:189-219 | The character loop returns exactly the token list of the loop's fold, the pending token flushed at the end |
| Lexer.TokensShape | src/main/java/com/baml/gtsods/api/internal/ODataELKOperations.java:194-216 | Concatenating the tokens gives the input with exactly its unquoted whitespace removed; no token is empty; each token is a lone `(`, `)` or `,` or holds whitespace and punctuation only inside quotes; every token but the last has balanced quotes, the last too when the input does |
| Lexer.PlainMeaning | src/main/java/com/baml/gtsods/api/internal/ODataELKOperations.java:195-210 | A token is plain iff each of its whitespace or `(` `)` `,` characters follows an odd number of quotes, i.e. lies inside quotes |
| Lexer.TokensUnwords | src/main/java/com/baml/gtsods/api/internal/ODataELKOperations.java:189-219 | Tokenizing closed tokens joined by single spaces gives those tokens back (the tokenizer inverts printing) |
| JavaText.SplitJoin | src/main/java/com/baml/gtsods/api/internal/ODataELKOperations.java:160 | `split(",")` loses nothing but trailing commas: joining its pieces with commas gives the input without them, and no piece holds a comma |
| JavaText.SplitJoinCommas | src/main/java/com/baml/gtsods/api/internal/ODataELKOperations.java:160 | `split(",")` inverts joining two or more comma-free fields whose last is non-empty |
| Cursor.Coerce | src/main/java/com/baml/gtsods/api/internal/ODataELKOperations.java:238-246 | A literal fails exactly for the lone quote token; a number keeps its token and only when `Double.parseDouble` accepts it; a string is the token itself or the text between its quotes; an unquoted token is a number exactly when `Double.parseDouble` accepts it |
| Cursor.CoerceQuoted | src/main/java/com/baml/gtsods/api/internal/ODataELKOperations.java:239-240 | Any text between two quotes comes back verbatim, with no escape handling |
| Cursor.Tokenizer.constructor | src/main/java/com/baml/gtsods/api/internal/ODataELKOperations.java:185-187 | A new cursor holds the tokens of the input, positioned at the first |
| Cursor.Tokenizer.Consume | src/main/java/com/baml/gtsods/api/internal/ODataELKOperations.java:221-227 | Advances by exactly one iff a current token exists and equals the argument ignoring case; otherwise nothing changes |
| Cursor.Tokenizer.Next | src/main/java/com/baml/gtsods/api/internal/ODataELKOperations.java:229-234 | Returns the current token and advances by one, or fails with end of input and does not move |
| Cursor.Tokenizer.NextValue | src/main/java/com/baml/gtsods/api/internal/ODataELKOperations.java:236-249 | Returns the coerced current token and advances by one, or fails with end of input and does not move |
| Syntax.ParseOperator | src/main/java/com/baml/gtsods/api/internal/ODataELKOperations.java:124-146 | Accepts exactly the six operator spellings, case-sensitively, and maps each to the operator it names |
| Parser.Collapse | src/main/java/com/baml/gtsods/api/internal/ODataELKOperations.java:81-83 | A single operand is returned unwrapped, and given collapsed operands the result is collapsed: no combinator in it has fewer than two children (that two or more operands are wrapped in parse order is shown by Grammar.RoundTripAnd and Grammar.RoundTripOr) |
| Parser.ParseOrF | src/main/java/com/baml/gtsods/api/internal/ODataELKOperations.java:75-89 | A successful parse consumes at least one token, leaves a suffix and yields a collapsed tree; a bad request names a token of the input |
| Parser.OrLoop | src/main/java/com/baml/gtsods/api/internal/ODataELKOperations.java:77-79 | The do-while loop over `or`: same guarantees, given collapsed operands so far |
| Parser.ParseAndF | src/main/java/com/baml/gtsods/api/internal/ODataELKOperations.java:91-105 | As ParseOrF, for the AND level |
| Parser.AndLoop | src/main/java/com/baml/gtsods/api/internal/ODataELKOperations.java:93-95 | The do-while loop over `and`: same guarantees |
| Parser.ParseCmpF | src/main/java/com/baml/gtsods/api/internal/ODataELKOperations.java:107-149 | A comparison or a parenthesised group consumes at least one token and leaves a suffix; every bad request names a token of the input, and a first token other than `(` with no property gives exactly the bad request naming it |
| Parser.ParseOr | src/main/java/com/baml/gtsods/api/internal/ODataELKOperations.java:75-89 | The method's result and the cursor's final position agree with ParseOrF on the tokens it started with |
| Parser.ParseAnd | src/main/java/com/baml/gtsods/api/internal/ODataELKOperations.java:91-105 | The method agrees with ParseAndF |
| Parser.ParseComparison | src/main/java/com/baml/gtsods/api/internal/ODataELKOperations.java:107-149 | The method agrees with ParseCmpF: field resolved before the operator is read, value read before the operator is checked, `)` consumed only if present |
| Dsl.Node | src/main/java/com/baml/gtsods/api/internal/ODataELKOperations.java:123-143 | Every query node is an object with one key, `match_phrase`, `bool` or `range` |
| Dsl.NodeInjective | src/main/java/com/baml/gtsods/api/internal/ODataELKOperations.java:85-143 | Different trees give different query objects: the object determines operator, field, literal, combinator and child order |
| Grammar.RoundTripCmp | src/main/java/com/baml/gtsods/api/internal/ODataELKOperations.java:107-149 | A printed comparison or parenthesised group parses back to the tree with its fields resolved, whatever follows |
| Grammar.RoundTripAnd | src/main/java/com/baml/gtsods/api/internal/ODataELKOperations.java:91-105 | A printed conjunction parses back to the tree, operands in order, when no `and` follows |
| Grammar.RoundTripOr | src/main/java/com/baml/gtsods/api/internal/ODataELKOperations.java:75-89 | A printed filter parses back to the tree, operands in order, when no `and` or `or` follows |
| Grammar.RenderClosed | src/main/java/com/baml/gtsods/api/internal/ODataELKOperations.java:198-210 | Every printed token is a single parenthesis or a closed word, so it survives the tokenizer |
| Grammar.OrKeywordAnyCase | src/main/java/com/baml/gtsods/api/internal/ODataELKOperations.java:79 | `or` is recognised in any letter case |
| Grammar.AndKeywordAnyCase | src/main/java/com/baml/gtsods/api/internal/ODataELKOperations.java:95 | `and` is recognised in any letter case |
| Grammar.AndBindsTighter | src/main/java/com/baml/gtsods/api/internal/ODataELKOperations.java:75-105 | For any three comparisons, `a or b and c` parses as `a or (b and c)` |
| Grammar.ParenthesesGroup | src/main/java/com/baml/gtsods/api/internal/ODataELKOperations.java:108-112 | `( a or b ) and c` parses as `(a or b) and c`: parentheses override precedence |
| Grammar.MissingFieldResolvable | src/main/java/com/baml/gtsods/api/internal/ODataELKOperations.java:114-119 | A tree has a field with no property (the first in print order is `MissingField`) exactly when it is not resolvable |
| Grammar.UnresolvedFails | src/main/java/com/baml/gtsods/api/internal/ODataELKOperations.java:114-119 | The failure half of the round trip: a printed filter with an unresolvable field, in any comparison at any depth, is the bad request naming the first such field in print order, whatever follows |
| Options.ResolveAll | src/main/java/com/baml/gtsods/api/internal/ODataELKOperations.java:158-167 | Succeeds iff every field resolves, with the resolved names in input order; otherwise fails with the bad request naming the first field that does not resolve |
| Options.ResolveAllPrefixFailure | src/main/java/com/baml/gtsods/api/internal/ODataELKOperations.java:160-165 | A miss aborts: the failure on a prefix of the fields is the failure on all of them |
| Options.Envelope | src/main/java/com/baml/gtsods/api/internal/ODataELKOperations.java:151-179 | The document has the one key `query`; its object is the query node plus `_source.includes`, `size` = top and `from` = offset unmodified, every other member kept |
| Options.ApplyOptions | src/main/java/com/baml/gtsods/api/internal/ODataELKOperations.java:151-179 | The method's loop and updates give exactly ApplyOptionsF: the Envelope of the resolved includes, or the first select-field failure |
| Options.SelectWildcard | src/main/java/com/baml/gtsods/api/internal/ODataELKOperations.java:155-156 | With select `*`, includes is `["*"]` and no field is resolved |
| Operations.GenerateELKDSLQuery | src/main/java/com/baml/gtsods/api/internal/ODataELKOperations.java:60-72 | The operation returns exactly Transform: parse, then apply options with `Some(top)` and `Some(offset)`, faults wrapped |
| Operations.ErrorKinds | src/main/java/com/baml/gtsods/api/internal/ODataELKOperations.java:67-71 | Every failure is a BAD_REQUEST with no cause naming a filter token or select field, or an INTERNAL_SERVER_ERROR with the fixed message and a cause |
| Operations.PrintedFilter | src/main/java/com/baml/gtsods/api/internal/ODataELKOperations.java:62-63 | A filter printed from a tree produces that tree's query object with fields resolved; only the select list can still fail |
| Operations.UnresolvedFilter | src/main/java/com/baml/gtsods/api/internal/ODataELKOperations.java:114-119 | A printed filter with any field that has no property fails as BAD_REQUEST, with no cause, naming the first such field |
| Operations.TrailingTokensIgnored | src/main/java/com/baml/gtsods/api/internal/ODataELKOperations.java:62 | Tokens after a complete filter that do not start with `and` or `or` change nothing |
| Operations.MissingCloseParen | src/main/java/com/baml/gtsods/api/internal/ODataELKOperations.java:108-111 | `( f` with no closing parenthesis gives the same result as `f` |
| Operations.FirstComparisonFails | src/main/java/com/baml/gtsods/api/internal/ODataELKOperations.java:75-79 | A failure of the first comparison aborts the whole transform with that fault wrapped |
| Operations.EmptyFilter | src/main/java/com/baml/gtsods/api/internal/ODataELKOperations.java:229-234 | A filter without tokens is an internal error caused by end of input |
| Operations.UnknownFilterField | src/main/java/com/baml/gtsods/api/internal/ODataELKOperations.java:114-119 | A first field with no property is a BAD_REQUEST naming that field |
| Operations.MissingValue | src/main/java/com/baml/gtsods/api/internal/ODataELKOperations.java:120-121 | A known field followed by fewer than two tokens is an internal error caused by end of input |
| Operations.LoneQuoteValue | src/main/java/com/baml/gtsods/api/internal/ODataELKOperations.java:239-240 | A value token that is a single quote is an internal error caused by the out-of-range substring |
| Operations.UnknownOperator | src/main/java/com/baml/gtsods/api/internal/ODataELKOperations.java:144-145 | An operator outside the six is an internal error caused by that operator |
| Operations.NaveenScenario | src/test/java/com/baml/gtsods/api/ODataELKOperationsTestCase.java:18-26 | `name eq 'Naveen'` with name mapped to newName, select `*`, offset 0, top 500 gives exactly the document the test asserts |
| Operations.NaveenSelectName | src/main/java/com/baml/gtsods/api/internal/ODataELKOperations.java:157-168 | Select `name` lists its property `newName` in `_source.includes` and leaves the query node unchanged |
| Operations.NaveenUnknownSelect | src/main/java/com/baml/gtsods/api/internal/ODataELKOperations.java:160-165 | Select `name,lname` with lname unmapped is a BAD_REQUEST naming `lname` |

## Left out

- The Mule extension plumbing (extension, configuration, connection and error-type classes), the annotations on the operation, and logging carry no logic and are not part of this model.
- `getProperty` and `ConfigurationProperties` are a foreign lookup. They are modelled as a resolver parameter, a function from a property name to an optional value.
- Serialising the document with `JSONObject.toString` is not modelled. The result is a JSON value tree whose objects are maps, so key order is not represented.
- Numbers: a numeric literal keeps the token it was parsed from. Its `double` value is not computed, so `5` and `5.0` are different literals here. `JSONObject.put`'s rejection of non-finite doubles (`NaN`, `Infinity`, or an overflowing literal such as `1e999`) is not modelled.
- Cursor.Coerce: `Double.parseDouble` is modelled by the syntax it accepts, not by the value it computes.
- `Character.isWhitespace` follows current JDKs. It excludes U+180E, which Java 8 counted as whitespace.
- `equalsIgnoreCase` folds ASCII letters only. This is exact for the four tokens the code compares with (`or`, `and`, `(`, `)`), but not for arbitrary non-ASCII text.
- Strings are sequences of Unicode scalar values, not UTF-16 code units. Surrogate pairs are therefore not modelled.
- Null arguments (a null filter or select) are not modelled. Top and offset are always present, as the operation's `int` parameters make them.
- Options.ApplyOptions: `put` mutates the query object that the returned document shares. The model builds a new map value, so aliasing between the two is not represented.
- Dsl.Node: its contract states only the shape of the top-level key. Its meaning is carried by `Dsl.NodeInjective` and the round-trip theorems.
- The parser has no end-of-input check and no check for a closing `)`, because the code has none. The lenient behaviour is proved as `Operations.TrailingTokensIgnored` and `Operations.MissingCloseParen`.
