/** Validation error messages: one human-readable message per failed
    field rule, gathered under snake_case field names. */
module Validator {
  import opened GoStrings

  /** A validator.FieldError: the struct field, the failed rule's tag, the
      field's kind (reflect.Kind's name) and the rule's parameter. */
  datatype FieldError = FieldError(field: string, tag: string, kind: string, param: string)

  datatype ValidationErrorResponse = ValidationErrorResponse(totalErrors: int, fields: map<string, string>)

  /** formatSingleError: the message for one failed rule. */
  function FormatSingleError(e: FieldError): (r: string)
    ensures |r| > 0 && r[|r| - 1] == '.'
  {
    var param := e.param;
    if e.tag == "required" then "This field is required."
    else if e.tag == "email" then "Must be a valid email address."
    else if e.tag == "min" then
      if e.kind == "string" then "Must be at least " + param + " characters long."
      else "Must be at least " + param + "."
    else if e.tag == "max" then
      if e.kind == "string" then "Must be no more than " + param + " characters long."
      else "Must be no more than " + param + "."
    else if e.tag == "len" then "Length must be exactly " + param + "."
    else if e.tag == "oneof" then "Must be one of the following: " + ReplaceChar(param, ' ', ", ") + "."
    else if e.tag == "numeric" then "Must be a numeric value."
    else if e.tag == "alphanum" then "Must contain only letters and numbers."
    else "This field is invalid."
  }

  /** The tags with a message of their own. */
  const KnownTags: seq<string> := ["required", "email", "min", "max", "len", "oneof", "numeric", "alphanum"]

  /** Any tag without a message of its own gets the generic one, whatever
      the field, kind and parameter. */
  lemma UnknownTagGeneric(e: FieldError)
    requires e.tag !in KnownTags
    ensures FormatSingleError(e) == "This field is invalid."
  {
  }

  /** min, max and len put the parameter into the message verbatim,
      between a prefix and a suffix that depend on the tag and the kind
      alone. */
  lemma ParamVerbatim(e: FieldError, other: string)
    requires e.tag == "min" || e.tag == "max" || e.tag == "len"
    ensures var r, r' := FormatSingleError(e), FormatSingleError(e.(param := other));
      exists pre, post :: r == pre + e.param + post && r' == pre + other + post
  {
    var r, r' := FormatSingleError(e), FormatSingleError(e.(param := other));
    var pre := if e.tag == "min" then "Must be at least "
      else if e.tag == "max" then "Must be no more than " else "Length must be exactly ";
    var post := if e.tag != "len" && e.kind == "string" then " characters long." else ".";
    assert r == pre + e.param + post;
    assert r' == pre + other + post;
  }

  /** Replacing every occurrence of `c` by `repl` is splitting on `c` and
      joining with `repl`: the oneof message lists the space-separated
      values, separated by ", ". */
  lemma {:induction false} ReplaceIsSplitJoin(s: string, c: char, repl: string)
    ensures ReplaceChar(s, c, repl) == Join(Split(s, c), repl)
    decreases |s|
  {
    match IndexOf(s, c)
    case None =>
      ReplaceAbsent(s, c, repl);
    case Some(i) =>
      var a, b := s[..i], s[i + 1..];
      var cb := [c] + b;
      assert s == a + cb;
      ReplaceIsSplitJoin(b, c, repl);
      SplitAt(s, c, i);
      ReplaceAbsent(a, c, repl);
      ReplaceAppend(a, cb, c, repl);
      ReplaceHead(c, b, repl);
      var rest := Split(b, c);
      JoinCons(a, rest, repl);
      assert ReplaceChar(s, c, repl) == a + (repl + Join(rest, repl));
  }

  lemma ReplaceHead(c: char, b: string, repl: string)
    ensures ReplaceChar([c] + b, c, repl) == repl + ReplaceChar(b, c, repl)
  {
    assert ([c] + b)[0] == c;
    assert ([c] + b)[1..] == b;
  }

  lemma JoinCons(a: string, rest: seq<string>, sep: string)
    requires |rest| > 0
    ensures Join([a] + rest, sep) == a + (sep + Join(rest, sep))
  {
    assert ([a] + rest)[0] == a;
    assert ([a] + rest)[1..] == rest;
  }

  lemma ReplaceAbsent(s: string, c: char, repl: string)
    requires c !in s
    ensures ReplaceChar(s, c, repl) == s
  {
    if |s| > 0 {
      ReplaceAbsent(s[1..], c, repl);
    }
  }

  /** The oneof message, through the values the parameter lists. */
  lemma OneofLists(e: FieldError)
    requires e.tag == "oneof"
    ensures FormatSingleError(e) == "Must be one of the following: " + Join(Split(e.param, ' '), ", ") + "."
  {
    ReplaceIsSplitJoin(e.param, ' ', ", ");
  }

  // ---------------------------------------------------------------------
  // Aggregation

  /** The field map after the errors in order, each written under its
      snake-cased field name; a later error overwrites an earlier one.
      Every entry is the message of an error on a field of that name. */
  function FieldMessages(errs: seq<FieldError>, snake: string -> string): (m: map<string, string>)
    ensures forall k :: k in m ==>
      exists i :: 0 <= i < |errs| && snake(errs[i].field) == k && m[k] == FormatSingleError(errs[i])
  {
    if |errs| == 0 then map[]
    else
      var init, last := errs[..|errs| - 1], errs[|errs| - 1];
      assert forall i :: 0 <= i < |init| ==> init[i] == errs[i];
      FieldMessages(init, snake)[snake(last.field) := FormatSingleError(last)]
  }

  /** FormatValidationErrors, with strcase.SnakeCase as `snake`. */
  method FormatValidationErrors(errs: seq<FieldError>, snake: string -> string) returns (r: ValidationErrorResponse)
    ensures r.totalErrors == |errs|
    ensures r.fields == FieldMessages(errs, snake)
  {
    var fieldErrors: map<string, string> := map[];
    for i := 0 to |errs|
      invariant fieldErrors == FieldMessages(errs[..i], snake)
    {
      assert errs[..i + 1][..i] == errs[..i];
      var fieldName := snake(errs[i].field);
      fieldErrors := fieldErrors[fieldName := FormatSingleError(errs[i])];
    }
    assert errs[..|errs|] == errs;
    r := ValidationErrorResponse(|errs|, fieldErrors);
  }

  /** The snake-cased names of the fields of `errs`. */
  function FieldNames(errs: seq<FieldError>, snake: string -> string): set<string>
  {
    set i | 0 <= i < |errs| :: snake(errs[i].field)
  }

  /** The keys are exactly the snake-cased field names. */
  lemma {:induction false} FieldMessagesKeys(errs: seq<FieldError>, snake: string -> string)
    ensures FieldMessages(errs, snake).Keys == FieldNames(errs, snake)
  {
    var m := FieldMessages(errs, snake);
    if |errs| > 0 {
      var init := errs[..|errs| - 1];
      FieldMessagesKeys(init, snake);
      forall i | 0 <= i < |errs| ensures snake(errs[i].field) in m {
        if i < |errs| - 1 {
          assert errs[i] == init[i];
          assert snake(init[i].field) in FieldNames(init, snake);
        }
      }
    }
  }

  /** There are never more keys than errors: errors on fields with the
      same snake-cased name share one key. */
  lemma {:induction false} FieldMessagesBound(errs: seq<FieldError>, snake: string -> string)
    ensures |FieldMessages(errs, snake)| <= |errs|
  {
    if |errs| > 0 {
      FieldMessagesBound(errs[..|errs| - 1], snake);
    }
  }

  /** A key holds the message of the last error that maps to it. */
  lemma {:induction false} LastErrorWins(errs: seq<FieldError>, snake: string -> string, j: nat)
    requires j < |errs|
    requires forall k :: j < k < |errs| ==> snake(errs[k].field) != snake(errs[j].field)
    ensures var m := FieldMessages(errs, snake);
      snake(errs[j].field) in m && m[snake(errs[j].field)] == FormatSingleError(errs[j])
  {
    if j < |errs| - 1 {
      var init := errs[..|errs| - 1];
      assert init[j] == errs[j];
      forall k | j < k < |init| ensures snake(init[k].field) != snake(init[j].field) {
        assert init[k] == errs[k];
      }
      LastErrorWins(init, snake, j);
      var last := errs[|errs| - 1];
      assert snake(last.field) != snake(errs[j].field);
      UpdateOther(FieldMessages(init, snake), snake(last.field), FormatSingleError(last), snake(errs[j].field));
    }
  }

  lemma UpdateOther<K, V>(m: map<K, V>, k: K, v: V, key: K)
    requires key in m && k != key
    ensures key in m[k := v] && m[k := v][key] == m[key]
  {
  }
}
