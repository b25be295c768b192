/** Checks on route parameters, query parameters and headers. A check that
    fails raises a `ValidationError`; here it returns `Failure` with that error.
    Header names are taken as already in the lower case the header store
    normalises them to. */
module RequestValidation {
  import opened Wrappers
  import opened Text
  import opened ErrorConstants
  import opened CustomErrors

  /** A route parameter counts as missing when it is absent, empty or blank. */
  predicate ParamMissing(params: map<string, string>, key: string) {
    key !in params || params[key] == "" || Trim(params[key]) == ""
  }

  /** `requiredKeys.filter(key => !params[key] || params[key].trim() === "")`. */
  function MissingKeys(params: map<string, string>, keys: seq<string>): (missing: seq<string>)
    ensures |missing| <= |keys|
    ensures forall k :: k in missing ==> k in keys && ParamMissing(params, k)
  {
    if keys == [] then []
    else (if ParamMissing(params, keys[0]) then [keys[0]] else []) + MissingKeys(params, keys[1..])
  }

  /** A key is reported missing exactly when it is required and missing. */
  lemma {:induction false} MissingKeysExactly(params: map<string, string>, keys: seq<string>, k: string)
    ensures k in MissingKeys(params, keys) <==> k in keys && ParamMissing(params, k)
  {
    if keys != [] {
      MissingKeysExactly(params, keys[1..], k);
      assert k in keys <==> k == keys[0] || k in keys[1..];
    }
  }

  lemma ConcatAssoc<T>(a: seq<T>, b: seq<T>, c: seq<T>)
    ensures a + (b + c) == (a + b) + c
  {
  }

  lemma MissingKeysOfCons(params: map<string, string>, k: string, rest: seq<string>)
    ensures MissingKeys(params, [k] + rest)
         == (if ParamMissing(params, k) then [k] else []) + MissingKeys(params, rest)
  {
    assert ([k] + rest)[1..] == rest;
  }

  /** The missing keys keep the order of `requiredKeys`: filtering a
      concatenation is concatenating the filtered parts. */
  lemma {:induction false} MissingKeysOfConcat(params: map<string, string>, a: seq<string>, b: seq<string>)
    ensures MissingKeys(params, a + b) == MissingKeys(params, a) + MissingKeys(params, b)
    decreases |a|
  {
    if a == [] {
      assert a + b == b;
    } else {
      assert a + b == [a[0]] + (a[1..] + b);
      assert a == [a[0]] + a[1..];
      var head := if ParamMissing(params, a[0]) then [a[0]] else [];
      var x, y := MissingKeys(params, a[1..]), MissingKeys(params, b);
      MissingKeysOfCons(params, a[0], a[1..] + b);
      MissingKeysOfCons(params, a[0], a[1..]);
      MissingKeysOfConcat(params, a[1..], b);
      ConcatAssoc(head, x, y);
    }
  }

  lemma {:induction false} NoMissingKeys(params: map<string, string>, keys: seq<string>)
    ensures MissingKeys(params, keys) == [] <==> forall k :: k in keys ==> !ParamMissing(params, k)
  {
    if keys != [] {
      NoMissingKeys(params, keys[1..]);
      assert forall k :: k in keys <==> k == keys[0] || k in keys[1..];
    }
  }

  /** `validateParams`: the parameters unchanged when every required key is
      present and not blank, otherwise a validation error naming the missing
      keys in order. */
  function ValidateParams(params: map<string, string>, requiredKeys: seq<string>): (r: Result<map<string, string>, ApiError>)
    ensures r.Success? <==> forall k :: k in requiredKeys ==> !ParamMissing(params, k)
    ensures r.Success? ==> r.value == params
    ensures r.Failure? ==>
      var missing := MissingKeys(params, requiredKeys);
      && missing != []
      && r.error.code == ValidationError && r.error.statusCode == 400
      && r.error.message == "Missing required parameters: " + Join(missing, ", ")
      && r.error.details == Some(MissingParams(params, missing))
  {
    NoMissingKeys(params, requiredKeys);
    var missing := MissingKeys(params, requiredKeys);
    if missing != [] then
      Failure(NewValidationError(Some("Missing required parameters: " + Join(missing, ", ")),
                                 Some(MissingParams(params, missing))))
    else
      Success(params)
  }

  /** A query string: its name/value pairs in order. */
  type QueryParams = seq<(string, string)>

  /** `searchParams.get(key)`: the value of the first pair named `key`. */
  function GetQueryParam(query: QueryParams, key: string): (r: Option<string>)
    ensures r.None? <==> forall i :: 0 <= i < |query| ==> query[i].0 != key
    ensures r.Some? ==> exists i :: 0 <= i < |query| && query[i] == (key, r.value) &&
                                   forall j :: 0 <= j < i ==> query[j].0 != key
  {
    if query == [] then None
    else if query[0].0 == key then Some(query[0].1)
    else
      var r := GetQueryParam(query[1..], key);
      if r.Some? then
        ghost var i :| 0 <= i < |query[1..]| && query[1..][i] == (key, r.value) &&
                       forall j :: 0 <= j < i ==> query[1..][j].0 != key;
        assert query[i + 1] == (key, r.value);
        r
      else r
  }

  /** The spellings of "true" accepted by `getBooleanQueryParam`. */
  const TRUTHY: seq<string> := ["true", "1", "yes", "on"]

  /** `getBooleanQueryParam`: absent gives null; otherwise true exactly for
      "true", "1", "yes" and "on" in any letter case. */
  function GetBooleanQueryParam(query: QueryParams, key: string): (r: Option<bool>)
    ensures r.None? <==> GetQueryParam(query, key).None?
    ensures r.Some? ==> (r.value <==> ToLower(GetQueryParam(query, key).value) in TRUTHY)
  {
    match GetQueryParam(query, key)
    case None => None
    case Some(value) => Some(ToLower(value) in TRUTHY)
  }

  /** The spellings accepted without regard to case. */
  lemma BooleanQueryParamExamples(key: string)
    ensures GetBooleanQueryParam([(key, "TRUE")], key) == Some(true)
    ensures GetBooleanQueryParam([(key, "On")], key) == Some(true)
    ensures GetBooleanQueryParam([(key, "0")], key) == Some(false)
    ensures GetBooleanQueryParam([(key, "")], key) == Some(false)
    ensures GetBooleanQueryParam([], key) == None
  {
    assert ToLower("TRUE") == "true";
    assert ToLower("On") == "on";
    assert ToLower("0") == "0";
  }

  /** A header counts as missing when absent or empty. */
  predicate HeaderMissing(request: map<string, string>, name: string) {
    name !in request || request[name] == ""
  }

  /** The required headers that are missing, in the order they were required. */
  function MissingHeaderNames(request: map<string, string>, names: seq<string>): (missing: seq<string>)
    ensures forall h :: h in missing ==> h in names && HeaderMissing(request, h)
  {
    if names == [] then []
    else (if HeaderMissing(request, names[0]) then [names[0]] else []) + MissingHeaderNames(request, names[1..])
  }

  lemma {:induction false} MissingHeaderNamesOfSnoc(request: map<string, string>, names: seq<string>, h: string)
    ensures MissingHeaderNames(request, names + [h])
         == MissingHeaderNames(request, names) + (if HeaderMissing(request, h) then [h] else [])
  {
    if names != [] {
      assert (names + [h])[1..] == names[1..] + [h];
      MissingHeaderNamesOfSnoc(request, names[1..], h);
    }
  }

  lemma {:induction false} NoMissingHeaders(request: map<string, string>, names: seq<string>)
    ensures MissingHeaderNames(request, names) == [] <==> forall h :: h in names ==> !HeaderMissing(request, h)
  {
    if names != [] {
      NoMissingHeaders(request, names[1..]);
      assert forall h :: h in names <==> h == names[0] || h in names[1..];
    }
  }

  /** The loop of `validateHeaders`: every required header is either copied
      from the request or listed as missing. */
  method CollectHeaders(request: map<string, string>, requiredHeaders: seq<string>)
    returns (headers: map<string, string>, missingHeaders: seq<string>)
    ensures missingHeaders == MissingHeaderNames(request, requiredHeaders)
    ensures forall h :: h in headers <==> h in requiredHeaders && !HeaderMissing(request, h)
    ensures forall h :: h in headers ==> h in request && headers[h] == request[h]
  {
    headers := map[];
    missingHeaders := [];
    for i := 0 to |requiredHeaders|
      invariant missingHeaders == MissingHeaderNames(request, requiredHeaders[..i])
      invariant forall h :: h in headers <==> h in requiredHeaders[..i] && !HeaderMissing(request, h)
      invariant forall h :: h in headers ==> h in request && headers[h] == request[h]
    {
      var name := requiredHeaders[i];
      assert requiredHeaders[..i + 1] == requiredHeaders[..i] + [name];
      MissingHeaderNamesOfSnoc(request, requiredHeaders[..i], name);
      if name !in request || request[name] == "" {
        missingHeaders := missingHeaders + [name];
      } else {
        headers := headers[name := request[name]];
      }
    }
    assert requiredHeaders[..|requiredHeaders|] == requiredHeaders;
  }

  /** `validateHeaders`: on success, exactly the required headers with the
      request's values; otherwise a validation error listing the missing
      headers in the order they were required. */
  method ValidateHeaders(request: map<string, string>, requiredHeaders: seq<string>)
    returns (r: Result<map<string, string>, ApiError>)
    ensures r.Success? <==> forall h :: h in requiredHeaders ==> !HeaderMissing(request, h)
    ensures r.Success? ==>
      && r.value.Keys == set h | h in requiredHeaders
      && forall h :: h in r.value ==> h in request && r.value[h] == request[h]
    ensures r.Failure? ==>
      var missing := MissingHeaderNames(request, requiredHeaders);
      && missing != []
      && r.error.code == ValidationError && r.error.statusCode == 400
      && r.error.message == "Missing required headers: " + Join(missing, ", ")
      && r.error.details == Some(MissingHeaders(missing))
  {
    var headers, missingHeaders := CollectHeaders(request, requiredHeaders);
    NoMissingHeaders(request, requiredHeaders);
    if missingHeaders != [] {
      return Failure(NewValidationError(Some("Missing required headers: " + Join(missingHeaders, ", ")),
                                        Some(MissingHeaders(missingHeaders))));
    }
    assert headers.Keys == set h | h in requiredHeaders;
    return Success(headers);
  }
}
