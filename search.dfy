/** `dtwin_search`: validates the tool argument, resolves parameter and
    operator names to their codes, normalises `key`/`value`, and wraps the
    result in the fixed response envelope. */
module Search {
  import opened Json
  import opened Enums
  import opened Normalize
  import opened Payload

  /** One kind per `raise` in the tool, carrying the offending name where the
      message shows it. `Unhashable` is the `TypeError` Python raises when a
      list or dictionary is tested for membership in a name table. */
  datatype SearchError =
    | NotAnObject
    | ParametersNotAList
    | ParameterNotAnObject
    | UnknownParameter(name: Value)
    | UnknownOperator(name: Value)
    | Unhashable(name: Value)

  datatype Result<T> = Ok(value: T) | Err(error: SearchError)

  /** The operator name after defaulting: a missing or falsy `operator` reads
      as `Equal`. */
  function OperatorName(p: Value): (r: Value)
    requires p.Object?
    ensures Truthy(r)
    ensures !Truthy(Get(p, "operator")) ==> r == Str("Equal")
    ensures Truthy(Get(p, "operator")) ==> r == Get(p, "operator")
  {
    Or(Get(p, "operator"), Str("Equal"))
  }

  /** The error raised by a failed name lookup. */
  function LookupError(name: Value, unknown: SearchError): SearchError
  {
    if Hashable(name) then unknown else Unhashable(name)
  }

  /** An output entry as the tool builds it: a parameter code in 1..7, an
      operator code in 1..2, and `Key`/`Value` each `None` or lowercase. */
  predicate WellFormed(f: Filter)
  {
    1 <= f.parameter <= 7 && 1 <= f.operator <= 2 && IsNormalized(f.key) && IsNormalized(f.value)
  }

  /** One element of `parameters` turned into its output entry, or the first
      error its checks raise. */
  function ResolveFilter(p: Value): (r: Result<Filter>)
    ensures r.Ok? <==> p.Object? && KnownParameter(Get(p, "parameter")) && KnownOperator(OperatorName(p))
    ensures r.Ok? ==> WellFormed(r.value)
    ensures r.Err? && r.error.UnknownOperator? ==> Truthy(r.error.name)
  {
    if !p.Object? then Err(ParameterNotAnObject)
    else
      var pname := Get(p, "parameter");
      var oname := OperatorName(p);
      if !KnownParameter(pname) then Err(LookupError(pname, UnknownParameter(pname)))
      else if !KnownOperator(oname) then Err(LookupError(oname, UnknownOperator(oname)))
      else
        ParameterEnumTable();
        Ok(Filter(SearchParameterEnum[pname.s], SearchOperatorEnum[oname.s],
                  LowerOrNone(Get(p, "key")), LowerOrNone(Get(p, "value"))))
  }

  /** The list of entries for `parameters`, element by element in order; the
      first element that fails stops the whole list. */
  function CompileParams(ps: seq<Value>): (r: Result<seq<Filter>>)
    ensures r.Ok? ==> |r.value| == |ps| && forall i :: 0 <= i < |r.value| ==> WellFormed(r.value[i])
    ensures r.Err? ==> exists i :: 0 <= i < |ps| && ResolveFilter(ps[i]) == Err(r.error)
  {
    if ps == [] then Ok([])
    else match CompileParams(ps[..|ps| - 1])
      case Err(e) => Err(e)
      case Ok(fs) =>
        match ResolveFilter(ps[|ps| - 1])
        case Err(e) => Err(e)
        case Ok(f) => Ok(fs + [f])
  }

  /** The whole tool call: the payload it returns, or the error it raises. */
  function Compile(args: Value): (r: Result<SearchArguments>)
    ensures !args.Object? ==> r == Err(NotAnObject)
    ensures r.Ok? ==> args.Object? && (r.value.searchTerm == Str("") || Truthy(r.value.searchTerm))
    ensures r.Ok? ==> forall i :: 0 <= i < |r.value.parameters| ==> WellFormed(r.value.parameters[i])
    ensures r.Err? && !r.error.NotAnObject? && !r.error.ParametersNotAList? ==>
              args.Object? && Or(Get(args, "parameters"), List([])).List? &&
              exists i :: 0 <= i < |Or(Get(args, "parameters"), List([])).items| &&
                          ResolveFilter(Or(Get(args, "parameters"), List([])).items[i]) == Err(r.error)
  {
    if !args.Object? then Err(NotAnObject)
    else
      var paramsIn := Or(Get(args, "parameters"), List([]));
      if !paramsIn.List? then Err(ParametersNotAList)
      else match CompileParams(paramsIn.items)
        case Err(e) => Err(e)
        case Ok(fs) => Ok(SearchArguments(Or(Get(args, "searchTerm"), Str("")), fs))
  }

  /** Once a prefix of `parameters` fails, the whole list fails with the same
      error: nothing after the first failure is looked at. */
  lemma {:induction false} PrefixErrorSticks(ps: seq<Value>, k: nat)
    requires k <= |ps|
    requires CompileParams(ps[..k]).Err?
    ensures CompileParams(ps) == CompileParams(ps[..k])
  {
    if k < |ps| {
      var init := ps[..|ps| - 1];
      assert init[..k] == ps[..k];
      PrefixErrorSticks(init, k);
    } else {
      assert ps[..k] == ps;
    }
  }

  /** On success the output has one entry per input element, in order, entry
      `i` built from element `i`; success means every element resolves. */
  lemma {:induction false} CompileParamsPointwise(ps: seq<Value>)
    ensures CompileParams(ps).Ok? <==> forall i :: 0 <= i < |ps| ==> ResolveFilter(ps[i]).Ok?
    ensures CompileParams(ps).Ok? ==>
              |CompileParams(ps).value| == |ps| &&
              forall i :: 0 <= i < |ps| ==> CompileParams(ps).value[i] == ResolveFilter(ps[i]).value
  {
    if ps != [] {
      var init := ps[..|ps| - 1];
      CompileParamsPointwise(init);
      assert forall i :: 0 <= i < |init| ==> init[i] == ps[i];
    }
  }

  /** A failure is the error of the first element that does not resolve. */
  lemma {:induction false} CompileParamsFirstError(ps: seq<Value>)
    requires CompileParams(ps).Err?
    ensures exists i :: 0 <= i < |ps| && ResolveFilter(ps[i]) == Err(CompileParams(ps).error) &&
                        forall j :: 0 <= j < i ==> ResolveFilter(ps[j]).Ok?
  {
    var init := ps[..|ps| - 1];
    assert forall i :: 0 <= i < |init| ==> init[i] == ps[i];
    match CompileParams(init)
    case Err(e) =>
      CompileParamsFirstError(init);
      var i :| 0 <= i < |init| && ResolveFilter(init[i]) == Err(e) &&
               forall j :: 0 <= j < i ==> ResolveFilter(init[j]).Ok?;
      assert ResolveFilter(ps[i]) == Err(e);
    case Ok(_) =>
      CompileParamsPointwise(init);
      assert ResolveFilter(ps[|ps| - 1]) == Err(CompileParams(ps).error);
  }

  /** Within one element the checks run in order: not a dictionary, then an
      unknown parameter (whatever the operator), then an unknown operator. */
  lemma ResolveFilterErrorOrder(p: Value)
    ensures !p.Object? ==> ResolveFilter(p) == Err(ParameterNotAnObject)
    ensures p.Object? && !KnownParameter(Get(p, "parameter")) ==>
              ResolveFilter(p) == Err(LookupError(Get(p, "parameter"), UnknownParameter(Get(p, "parameter"))))
    ensures p.Object? && KnownParameter(Get(p, "parameter")) && !KnownOperator(OperatorName(p)) ==>
              ResolveFilter(p) == Err(LookupError(OperatorName(p), UnknownOperator(OperatorName(p))))
  {
  }

  /** The entry built for an accepted element: the parameter's table code, the
      operator's code (1 exactly when the operator is `Equal`, absent or
      falsy), and `key`/`value` lowercased when they are strings and `None`
      otherwise. */
  lemma ResolveFilterEntry(p: Value)
    requires ResolveFilter(p).Ok?
    ensures var f := ResolveFilter(p).value;
            f.parameter == SearchParameterEnum[Get(p, "parameter").s] &&
            (f.operator == 1 <==> !Truthy(Get(p, "operator")) || Get(p, "operator") == Str("Equal")) &&
            (f.operator == 2 <==> Get(p, "operator") == Str("NotEqual")) &&
            f.key == LowerOrNone(Get(p, "key")) && f.value == LowerOrNone(Get(p, "value"))
  {
  }

  /** A missing or falsy `operator` on an element with a known parameter yields
      the `Equal` code 1. */
  lemma OperatorDefaultsToEqual(p: Value)
    requires p.Object? && KnownParameter(Get(p, "parameter"))
    requires !Truthy(Get(p, "operator"))
    ensures ResolveFilter(p).Ok? && ResolveFilter(p).value.operator == 1
  {
  }

  /** An argument that is not a dictionary is rejected first. */
  lemma CompileRejectsNonObject(args: Value)
    requires !args.Object?
    ensures Compile(args) == Err(NotAnObject)
  {
  }

  /** An absent or falsy `parameters` behaves as an empty list: no error and no
      entries, whatever else the argument holds. A truthy `parameters` that is
      not a list is rejected with `ParametersNotAList`. */
  lemma CompileParametersField(args: Value)
    requires args.Object?
    ensures !Truthy(Get(args, "parameters")) ==> Compile(args).Ok? && Compile(args).value.parameters == []
    ensures Truthy(Get(args, "parameters")) && !Get(args, "parameters").List? ==>
              Compile(args) == Err(ParametersNotAList)
  {
  }

  /** For a dictionary argument with a list of parameters: the call succeeds
      exactly when every element resolves; then the output has one entry per
      element, in order, entry `i` built from element `i` (nothing is dropped,
      merged or capped at one); otherwise the error is that of the first
      element that fails. */
  lemma CompileFilters(args: Value)
    requires args.Object? && Or(Get(args, "parameters"), List([])).List?
    ensures var ps := Or(Get(args, "parameters"), List([])).items;
            (Compile(args).Ok? <==> forall i :: 0 <= i < |ps| ==> ResolveFilter(ps[i]).Ok?) &&
            (Compile(args).Ok? ==>
               |Compile(args).value.parameters| == |ps| &&
               forall i :: 0 <= i < |ps| ==> Compile(args).value.parameters[i] == ResolveFilter(ps[i]).value) &&
            (Compile(args).Err? ==>
               exists i :: 0 <= i < |ps| && ResolveFilter(ps[i]) == Err(Compile(args).error) &&
                           forall j :: 0 <= j < i ==> ResolveFilter(ps[j]).Ok?)
  {
    var ps := Or(Get(args, "parameters"), List([])).items;
    CompileParamsPointwise(ps);
    if CompileParams(ps).Err? {
      CompileParamsFirstError(ps);
    }
  }

  /** `searchTerm`: absent, `None`, `""` or any other falsy value becomes `""`;
      a truthy value is passed through unchanged, in particular not lowercased. */
  lemma SearchTermPassedThrough(args: Value)
    requires Compile(args).Ok?
    ensures !Truthy(Get(args, "searchTerm")) ==> Compile(args).value.searchTerm == Str("")
    ensures Truthy(Get(args, "searchTerm")) ==> Compile(args).value.searchTerm == Get(args, "searchTerm")
  {
  }

  /** The response for a successful call is the fixed envelope: reading it back
      gives the payload, so it has exactly the keys `function`, `command`,
      `arguments`, `searchTerm`, `parameters`, the command `search`, and entries
      with exactly the keys `Parameter`, `Operator`, `Key`, `Value`. */
  lemma ResponseIsEnvelope(args: Value)
    requires Compile(args).Ok?
    ensures Response(Compile(args)).Ok?
    ensures Parse(Response(Compile(args)).value) == Some(Compile(args).value)
  {
    RenderRoundTrip(Compile(args).value);
  }

  /** The response `dtwin_search` returns for a successful compile. */
  function Response(r: Result<SearchArguments>): Result<Value>
  {
    match r
    case Ok(p) => Ok(Render(p))
    case Err(e) => Err(e)
  }

  /** When the elements before `i` resolve and element `i` does not, the whole
      call raises element `i`'s error. */
  lemma StopsAtElement(args: Value, i: nat)
    requires args.Object? && Or(Get(args, "parameters"), List([])).List?
    requires i < |Or(Get(args, "parameters"), List([])).items|
    requires var ps := Or(Get(args, "parameters"), List([])).items;
             CompileParams(ps[..i]).Ok? && ResolveFilter(ps[i]).Err?
    ensures var ps := Or(Get(args, "parameters"), List([])).items;
            Response(Compile(args)) == Err(ResolveFilter(ps[i]).error)
  {
    var ps := Or(Get(args, "parameters"), List([])).items;
    assert ps[..i + 1][..i] == ps[..i];
    PrefixErrorSticks(ps, i + 1);
  }

  /** `dtwin_search`: checks the argument, then builds the entries one
      parameter at a time, raising at the first bad one, then wraps them with
      the search term in the response envelope. */
  method DtwinSearch(args: Value) returns (r: Result<Value>)
    ensures r == Response(Compile(args))
  {
    if !args.Object? {
      return Err(NotAnObject);
    }
    var paramsIn := Or(Get(args, "parameters"), List([]));
    if !paramsIn.List? {
      return Err(ParametersNotAList);
    }
    var ps := paramsIn.items;
    var outParams: seq<Value> := [];
    ghost var filters: seq<Filter> := [];
    var i := 0;
    while i < |ps|
      invariant 0 <= i <= |ps|
      invariant CompileParams(ps[..i]) == Ok(filters)
      invariant outParams == RenderFilters(filters)
    {
      var p := ps[i];
      if !p.Object? {
        StopsAtElement(args, i);
        return Err(ParameterNotAnObject);
      }
      var pname := Get(p, "parameter");
      var oname := Or(Get(p, "operator"), Str("Equal"));
      if !Hashable(pname) {
        StopsAtElement(args, i);
        return Err(Unhashable(pname));
      }
      if !(pname.Str? && pname.s in SearchParameterEnum) {
        StopsAtElement(args, i);
        return Err(UnknownParameter(pname));
      }
      if !Hashable(oname) {
        StopsAtElement(args, i);
        return Err(Unhashable(oname));
      }
      if !(oname.Str? && oname.s in SearchOperatorEnum) {
        StopsAtElement(args, i);
        return Err(UnknownOperator(oname));
      }
      var f := Filter(SearchParameterEnum[pname.s], SearchOperatorEnum[oname.s],
                      LowerOrNone(Get(p, "key")), LowerOrNone(Get(p, "value")));
      outParams := outParams + [RenderFilter(f)];
      filters := filters + [f];
      assert ps[..i + 1][..i] == ps[..i];
      i := i + 1;
    }
    assert ps[..i] == ps;
    var searchTerm := Or(Get(args, "searchTerm"), Str(""));
    r := Ok(Envelope(searchTerm, outParams));
  }
}
