/** Concrete calls of the search tool and what they return. */
module Scenarios {
  import opened Json
  import opened Normalize
  import opened Payload
  import opened Search

  function Param(parameter: Value, operator: Value, key: Value, value: Value): Value
  {
    Object(map["parameter" := parameter, "operator" := operator, "key" := key, "value" := value])
  }

  /** The lowercase forms of the strings used below. */
  lemma LowerExamples()
    ensures Lower("Color") == "color" && Lower("Red") == "red"
    ensures Lower("GroundFloor") == "groundfloor" && Lower("7") == "7"
  {
  }

  /** A one-element list compiles to the entry of its element. */
  lemma SingleElement(p: Value)
    ensures CompileParams([p]) == match ResolveFilter(p) case Ok(f) => Ok([f]) case Err(e) => Err(e)
  {
    assert [p][..0] == [];
    match ResolveFilter(p)
    case Ok(f) => assert [] + [f] == [f];
    case Err(e) =>
  }

  /** A property filter: codes 3 and 1, key and value lowercased, while the
      search term keeps its capital letter. */
  lemma PropertyScenario()
    ensures Compile(Object(map["searchTerm" := Str("Wall"),
                               "parameters" := List([Param(Str("Property"), Str("Equal"), Str("Color"), Str("Red"))])]))
         == Ok(SearchArguments(Str("Wall"), [Filter(3, 1, Str("color"), Str("red"))]))
  {
    var p := Param(Str("Property"), Str("Equal"), Str("Color"), Str("Red"));
    LowerExamples();
    assert ResolveFilter(p) == Ok(Filter(3, 1, Str("color"), Str("red")));
    SingleElement(p);
  }

  /** A storey filter with `NotEqual`: codes 6 and 2, and an empty search term
      stays empty. */
  lemma StoreyScenario()
    ensures Compile(Object(map["searchTerm" := Str(""),
                               "parameters" := List([Param(Str("Storey"), Str("NotEqual"), Str("GroundFloor"), Str("GroundFloor"))])]))
         == Ok(SearchArguments(Str(""), [Filter(6, 2, Str("groundfloor"), Str("groundfloor"))]))
  {
    var p := Param(Str("Storey"), Str("NotEqual"), Str("GroundFloor"), Str("GroundFloor"));
    LowerExamples();
    assert ResolveFilter(p) == Ok(Filter(6, 2, Str("groundfloor"), Str("groundfloor")));
    SingleElement(p);
  }

  /** An unknown parameter kind aborts the call with no payload. */
  lemma UnknownKindScenario()
    ensures Compile(Object(map["parameters" := List([Object(map["parameter" := Str("Elevation"), "operator" := Str("Equal")])])]))
         == Err(UnknownParameter(Str("Elevation")))
  {
  }

  /** Parameter names are matched case-sensitively. */
  lemma LowercaseNameScenario()
    ensures Compile(Object(map["parameters" := List([Object(map["parameter" := Str("storey")])])]))
         == Err(UnknownParameter(Str("storey")))
  {
  }

  /** Two filters give two entries, in order: at most one parameter is not
      enforced. Absent operator, key and value give `Equal` and `None`. */
  lemma TwoFiltersScenario()
    ensures Compile(Object(map["parameters" := List([Object(map["parameter" := Str("Distance"), "value" := Str("7")]),
                                                     Object(map["parameter" := Str("EntityType"), "key" := Int(3)])])]))
         == Ok(SearchArguments(Str(""), [Filter(7, 1, Null, Str("7")), Filter(1, 1, Null, Null)]))
  {
    var p := Object(map["parameter" := Str("Distance"), "value" := Str("7")]);
    var q := Object(map["parameter" := Str("EntityType"), "key" := Int(3)]);
    LowerExamples();
    assert ResolveFilter(p) == Ok(Filter(7, 1, Null, Str("7")));
    assert ResolveFilter(q) == Ok(Filter(1, 1, Null, Null));
    SingleElement(p);
    var ps := [p, q];
    assert ps[..|ps| - 1] == [p] && ps[|ps| - 1] == q;
    assert [Filter(7, 1, Null, Str("7"))] + [Filter(1, 1, Null, Null)]
        == [Filter(7, 1, Null, Str("7")), Filter(1, 1, Null, Null)];
  }

  /** A list given as the operator cannot be looked up in the operator table. */
  lemma UnhashableOperatorScenario()
    ensures Compile(Object(map["parameters" := List([Object(map["parameter" := Str("Storey"), "operator" := List([Str("Equal")])])])]))
         == Err(Unhashable(List([Str("Equal")])))
  {
  }

  /** The first failing element decides the error, even when a later one fails
      differently. */
  lemma FirstErrorScenario()
    ensures Compile(Object(map["parameters" := List([Str("Storey"), Object(map["parameter" := Str("Elevation")])])]))
         == Err(ParameterNotAnObject)
  {
    var ps := [Str("Storey"), Object(map["parameter" := Str("Elevation")])];
    assert CompileParams(ps[..1]) == Err(ParameterNotAnObject);
    PrefixErrorSticks(ps, 1);
  }

  /** A truthy `parameters` that is not a list is rejected; a falsy one is
      read as no parameters. */
  lemma ParametersShapeScenario()
    ensures Compile(Object(map["parameters" := Str("Storey")])) == Err(ParametersNotAList)
    ensures Compile(Object(map["parameters" := Int(0), "searchTerm" := Str("door")])) == Ok(SearchArguments(Str("door"), []))
    ensures Compile(List([])) == Err(NotAnObject)
  {
  }
}
