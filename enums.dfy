/** The two fixed name-to-code tables of the search tool. */
module Enums {
  import opened Json

  /** Parameter kinds and their wire codes. */
  const SearchParameterEnum: map<string, int> := map[
    "EntityType" := 1,
    "PropertySet" := 2,
    "Property" := 3,
    "ClassificationParameterSet" := 4,
    "ClassificationParameter" := 5,
    "Storey" := 6,
    "Distance" := 7
  ]

  /** Operators and their wire codes. */
  const SearchOperatorEnum: map<string, int> := map[
    "Equal" := 1,
    "NotEqual" := 2
  ]

  /** A value that the exact, case-sensitive dictionary lookup of a parameter
      name accepts. */
  predicate KnownParameter(v: Value)
  {
    v.Str? && v.s in SearchParameterEnum
  }

  /** A value that the exact, case-sensitive dictionary lookup of an operator
      name accepts. */
  predicate KnownOperator(v: Value)
  {
    v.Str? && v.s in SearchOperatorEnum
  }

  /** The parameter table holds exactly seven names with codes 1 to 7, one code
      per name, and matching is case-sensitive. */
  lemma ParameterEnumTable()
    ensures SearchParameterEnum.Keys == {"EntityType", "PropertySet", "Property",
      "ClassificationParameterSet", "ClassificationParameter", "Storey", "Distance"}
    ensures SearchParameterEnum["EntityType"] == 1 && SearchParameterEnum["PropertySet"] == 2
    ensures SearchParameterEnum["Property"] == 3 && SearchParameterEnum["ClassificationParameterSet"] == 4
    ensures SearchParameterEnum["ClassificationParameter"] == 5 && SearchParameterEnum["Storey"] == 6
    ensures SearchParameterEnum["Distance"] == 7
    ensures forall n :: n in SearchParameterEnum ==> 1 <= SearchParameterEnum[n] <= 7
    ensures forall a, b | a in SearchParameterEnum && b in SearchParameterEnum ::
              SearchParameterEnum[a] == SearchParameterEnum[b] ==> a == b
    ensures "entitytype" !in SearchParameterEnum && "ENTITYTYPE" !in SearchParameterEnum
    ensures "storey" !in SearchParameterEnum && "Elevation" !in SearchParameterEnum
  {
  }

  /** The operator table accepts only `Equal` (code 1) and `NotEqual` (code 2),
      spelled exactly so. */
  lemma OperatorEnumTable()
    ensures SearchOperatorEnum.Keys == {"Equal", "NotEqual"}
    ensures SearchOperatorEnum["Equal"] == 1 && SearchOperatorEnum["NotEqual"] == 2
    ensures "equal" !in SearchOperatorEnum && "notEqual" !in SearchOperatorEnum
  {
  }
}
