# dtwin search-request compiler, modelled in Dafny

This project models `dtwin_search`, the tool of the dTwin MCP server that turns a
search intent into the payload the dTwin search backend consumes. The tool takes
one argument object with an optional `searchTerm` and an optional `parameters`
list. For each list element it resolves the parameter-kind name and the operator
name to integer codes. It uses two fixed tables for this: seven parameter kinds
with codes 1–7, and `Equal`/`NotEqual` with codes 1–2. It lowercases `key` and
`value`, or turns them into `None` when they are not strings. It wraps the
entries and the search term in the fixed envelope
`{"function": {"command": "search", "arguments": {...}}}`. The first malformed
input raises an error, and no payload is returned.

Modules, one per component:

- `Json` (`json.dfy`): the argument values (`None`, string, integer, float,
  boolean, list, dictionary). It also has Python truthiness (`Truthy`), `x or
  default` (`Or`), `dict.get` (`Get`) and hashability (`Hashable`).
- `Enums` (`enums.dfy`): the two name-to-code tables, as constant maps.
- `Normalize` (`normalize.dfy`): ASCII `str.lower` and `_lower_or_none`.
- `Payload` (`payload.dfy`): the typed payload (`Filter`, and `SearchArguments` for the arguments of the `search` command). `Render`
  builds the response dictionary from it with the PascalCase entry keys.
  `Parse` is the inverse reader that accepts only the exact envelope.
- `Search` (`search.dfy`): the error kinds. `ResolveFilter` handles one
  element, `CompileParams` the list, and `Compile` the whole call. `DtwinSearch`
  is the tool itself, an imperative loop that builds the entry list by appending.
  It is proved equal to `Response(Compile(args))`.
- `Scenarios` (`scenarios.dfy`): concrete calls and their results.

Where the docstring and the code disagree, the model follows the code:

- Name lookup is an exact, case-sensitive dictionary lookup. `"storey"` is
  rejected, although the docstring speaks of case-insensitive equality
  (tools/dtwin_search.py:44). That line describes the backend, not this tool.
- The output entry keys are `Parameter`, `Operator`, `Key` and `Value`
  (PascalCase), as the code builds them at tools/dtwin_search.py:194-199.
- `searchTerm` is copied through unchanged, so `"Wall"` stays `"Wall"`. The
  docstring asks for a lowercase term (tools/dtwin_search.py:77, :100), but
  that is an instruction to the caller. The code does not lowercase it
  (tools/dtwin_search.py:201).
- Nothing limits the output to one parameter (tools/dtwin_search.py:80-82,
  :103). Every accepted element produces one entry.

The result is deterministic by construction. `Compile` is a function, and
`DtwinSearch`'s postcondition fixes its result to `Response(Compile(args))`.

## Model

| member | source | states |
|---|---|---|
| `Enums.ParameterEnumTable` | tools/dtwin_search.py:3-11 | The parameter table holds exactly the seven names, with codes EntityType 1 … Distance 7. Every code lies in 1..7 and distinct names have distinct codes. Lookup is case-sensitive: `entitytype`, `storey` and `Elevation` are absent. |
| `Enums.OperatorEnumTable` | tools/dtwin_search.py:12-15 | The operator table holds exactly `Equal` → 1 and `NotEqual` → 2. `equal` and `notEqual` are absent. |
| `Normalize.LowerChar` | tools/dtwin_search.py:36 | A lowercased character is never an uppercase ASCII letter. A–Z move up by 32 code points to a–z, and every other character is unchanged. |
| `Normalize.Lower` | tools/dtwin_search.py:36 | `str.lower` keeps the length and leaves no uppercase letter. Each uppercase letter becomes its lowercase partner, and every other character is kept in place. |
| `Normalize.LowerFixesExactlyLower` | tools/dtwin_search.py:36 | Lowering leaves a string unchanged if and only if the string is already lowercase. |
| `Normalize.LowerIdempotent` | tools/dtwin_search.py:36 | Lowering twice equals lowering once. |
| `Normalize.LowerOrNone` | tools/dtwin_search.py:35-36 | `_lower_or_none` returns a string exactly when given a string, and that string is the input's own lowercase form (`Lower` of it), so it is lowercase and of the same length. Any other value (absent, `None`, number, boolean, list, dictionary) gives `None`. |
| `Normalize.LowerOrNoneFixesNormalized` | tools/dtwin_search.py:35-36 | `_lower_or_none` returns its argument unchanged if and only if the argument is `None` or a lowercase string. |
| `Normalize.LowerOrNoneIdempotent` | tools/dtwin_search.py:35-36 | Applying `_lower_or_none` twice gives the same result as applying it once. |
| `Payload.RenderFilter` | tools/dtwin_search.py:194-199 | An entry dictionary has exactly the keys `Parameter`, `Operator`, `Key` and `Value`, and its two codes are integers. `ParseFilter` and `ParseRenderFilters` state that it reads back to the entry it was built from. |
| `Payload.ParseFilter` | tools/dtwin_search.py:194-199 | Whatever the entry reader accepts is exactly the rendering of the entry it returns: a dictionary with the four PascalCase keys and integer codes. |
| `Payload.ParseFilters` | tools/dtwin_search.py:208 | An accepted entry list reads back to one filter per element, and the list is exactly the rendering of the filters returned, in order. |
| `Payload.Render` | tools/dtwin_search.py:203-211 | The strict envelope reader accepts every rendered response and reads it back as the payload it was built from. |
| `Payload.Parse` | tools/dtwin_search.py:203-211 | Whatever the envelope reader accepts is exactly the envelope built from the returned search term and the rendered entries. It has the keys `function`, `command`, `arguments`, `searchTerm` and `parameters` only, and the command is `search`. |
| `Payload.ParseIffRender` | tools/dtwin_search.py:203-211 | A value reads back as a payload if and only if it is that payload's rendering. |
| `Payload.ParseRenderFilters` | tools/dtwin_search.py:194-199 | Reading back a rendered entry list gives the original filters, in order. |
| `Payload.RenderRoundTrip` | tools/dtwin_search.py:203-211 | Reading back a rendered response gives the original payload. The response has exactly the keys `function`, `command`, `arguments`, `searchTerm` and `parameters`, and the command `search`. |
| `Payload.RenderInjective` | tools/dtwin_search.py:203-211 | Distinct payloads render to distinct responses. |
| `Search.OperatorName` | tools/dtwin_search.py:187 | The operator name after defaulting is always truthy. It is `"Equal"` whenever `operator` is absent or falsy, and the element's own `operator` value, unchanged, whenever that is truthy. |
| `Search.ResolveFilter` | tools/dtwin_search.py:184-199 | An element is accepted if and only if it is a dictionary whose parameter name and defaulted operator name are in their tables. An accepted element gets a parameter code in 1..7, an operator code in 1..2, and a normalised `Key`/`Value`. An unknown operator error always carries a truthy name. |
| `Search.ResolveFilterErrorOrder` | tools/dtwin_search.py:184-192 | Within an element the checks run in this order: not a dictionary, then an unknown (or unhashable) parameter whatever the operator, then an unknown (or unhashable) operator. |
| `Search.ResolveFilterEntry` | tools/dtwin_search.py:189-198 | An accepted entry carries the table code of its parameter name. Its operator code is 1 if and only if the operator is `Equal`, absent or falsy, and 2 if and only if it is `NotEqual`. `Key` and `Value` are the `_lower_or_none` of the element's fields. |
| `Search.OperatorDefaultsToEqual` | tools/dtwin_search.py:187-196 | A known parameter with an absent or falsy operator is accepted with operator code 1. |
| `Search.CompileParams` | tools/dtwin_search.py:182-199 | The loop over `parameters`: on success, one well-formed entry per element (codes in range, `Key`/`Value` normalised). On failure, the error is one that some element raises. `CompileParamsPointwise`, `CompileParamsFirstError` and `PrefixErrorSticks` state exactly which entry and which error. |
| `Search.PrefixErrorSticks` | tools/dtwin_search.py:183-192 | Once a prefix of `parameters` fails, the whole list fails with that same error. |
| `Search.CompileParamsPointwise` | tools/dtwin_search.py:182-199 | The list compiles if and only if every element resolves. On success the output has the same length, and entry i is the resolution of element i. |
| `Search.CompileParamsFirstError` | tools/dtwin_search.py:183-192 | A failed list fails with the error of some element i, and every element before i resolves. |
| `Search.Compile` | tools/dtwin_search.py:175-212 | The whole call. A non-dictionary argument raises `NotAnObject`. On success the search term is `""` or truthy, and every entry is well-formed. Any error other than the two shape errors is raised by an element of the `parameters` list. `CompileFilters`, `CompileParametersField`, `SearchTermPassedThrough` and `ResponseIsEnvelope` state the rest. |
| `Search.StopsAtElement` | tools/dtwin_search.py:183-192 | If every element before i resolves and element i does not, the call raises element i's error and returns no payload. |
| `Search.CompileRejectsNonObject` | tools/dtwin_search.py:175-176 | An argument that is not a dictionary is rejected with `NotAnObject`. |
| `Search.CompileParametersField` | tools/dtwin_search.py:178-180 | An absent or falsy `parameters` gives success with no entries. A truthy `parameters` that is not a list is rejected with `ParametersNotAList`. |
| `Search.CompileFilters` | tools/dtwin_search.py:178-199 | With a list of parameters, the call succeeds if and only if every element resolves. On success there is one entry per element, in order, and nothing is dropped, merged or capped. On failure the error is that of the first failing element. |
| `Search.SearchTermPassedThrough` | tools/dtwin_search.py:201 | A falsy or absent `searchTerm` becomes `""`. A truthy one is copied through unchanged, without lowercasing. |
| `Search.ResponseIsEnvelope` | tools/dtwin_search.py:203-211 | A successful call's response reads back, through the strict envelope reader, to exactly the compiled payload. |
| `Search.DtwinSearch` | tools/dtwin_search.py:175-212 | The tool's loop raises exactly the error the specification `Compile` gives, or else returns the rendered payload. Its invariant relates the appended entries to the processed prefix. |
| `Scenarios.PropertyScenario` | tools/dtwin_search.py:183-207 | A `Property`/`Equal` filter with key `Color` and value `Red` gives codes 3 and 1 and `color`/`red`. The search term `Wall` is kept as is. |
| `Scenarios.StoreyScenario` | tools/dtwin_search.py:183-207 | A `Storey`/`NotEqual` filter gives codes 6 and 2 and lowercases `GroundFloor`. An empty search term stays empty. |
| `Scenarios.UnknownKindScenario` | tools/dtwin_search.py:189-190 | The parameter `Elevation` raises `UnknownParameter` with that name, and no payload is returned. |
| `Scenarios.LowercaseNameScenario` | tools/dtwin_search.py:189-190 | The parameter `storey` is rejected: matching is case-sensitive. |
| `Scenarios.TwoFiltersScenario` | tools/dtwin_search.py:182-199 | Two filters give two entries in order. An absent operator gives code 1, and an absent or non-string key gives `None`. |
| `Scenarios.UnhashableOperatorScenario` | tools/dtwin_search.py:187-192 | A non-empty list as operator raises the unhashable-name error. |
| `Scenarios.FirstErrorScenario` | tools/dtwin_search.py:183-190 | A non-dictionary first element decides the error, even though a later element has an unknown parameter. |
| `Scenarios.ParametersShapeScenario` | tools/dtwin_search.py:175-201 | A string `parameters` is rejected, `parameters: 0` reads as no parameters, and a list argument is rejected. |

## Left out

- main.py: registering the tool with the FastMCP host and serving it over streamable HTTP. This is transport plumbing around a library that is not part of this model. The `echo` tool it imports is not part of this model either.
- tools/dtwin_about.py: a static descriptive dictionary returned as text. It has no logic.
- The extraction rules in the docstring (tools/dtwin_search.py:50-82) are not enforced. They cover when to use EntityType, requiring both key and value for Property, the Storey placeholder, the singular search term and keeping at most one parameter. These are instructions to the calling agent, and the code does not check them. The code has no policy switches for them either.
- The exact text of the `ValueError` messages. Each `raise` is an error kind. The unknown-parameter and unknown-operator kinds carry the offending value that the message prints.
- Normalize.Lower: models `str.lower` on ASCII letters only. Other Unicode case mappings (accented letters, characters whose lowercase form is longer) are not modelled.
- Json.Value: dictionary keys are strings, as in the JSON the host decodes. Floats are exact reals, so NaN and infinities are not modelled.
- The serialisation of the response to JSON text is done by the host and is not modelled.
- The `Unhashable` error kind: the unhashable-name case is its own error kind. In Python it is a `TypeError` raised by the `in` test (tools/dtwin_search.py:189, :191), not a `ValueError`. Its message shows only the type name (`list` or `dict`), but the model's error carries the whole offending value.
