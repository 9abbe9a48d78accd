/** The search payload the tool returns: one coded filter per accepted
    parameter, the search term, and the fixed `function/command/arguments`
    envelope around them. */
module Payload {
  import opened Json

  datatype Option<T> = None | Some(value: T)

  /** One output entry: parameter code, operator code, and the normalised
      `Key` and `Value` fields (a string or `None`). */
  datatype Filter = Filter(parameter: int, operator: int, key: Value, value: Value)

  /** The arguments of the `search` command. */
  datatype SearchArguments = SearchArguments(searchTerm: Value, parameters: seq<Filter>)

  /** The dictionary built for one entry: exactly the PascalCase keys
      `Parameter` and `Operator`, holding integer codes, and `Key` and `Value`. */
  function RenderFilter(f: Filter): (r: Value)
    ensures r.Object? && r.fields.Keys == {"Parameter", "Operator", "Key", "Value"}
    ensures r.fields["Parameter"].Int? && r.fields["Operator"].Int?
  {
    Object(map["Parameter" := Int(f.parameter), "Operator" := Int(f.operator),
               "Key" := f.key, "Value" := f.value])
  }

  function RenderFilters(fs: seq<Filter>): (r: seq<Value>)
    ensures |r| == |fs|
  {
    seq(|fs|, i requires 0 <= i < |fs| => RenderFilter(fs[i]))
  }

  /** The response dictionary around a list of entries: `{"function":
      {"command": "search", "arguments": {"searchTerm": …, "parameters": […]}}}`. */
  function Envelope(searchTerm: Value, entries: seq<Value>): Value
  {
    Object(map["function" := Object(map[
      "command" := Str("search"),
      "arguments" := Object(map["searchTerm" := searchTerm, "parameters" := List(entries)])])])
  }

  /** The response for a payload: a value the strict envelope reader accepts
      and reads back as that same payload. */
  function Render(p: SearchArguments): (r: Value)
    ensures Parse(r) == Some(p)
  {
    ParseRenderFilters(p.parameters);
    Envelope(p.searchTerm, RenderFilters(p.parameters))
  }

  /** Reads one entry back; only a dictionary with exactly the four PascalCase
      keys and integer codes is an entry. */
  function ParseFilter(v: Value): (r: Option<Filter>)
    ensures r.Some? ==> RenderFilter(r.value) == v
  {
    if v.Object? && v.fields.Keys == {"Parameter", "Operator", "Key", "Value"}
       && v.fields["Parameter"].Int? && v.fields["Operator"].Int?
    then Some(Filter(v.fields["Parameter"].i, v.fields["Operator"].i, v.fields["Key"], v.fields["Value"]))
    else None
  }

  /** Reads a list of entries back; it succeeds only when every element is an
      entry, and then the list is exactly the rendering of what it returns. */
  function ParseFilters(vs: seq<Value>): (r: Option<seq<Filter>>)
    ensures r.Some? ==> |r.value| == |vs| && RenderFilters(r.value) == vs
  {
    if vs == [] then Some([])
    else match (ParseFilter(vs[0]), ParseFilters(vs[1..]))
      case (Some(f), Some(fs)) => Some([f] + fs)
      case _ => None
  }

  /** Reads a response back; only a value with exactly the keys of the fixed
      envelope, the command `search` and a list of entries is a response. */
  function Parse(v: Value): (r: Option<SearchArguments>)
    ensures r.Some? ==> v == Envelope(r.value.searchTerm, RenderFilters(r.value.parameters))
  {
    if v.Object? && v.fields.Keys == {"function"} then
      var fn := v.fields["function"];
      if fn.Object? && fn.fields.Keys == {"command", "arguments"} && fn.fields["command"] == Str("search") then
        var args := fn.fields["arguments"];
        if args.Object? && args.fields.Keys == {"searchTerm", "parameters"} && args.fields["parameters"].List? then
          match ParseFilters(args.fields["parameters"].items)
          case Some(fs) =>
            assert args.fields == map["searchTerm" := args.fields["searchTerm"],
                                      "parameters" := List(RenderFilters(fs))];
            assert fn.fields == map["command" := Str("search"), "arguments" := args];
            assert v.fields == map["function" := fn];
            Some(SearchArguments(args.fields["searchTerm"], fs))
          case None => None
        else None
      else None
    else None
  }

  lemma {:induction false} ParseRenderFilters(fs: seq<Filter>)
    ensures ParseFilters(RenderFilters(fs)) == Some(fs)
  {
    if fs != [] {
      var vs := RenderFilters(fs);
      ParseRenderFilters(fs[1..]);
      assert vs[1..] == RenderFilters(fs[1..]);
      assert ParseFilter(vs[0]) == Some(fs[0]);
      assert [fs[0]] + fs[1..] == fs;
    }
  }

  /** Every rendered response has exactly the envelope's keys, the command
      `search`, and entries with exactly the keys `Parameter`, `Operator`, `Key`
      and `Value`: reading it back yields the payload it was built from. */
  lemma RenderRoundTrip(p: SearchArguments)
    ensures Parse(Render(p)) == Some(p)
  {
  }

  /** The envelope reader and the renderer are inverse: a value reads back as
      a payload exactly when it is that payload's rendering. */
  lemma ParseIffRender(v: Value, p: SearchArguments)
    ensures Parse(v) == Some(p) <==> v == Render(p)
  {
  }

  /** Distinct payloads render to distinct responses. */
  lemma RenderInjective(p: SearchArguments, q: SearchArguments)
    requires Render(p) == Render(q)
    ensures p == q
  {
    RenderRoundTrip(p);
    RenderRoundTrip(q);
  }
}
