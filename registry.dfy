/** The `FunctionLibrary` table shape shared by server/src/lib/functions.ts and
    client/src/lib/functions.ts, and the `functions` list both derive from it with
    `functionLibraries.map(fn => ({ ...fn.schema, name: fn.name }))`. Callbacks do I/O
    and are not part of a table entry here; the request handler takes them as a parameter. */
module Registry {
  import opened Wrappers

  /** One entry of a JSON-schema `properties` object. */
  datatype Property = Property(kind: string, description: string)

  /** The `parameters` JSON schema of a function: `required` may be absent. */
  datatype Parameters = Parameters(kind: string, properties: seq<(string, Property)>, required: Option<seq<string>>)

  /** `Omit<ChatCompletionFunctions, 'name'>` */
  datatype Schema = Schema(description: string, parameters: Parameters)

  datatype FunctionLibrary = FunctionLibrary(name: string, schema: Schema)

  /** `ChatCompletionFunctions`: the entry sent to the model. */
  datatype FunctionSchema = FunctionSchema(name: string, description: string, parameters: Parameters)

  /** Splits a sent entry back into its name and the schema it was spread from. */
  function ToLibrary(f: FunctionSchema): FunctionLibrary {
    FunctionLibrary(f.name, Schema(f.description, f.parameters))
  }

  /** The derived `functions` list: same length and order as the table, and each entry
      splits back into exactly its table entry. */
  function ToFunctions(libraries: seq<FunctionLibrary>): (functions: seq<FunctionSchema>)
    ensures |functions| == |libraries|
    ensures forall i :: 0 <= i < |libraries| ==> ToLibrary(functions[i]) == libraries[i]
  {
    if libraries == [] then []
    else
      var fn := libraries[0];
      [FunctionSchema(fn.name, fn.schema.description, fn.schema.parameters)] + ToFunctions(libraries[1..])
  }

  /** The names the model is offered are exactly the table's names, in order. */
  lemma ToFunctionsNames(libraries: seq<FunctionLibrary>, i: nat)
    requires i < |libraries|
    ensures ToFunctions(libraries)[i].name == libraries[i].name
    ensures ToFunctions(libraries)[i].parameters == libraries[i].schema.parameters
  {
    assert ToLibrary(ToFunctions(libraries)[i]) == libraries[i];
  }

  /** `functionLibraries.find(fn => fn.name === name)`: the index of the FIRST entry with
      that name; an undefined name matches nothing. */
  function FindIndex(libraries: seq<FunctionLibrary>, name: Option<string>): (r: Option<nat>)
    ensures r.Some? ==> r.value < |libraries| && name == Some(libraries[r.value].name)
    ensures r.Some? ==> forall j :: 0 <= j < r.value ==> Some(libraries[j].name) != name
    ensures r.None? <==> forall j :: 0 <= j < |libraries| ==> Some(libraries[j].name) != name
  {
    if libraries == [] then None
    else if name == Some(libraries[0].name) then Some(0)
    else
      match FindIndex(libraries[1..], name)
      case None => None
      case Some(k) => Some(k + 1)
  }

  /** All names of a table differ. */
  predicate DistinctNames(libraries: seq<FunctionLibrary>) {
    forall i, j :: 0 <= i < j < |libraries| ==> libraries[i].name != libraries[j].name
  }

  /** With distinct names the lookup finds an entry exactly when its name is asked for. */
  lemma FindIndexDistinct(libraries: seq<FunctionLibrary>, i: nat)
    requires DistinctNames(libraries)
    requires i < |libraries|
    ensures FindIndex(libraries, Some(libraries[i].name)) == Some(i)
  {
    var r := FindIndex(libraries, Some(libraries[i].name));
    assert r.Some?;
  }
}
