/** The server's function table (server/src/lib/functions.ts). */
module ServerFunctions {
  import opened Wrappers
  import opened Registry

  const GetLocation: FunctionLibrary := FunctionLibrary(
    "get_location_by_ip_address",
    Schema(
      "Get location by IP address",
      Parameters("object",
        [("ipAddress", Property("string", "The IP address to get the location of"))],
        None)))

  const TellDatetime: FunctionLibrary := FunctionLibrary(
    "tell_datetime",
    Schema(
      "Get current time and date based on the timezone",
      Parameters("object",
        [("timezone", Property("string",
           "The timezone to use. This should be a valid timezone name from the tz database."))],
        Some(["timezone"]))))

  const FunctionLibraries: seq<FunctionLibrary> := [GetLocation, TellDatetime]

  /** The `functions` export sent to the model. */
  function Functions(): (fs: seq<FunctionSchema>)
    ensures |fs| == 2
    ensures fs[0].name == "get_location_by_ip_address" && fs[1].name == "tell_datetime"
    ensures fs[0].parameters.required.None?
    ensures fs[1].parameters.required == Some(["timezone"])
  {
    var fs := ToFunctions(FunctionLibraries);
    ToFunctionsNames(FunctionLibraries, 0);
    ToFunctionsNames(FunctionLibraries, 1);
    fs
  }

  /** Exactly two names are registered, and they differ. */
  lemma RegisteredNames()
    ensures DistinctNames(FunctionLibraries)
    ensures forall fn :: fn in FunctionLibraries ==> fn.name in {"get_location_by_ip_address", "tell_datetime"}
    ensures FindIndex(FunctionLibraries, Some("get_location_by_ip_address")) == Some(0)
    ensures FindIndex(FunctionLibraries, Some("tell_datetime")) == Some(1)
  {
    FindIndexDistinct(FunctionLibraries, 0);
    FindIndexDistinct(FunctionLibraries, 1);
  }
}
