/** The client's function table (client/src/lib/functions.ts): one entry. */
module ClientFunctions {
  import opened Wrappers
  import opened Registry

  const FunctionLibraries: seq<FunctionLibrary> := [
    FunctionLibrary(
      "get_location_by_ip_address",
      Schema(
        "Get location by IP address",
        Parameters("object",
          [("ipAddress", Property("string", "The IP address to get the location of"))],
          None)))
  ]

  function Functions(): (fs: seq<FunctionSchema>)
    ensures |fs| == 1
    ensures fs[0].name == "get_location_by_ip_address"
    ensures fs[0].description == "Get location by IP address"
    ensures fs[0].parameters.properties == [("ipAddress", Property("string", "The IP address to get the location of"))]
    ensures fs[0].parameters.required.None?
  {
    var fs := ToFunctions(FunctionLibraries);
    ToFunctionsNames(FunctionLibraries, 0);
    assert ToLibrary(fs[0]) == FunctionLibraries[0];
    fs
  }
}
