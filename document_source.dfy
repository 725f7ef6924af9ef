/** Document-source dispatch of the retrieval routes (server/src/routers/v2/isDocumentSource.ts):
    which loader a request selects, with which arguments and defaults, and which required
    field makes it fail. The loaders are foreign: the model names the loader call that
    would produce the documents instead of producing them. Request parameters, including
    an uploaded file as an object with a `buffer` member, are a JSON object. */
module DocumentSource {
  import opened Wrappers
  import opened Json

  /** The `DocumentSource` enum's values. */
  const SourceNames: seq<string> := ["youtube", "web", "text", "pdf"]

  /** `isDocumentSource(value)`: `includes` matches a string equal to one of the values. */
  predicate IsDocumentSource(value: Option<Json>)
  {
    value.Some? && value.value.JStr? && value.value.s in SourceNames
  }

  /** The loader call a branch makes. */
  datatype Loader =
    | Youtube(url: string, language: Json)
    | Web(url: string, selector: Json)
    | TextFromFile(buffer: Json)
    | TextFromUrl(url: string)
    | Pdf(blobPart: Option<Json>)

  /** How `getDocuments` ends: an `Error` thrown with a message, a TypeError from reading a
      member of a missing value, `null`, or the documents of one loader call. */
  datatype DocumentsOutcome = Thrown(message: string) | Crashed | NoDocuments | Loaded(loader: Loader)

  /** A destructuring default: applies only when the key is absent (`undefined`). */
  function WithDefault(v: Option<Json>, default: Json): (r: Json)
    ensures v.Some? ==> r == v.value
    ensures v.None? ==> r == default
  {
    if v.Some? then v.value else default
  }

  /** `file.buffer` of a value whose `typeof` is 'object'; null and arrays have no members. */
  function Buffer(file: Json): (r: Option<Json>)
    ensures r.Some? ==> file.JObj? && "buffer" in file.fields && r.value == file.fields["buffer"]
    ensures file.JObj? && "buffer" in file.fields ==> r.Some?
  {
    if file.JObj? then Field(file.fields, "buffer") else None
  }

  /** `getDocuments(params)` */
  method GetDocuments(params: map<string, Json>) returns (documents: DocumentsOutcome)
    ensures !IsDocumentSource(Field(params, "type")) ==> documents == NoDocuments
    ensures Field(params, "type") == Some(JStr("youtube")) ==>
              var videoId := Field(params, "videoId");
              && (IsNullish(videoId) ==> documents == Thrown("videoId is required"))
              && (IsStringType(videoId) ==>
                    documents == Loaded(Youtube("https://youtu.be/" + videoId.value.s,
                                                WithDefault(Field(params, "language"), JStr("en")))))
              && (!IsNullish(videoId) && !IsStringType(videoId) ==> documents == NoDocuments)
    ensures Field(params, "type") == Some(JStr("web")) ==>
              var url := Field(params, "url");
              && (IsNullish(url) ==> documents == Thrown("url is required"))
              && (IsStringType(url) ==>
                    documents == Loaded(Web(url.value.s, WithDefault(Field(params, "selector"), JStr("body")))))
              && (!IsNullish(url) && !IsStringType(url) ==> documents == NoDocuments)
    ensures Field(params, "type") == Some(JStr("text")) ==>
              var file := Field(params, "file");
              var url := Field(params, "url");
              && (IsNullish(file) && IsNullish(url) ==> documents == Thrown("file or url is required"))
              && (!(IsNullish(file) && IsNullish(url)) && IsObjectType(file) ==>
                    documents == (var buffer := Buffer(file.value);
                                  if IsNullish(buffer) then Crashed else Loaded(TextFromFile(buffer.value))))
              && (!(IsNullish(file) && IsNullish(url)) && !IsObjectType(file) ==>
                    documents == (if IsStringType(url) then Loaded(TextFromUrl(url.value.s)) else NoDocuments))
    ensures Field(params, "type") == Some(JStr("pdf")) ==>
              var file := Field(params, "file");
              && (IsNullish(file) ==> documents == Thrown("file is required"))
              && (!IsNullish(file) && IsObjectType(file) ==> documents == Loaded(Pdf(Buffer(file.value))))
              && (!IsNullish(file) && !IsObjectType(file) ==> documents == NoDocuments)
  {
    documents := NoDocuments;
    var sourceType := Field(params, "type");
    if sourceType == Some(JStr("youtube")) {
      var videoId := Field(params, "videoId");
      var language := WithDefault(Field(params, "language"), JStr("en"));
      if IsNullish(videoId) {
        return Thrown("videoId is required");
      }
      if IsStringType(videoId) {
        documents := Loaded(Youtube("https://youtu.be/" + videoId.value.s, language));
      }
    } else if sourceType == Some(JStr("web")) {
      var url := Field(params, "url");
      var selector := WithDefault(Field(params, "selector"), JStr("body"));
      if IsNullish(url) {
        return Thrown("url is required");
      }
      if IsStringType(url) {
        documents := Loaded(Web(url.value.s, selector));
      }
    } else if sourceType == Some(JStr("text")) {
      var file := Field(params, "file");
      var url := Field(params, "url");
      if IsNullish(file) && IsNullish(url) {
        return Thrown("file or url is required");
      }
      if IsObjectType(file) {
        var buffer := Buffer(file.value);
        if IsNullish(buffer) {
          return Crashed;
        }
        documents := Loaded(TextFromFile(buffer.value));
      } else if IsStringType(url) {
        documents := Loaded(TextFromUrl(url.value.s));
      }
    } else if sourceType == Some(JStr("pdf")) {
      var file := Field(params, "file");
      if IsNullish(file) {
        return Thrown("file is required");
      }
      if IsObjectType(file) {
        documents := Loaded(Pdf(Buffer(file.value)));
      }
    }
  }
}
