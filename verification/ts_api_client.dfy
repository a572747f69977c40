/** `TSAPIClient`: the time-series client built on the shared base client. Its request
    builder writes `site.elevation` whenever an elevation is given (`is not None`). */
module TsApiClient {
  import opened Documents
  import opened FileLabels
  import opened TimeseriesRequests
  import opened Datasets
  import opened SgApiClientBase

  /** `TSAPIClient.create_request_dict` on its bound arguments. */
  function CreateRequestDict(args: TsArgs): (r: Result<Document>)
    ensures r.Ok? <==> Hashable(args.timeStep) && args.siteName.JString?
  {
    RequestDocument(args, args.siteElevation != JNull)
  }

  /** `site.elevation` is written exactly when an elevation is given (`is not None`), and then holds it. */
  lemma ElevationWritten(args: TsArgs)
    ensures var r := CreateRequestDict(args);
      r.Ok? && "site" !in args.extra ==>
      && "site" in r.value && r.value["site"].JObject?
      && ("elevation" in r.value["site"].fields <==> args.siteElevation != JNull)
      && (args.siteElevation != JNull ==> r.value["site"].fields["elevation"] == args.siteElevation)
  {
    RequestDocumentSite(args, args.siteElevation != JNull);
  }

  /** `create_request_dict(**kwargs)`: Python's argument binding, then the builder. */
  function CreateFromKwargs(kwargs: Document): (r: Result<Document>)
    ensures ("lat" !in kwargs || "long" !in kwargs || "site_name" !in kwargs) ==> r == Err(TypeError)
  {
    match BindKwargs(kwargs)
    case Err(e) => Err(e)
    case Ok(args) => CreateRequestDict(args)
  }

  /** Every keyword that is not a named parameter reaches the document unchanged, and every built key is present. */
  lemma KwargsPassThrough(kwargs: Document)
    ensures var r := CreateFromKwargs(kwargs);
      r.Ok? ==>
      && (forall k :: k in kwargs && k !in NamedParameters ==> k in r.value && r.value[k] == kwargs[k])
      && (forall k :: k in RequestKeys ==> k in r.value)
  {
    if BindKwargs(kwargs).Ok? {
      var args := BindKwargs(kwargs).value;
      RequestDocumentKeys(args, args.siteElevation != JNull);
    }
  }

  /** Without a `fileLabel` keyword the label is safe; without (truthy) parameters the columns are the defaults. */
  lemma KwargsDefaults(kwargs: Document)
    ensures var r := CreateFromKwargs(kwargs);
      && (r.Ok? && "fileLabel" !in kwargs ==> "fileLabel" in r.value && r.value["fileLabel"].JString? && IsSafeLabel(r.value["fileLabel"].s))
      && (r.Ok? && "columns" !in kwargs && ("parameters" !in kwargs || !Truthy(kwargs["parameters"])) ==>
            "columns" in r.value && r.value["columns"] == DefaultColumns())
  {
    if BindKwargs(kwargs).Ok? {
      var args := BindKwargs(kwargs).value;
      RequestDocumentEntries(args, args.siteElevation != JNull);
    }
  }

  /** An elevation of 0 is a given elevation: it is written into "site". */
  lemma ZeroElevationKept(args: TsArgs)
    requires args.siteElevation == JNum(0.0) && "site" !in args.extra
    requires Hashable(args.timeStep) && args.siteName.JString?
    ensures CreateRequestDict(args).Ok?
    ensures var doc := CreateRequestDict(args).value;
      "site" in doc && doc["site"].JObject? && "elevation" in doc["site"].fields && doc["site"].fields["elevation"] == JNum(0.0)
  {
    ElevationWritten(args);
  }

  /** `TSAPIClient(...)`: the base client whose request builder is `CreateFromKwargs`. */
  method NewClient() returns (c: Client)
    ensures fresh(c) && c.Valid()
    ensures c.createRequestDict == CreateFromKwargs
    ensures c.requests == [] && c.datasets == map[] && c.metadata == map[] && c.requestIdsToNames == map[]
    ensures c.fileLabelsFromApi == map[]
  {
    c := new Client(CreateFromKwargs);
  }

  /** `read_data` once the download `urlName` has been fetched and parsed into `parsed`:
      records the prettified file label, then splits the document into table and metadata.
      The label is recorded even when the split raises. */
  method ReadData(client: Client, name: string, urlName: string, parsed: Document) returns (r: Result<(Frame, Document)>)
    modifies client
    ensures client.fileLabelsFromApi == old(client.fileLabelsFromApi)[name := PrettifyFileLabel(urlName)]
    ensures r == SplitDataAndMetadata(parsed)
    ensures client.requests == old(client.requests) && client.requestIdsToNames == old(client.requestIdsToNames)
    ensures client.datasets == old(client.datasets) && client.metadata == old(client.metadata)
  {
    client.fileLabelsFromApi := client.fileLabelsFromApi[name := PrettifyFileLabel(urlName)];
    r := SplitDataAndMetadata(parsed);
  }
}
