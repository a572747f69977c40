/** The older monolithic client: its own copy of the TS request builder, whose elevation
    test is truthiness rather than `is not None`, a poll loop that returns a pair and
    subscripts "downloadUrl", and a client that never replaces its registered requests. */
module SgApiClient {
  import opened Documents
  import opened TimeseriesRequests
  import opened Datasets
  import opened FileLabels
  import Base = SgApiClientBase
  import Ts = TsApiClient

  // ---------------------------------------------------------------------------
  // create_request_dict
  // ---------------------------------------------------------------------------

  /** The module-level `create_request_dict`: `site.elevation` is written only when `site_elevation`
      is truthy, so an elevation of 0 is dropped. */
  function CreateRequestDict(args: TsArgs): (r: Result<Document>)
    ensures r.Ok? <==> Hashable(args.timeStep) && args.siteName.JString?
  {
    RequestDocument(args, Truthy(args.siteElevation))
  }

  /** `site.elevation` is written exactly when `site_elevation` is truthy, and then holds it. */
  lemma ElevationWritten(args: TsArgs)
    ensures var r := CreateRequestDict(args);
      r.Ok? && "site" !in args.extra ==>
      && "site" in r.value && r.value["site"].JObject?
      && ("elevation" in r.value["site"].fields <==> Truthy(args.siteElevation))
      && (Truthy(args.siteElevation) ==> r.value["site"].fields["elevation"] == args.siteElevation)
  {
    RequestDocumentSite(args, Truthy(args.siteElevation));
  }

  /** `create_request_dict(**kwargs)` with this builder. */
  function CreateFromKwargs(kwargs: Document): (r: Result<Document>)
    ensures ("lat" !in kwargs || "long" !in kwargs || "site_name" !in kwargs) ==> r == Err(TypeError)
  {
    match BindKwargs(kwargs)
    case Err(e) => Err(e)
    case Ok(args) => CreateRequestDict(args)
  }

  /** Every keyword that is not a named parameter reaches the document unchanged, and every built key is present. */
  lemma KwargsPassThrough(kwargs: Document)
    ensures var r := CreateFromKwargs(kwargs);
      r.Ok? ==>
      && (forall k :: k in kwargs && k !in NamedParameters ==> k in r.value && r.value[k] == kwargs[k])
      && (forall k :: k in RequestKeys ==> k in r.value)
  {
    if BindKwargs(kwargs).Ok? {
      var args := BindKwargs(kwargs).value;
      RequestDocumentKeys(args, Truthy(args.siteElevation));
    }
  }

  /** The two builders produce the same document exactly when the elevation tests agree or do not
      matter: the elevation is truthy or None, the build raises, or the caller overrides "site". */
  lemma BuildersAgree(args: TsArgs)
    ensures CreateRequestDict(args) == Ts.CreateRequestDict(args) <==>
      Truthy(args.siteElevation) || args.siteElevation == JNull ||
      !(Hashable(args.timeStep) && args.siteName.JString?) || "site" in args.extra
  {
    var ok := Hashable(args.timeStep) && args.siteName.JString?;
    if Truthy(args.siteElevation) || args.siteElevation == JNull {
      assert Truthy(args.siteElevation) == (args.siteElevation != JNull);
    } else if ok && "site" in args.extra {
      SiteOverrideHidesElevation(args);
    } else if ok {
      ElevationWritten(args);
      Ts.ElevationWritten(args);
      assert "elevation" in Ts.CreateRequestDict(args).value["site"].fields;
      assert "elevation" !in CreateRequestDict(args).value["site"].fields;
    }
  }

  /** A caller's "site" replaces the built one, elevation and all. */
  lemma SiteOverrideHidesElevation(args: TsArgs)
    requires Hashable(args.timeStep) && args.siteName.JString? && "site" in args.extra
    ensures RequestDocument(args, true) == RequestDocument(args, false)
  {
    var fields := Fields(args, TimeAlignment(args.timeStep).value, ToSafeFileLabel(args.siteName.s));
    OverriddenEntry(fields, "site", JObject(Site(args, true)), JObject(Site(args, false)), args.extra);
  }

  /** Whatever `m[k]` was set to, an update that carries `k` hides it. */
  lemma OverriddenEntry<K, V>(m: map<K, V>, k: K, x: V, y: V, update: map<K, V>)
    requires k in update
    ensures m[k := x] + update == m[k := y] + update
  {
  }

  /** An elevation of 0 is dropped here and kept by `TSAPIClient.create_request_dict`. */
  lemma ZeroElevationDropped(args: TsArgs)
    requires args.siteElevation == JNum(0.0) && "site" !in args.extra
    requires Hashable(args.timeStep) && args.siteName.JString?
    ensures CreateRequestDict(args).Ok? && "elevation" !in CreateRequestDict(args).value["site"].fields
    ensures Ts.CreateRequestDict(args).Ok? && Ts.CreateRequestDict(args).value["site"].fields["elevation"] == JNum(0.0)
  {
    ElevationWritten(args);
    Ts.ElevationWritten(args);
  }

  // ---------------------------------------------------------------------------
  // wait_for_data
  // ---------------------------------------------------------------------------

  /** What this `wait_for_data` ends with: the pair `(download_url, status)`, a raised exception, or,
      when the script runs out, a loop that would poll again. */
  datatype LegacyOutcome =
    | LegacyReturned(downloadUrl: JsonValue, status: JsonValue)
    | LegacyRaised(error: Error)
    | LegacyStillPolling

  datatype LegacyRun = LegacyRun(outcome: LegacyOutcome, consumed: nat, sleeps: nat)

  /** The loop for a valid request id. On "success" the sleep comes first, then
      `response_status["downloadUrl"]` raises a KeyError when the key is missing. */
  function LegacyPollFrom(responses: seq<Document>): LegacyRun
  {
    if responses == [] then LegacyRun(LegacyStillPolling, 0, 0)
    else
      var response := responses[0];
      if "status" !in response then LegacyRun(LegacyRaised(ValueError), 1, 0)
      else if response["status"] == JString("error") then LegacyRun(LegacyReturned(JNull, JString("error")), 1, 0)
      else if response["status"] == JString("success") then
        if "downloadUrl" in response then LegacyRun(LegacyReturned(response["downloadUrl"], JString("success")), 1, 1)
        else LegacyRun(LegacyRaised(KeyError("downloadUrl")), 1, 1)
      else
        var rest := LegacyPollFrom(responses[1..]);
        LegacyRun(rest.outcome, rest.consumed + 1, rest.sleeps + 1)
  }

  /** This `wait_for_data(session, request_id)` against the given status responses. */
  function LegacyPoll(requestId: JsonValue, responses: seq<Document>): LegacyRun
  {
    if requestId == JNull then LegacyRun(LegacyReturned(JNull, JString("invalid request_id")), 0, 0)
    else LegacyPollFrom(responses)
  }

  /** The two poll loops read the same responses and sleep the same number of times; their results
      agree but for the request id, except that a "success" without "downloadUrl" raises here where
      the base returns None. */
  lemma {:induction false} LegacyPollAgreesWithBase(requestId: JsonValue, responses: seq<Document>)
    ensures var b, l := Base.Poll(requestId, responses), LegacyPoll(requestId, responses);
      && l.consumed == b.consumed && l.sleeps == b.sleeps
      && l.outcome == match b.outcome
        case StillPolling => LegacyStillPolling
        case Raised(e) => LegacyRaised(e)
        case Returned(url, status, _) =>
          if status == JString("success") && 0 < b.consumed <= |responses| && "downloadUrl" !in responses[b.consumed - 1]
          then LegacyRaised(KeyError("downloadUrl"))
          else LegacyReturned(url, status)
  {
    if requestId != JNull && responses != [] && Base.KeepsPolling(responses[0]) {
      LegacyPollAgreesWithBase(requestId, responses[1..]);
      var b := Base.Poll(requestId, responses[1..]);
      if 0 < b.consumed <= |responses[1..]| {
        assert responses[1..][b.consumed - 1] == responses[b.consumed];
      }
    }
  }

  /** This `wait_for_data`: the same `while status != "success"` loop, returning a pair. */
  method WaitForData(requestId: JsonValue, responses: seq<Document>) returns (outcome: LegacyOutcome, consumed: nat, sleeps: nat)
    ensures LegacyRun(outcome, consumed, sleeps) == LegacyPoll(requestId, responses)
  {
    outcome, consumed, sleeps := LegacyStillPolling, 0, 0;
    if requestId == JNull {
      outcome := LegacyReturned(JNull, JString("invalid request_id"));
      return;
    }
    var status := JNull;
    var response: Document := map[];
    while status != JString("success")
      invariant consumed <= |responses| && sleeps == consumed
      invariant status != JString("success") ==>
        var rest := LegacyPollFrom(responses[consumed..]);
        LegacyPoll(requestId, responses) == LegacyRun(rest.outcome, rest.consumed + consumed, rest.sleeps + consumed)
      invariant status == JString("success") ==> (
        && 0 < consumed && response == responses[consumed - 1]
        && "status" in response && response["status"] == status
        && LegacyPoll(requestId, responses) == LegacyPollFrom(responses[consumed - 1..]).(consumed := consumed, sleeps := sleeps))
      decreases |responses| - consumed
    {
      if consumed == |responses| {
        // the script is exhausted: the source would issue another status request here
        return;
      }
      response := responses[consumed];
      assert responses[consumed..][1..] == responses[consumed + 1..];
      consumed := consumed + 1;
      if "status" !in response {
        outcome := LegacyRaised(ValueError);
        return;
      }
      status := response["status"];
      if status == JString("error") {
        outcome := LegacyReturned(JNull, status);
        return;
      }
      sleeps := sleeps + 1;  // await asyncio.sleep(4)
    }
    if status == JString("success") {
      if "downloadUrl" !in response {
        outcome := LegacyRaised(KeyError("downloadUrl"));
        return;
      }
      outcome := LegacyReturned(response["downloadUrl"], status);
    } else {
      assert false;  // the loop only ends once status is "success"
    }
  }

  // ---------------------------------------------------------------------------
  // The client object
  // ---------------------------------------------------------------------------

  /** This `SGAPIClient`: registered requests, accumulated results, and the labels of the downloads.
      `createRequestDict` is the module-level `create_request_dict` it calls; the constructor fixes it. */
  class LegacyClient {
    const createRequestDict: Document -> Result<Document>
    var requests: seq<(string, Document)>
    var datasets: map<string, Option<Frame>>
    var metadata: map<string, Option<Document>>
    var fileLabelsFromApi: map<string, string>

    ghost predicate Valid()
      reads this
    {
      DistinctNames(requests)
    }

    constructor ()
      ensures Valid()
      ensures createRequestDict == CreateFromKwargs
      ensures requests == [] && datasets == map[] && metadata == map[] && fileLabelsFromApi == map[]
    {
      createRequestDict := CreateFromKwargs;
      requests, datasets, metadata, fileLabelsFromApi := [], map[], map[], map[];
    }

    /** `add_request(site_name, **kwargs)` with the module-level builder. */
    method AddRequest(siteName: string, kwargs: Document) returns (err: Option<Error>)
      requires Valid()
      modifies this
      ensures Valid()
      ensures var built := createRequestDict(kwargs["site_name" := JString(siteName)]);
        && (built.Ok? ==> err == None && requests == Put(old(requests), siteName, built.value))
        && (built.Err? ==> err == Some(built.error) && requests == old(requests))
      ensures err == None ==> Lookup(requests, siteName) == Some(createRequestDict(kwargs["site_name" := JString(siteName)]).value)
      ensures forall other :: other != siteName ==> Lookup(requests, other) == Lookup(old(requests), other)
      ensures datasets == old(datasets) && metadata == old(metadata) && fileLabelsFromApi == old(fileLabelsFromApi)
    {
      var built := createRequestDict(kwargs["site_name" := JString(siteName)]);
      if built.Err? {
        return Some(built.error);
      }
      var updated := Put(requests, siteName, built.value);
      PutKeepsOthers(requests, siteName, built.value);
      requests := updated;
      err := None;
    }

    /** `retrieve_data(requests)`: every yielded `(name, data, metadata)` is stored, in order.
        Unlike the base client, the given requests are used but never registered. */
    method RetrieveData(given: seq<(string, Document)>, results: seq<Base.Yielded>) returns (r: map<string, Option<Frame>>)
      modifies this
      ensures requests == old(requests) && fileLabelsFromApi == old(fileLabelsFromApi)
      ensures datasets == Base.Collect(old(datasets), Base.DataOf(results))
      ensures metadata == Base.Collect(old(metadata), Base.MetadataOf(results))
      ensures r == datasets
    {
      var i := 0;
      while i < |results|
        invariant i <= |results|
        invariant datasets == Base.Collect(old(datasets), Base.DataOf(results)[..i])
        invariant metadata == Base.Collect(old(metadata), Base.MetadataOf(results)[..i])
        invariant requests == old(requests) && fileLabelsFromApi == old(fileLabelsFromApi)
      {
        var (name, data, meta) := results[i];
        assert Base.DataOf(results)[..i + 1][..i] == Base.DataOf(results)[..i];
        assert Base.MetadataOf(results)[..i + 1][..i] == Base.MetadataOf(results)[..i];
        datasets := datasets[name := data];
        metadata := metadata[name := meta];
        i := i + 1;
      }
      assert Base.DataOf(results)[..i] == Base.DataOf(results);
      assert Base.MetadataOf(results)[..i] == Base.MetadataOf(results);
      r := datasets;
    }

    /** `read_data` once the download `urlName` has been fetched and parsed into `parsed`. */
    method ReadData(name: string, urlName: string, parsed: Document) returns (r: Result<(Frame, Document)>)
      modifies this
      ensures fileLabelsFromApi == old(fileLabelsFromApi)[name := PrettifyFileLabel(urlName)]
      ensures r == SplitDataAndMetadata(parsed)
      ensures requests == old(requests) && datasets == old(datasets) && metadata == old(metadata)
    {
      fileLabelsFromApi := fileLabelsFromApi[name := PrettifyFileLabel(urlName)];
      r := SplitDataAndMetadata(parsed);
    }
  }
}
