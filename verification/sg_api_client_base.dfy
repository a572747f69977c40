/** The shared base client: the per-job poll loop `wait_for_data`, and the client
    object with its request registry, its request-id to name map and the datasets and
    metadata it accumulates. HTTP calls are replaced by the responses they returned:
    the poll loop reads a finite script of status responses and counts its sleeps. */
module SgApiClientBase {
  import opened Documents
  import opened Datasets

  // ---------------------------------------------------------------------------
  // The poll loop
  // ---------------------------------------------------------------------------

  /** What `wait_for_data` ends with: the returned triple `(download_url, status, request_id)`,
      a raised exception, or, when the script runs out, a loop that would poll again. */
  datatype PollOutcome =
    | Returned(downloadUrl: JsonValue, status: JsonValue, requestId: JsonValue)
    | Raised(error: Error)
    | StillPolling

  /** An outcome together with the number of status responses read and of `sleep(4)` calls made. */
  datatype PollRun = PollRun(outcome: PollOutcome, consumed: nat, sleeps: nat)

  /** A response after which the loop sleeps and polls again. */
  predicate KeepsPolling(response: Document)
  {
    "status" in response && response["status"] != JString("error") && response["status"] != JString("success")
  }

  /** A response that ends the loop (without an error) and still incurs a sleep. */
  predicate SleptAfter(response: Document)
  {
    "status" in response && response["status"] != JString("error")
  }

  /** The index of the first response that does not keep the loop polling, or `|responses|`. */
  function FirstStop(responses: seq<Document>): (k: nat)
    ensures k <= |responses|
    ensures forall i :: 0 <= i < k ==> KeepsPolling(responses[i])
    ensures k < |responses| ==> !KeepsPolling(responses[k])
  {
    if responses == [] || !KeepsPolling(responses[0]) then 0 else 1 + FirstStop(responses[1..])
  }

  /** The number of responses whose status is present and is not "error". */
  function SleepingResponses(responses: seq<Document>): (n: nat)
    ensures n <= |responses|
  {
    if responses == [] then 0
    else (if SleptAfter(responses[0]) then 1 else 0) + SleepingResponses(responses[1..])
  }

  function Delayed(run: PollRun, k: nat): PollRun
  {
    PollRun(run.outcome, run.consumed + k, run.sleeps + k)
  }

  /** The loop of `wait_for_data` for a valid request id, one response at a time. */
  function PollFrom(requestId: JsonValue, responses: seq<Document>): PollRun
  {
    if responses == [] then PollRun(StillPolling, 0, 0)
    else
      var response := responses[0];
      if "status" !in response then PollRun(Raised(ValueError), 1, 0)
      else if response["status"] == JString("error") then PollRun(Returned(JNull, JString("error"), requestId), 1, 0)
      else if response["status"] == JString("success") then
        PollRun(Returned(Get(response, "downloadUrl"), JString("success"), requestId), 1, 1)
      else Delayed(PollFrom(requestId, responses[1..]), 1)
  }

  /** `wait_for_data(session, request_id)` against the given status responses (Python None is `JNull`). */
  function Poll(requestId: JsonValue, responses: seq<Document>): PollRun
  {
    if requestId == JNull then PollRun(Returned(JNull, JString("invalid request_id"), JNull), 0, 0)
    else PollFrom(requestId, responses)
  }

  /** The loop stops at the first response that is an error, a success or has no "status";
      the request id is echoed; the sleep count is the number of responses read before it,
      plus one when it is the success. */
  lemma {:induction false} PollStopsAtFirstTerminal(requestId: JsonValue, responses: seq<Document>)
    requires requestId != JNull
    ensures var k, run := FirstStop(responses), Poll(requestId, responses);
      && (k == |responses| ==> run == PollRun(StillPolling, k, k))
      && (k < |responses| && "status" !in responses[k] ==> run == PollRun(Raised(ValueError), k + 1, k))
      && (k < |responses| && "status" in responses[k] && responses[k]["status"] == JString("error") ==>
            run == PollRun(Returned(JNull, JString("error"), requestId), k + 1, k))
      && (k < |responses| && "status" in responses[k] && responses[k]["status"] == JString("success") ==>
            run == PollRun(Returned(Get(responses[k], "downloadUrl"), JString("success"), requestId), k + 1, k + 1))
  {
    if responses != [] && KeepsPolling(responses[0]) {
      PollStopsAtFirstTerminal(requestId, responses[1..]);
    }
  }

  /** Every response read whose status is not "error" is followed by exactly one `sleep(4)`,
      the "success" one included; the loop never reads past the script. */
  lemma {:induction false} PollSleepCount(requestId: JsonValue, responses: seq<Document>)
    ensures Poll(requestId, responses).consumed <= |responses|
    ensures Poll(requestId, responses).sleeps == SleepingResponses(responses[..Poll(requestId, responses).consumed])
  {
    if requestId != JNull && responses != [] {
      var run := Poll(requestId, responses);
      if KeepsPolling(responses[0]) {
        PollSleepCount(requestId, responses[1..]);
        var rest := Poll(requestId, responses[1..]);
        assert responses[..run.consumed] == [responses[0]] + responses[1..][..rest.consumed];
      } else {
        assert responses[..run.consumed] == [responses[0]];
      }
    }
  }

  /** `wait_for_data(None)` returns `(None, "invalid request_id", None)` without polling, and every
      returned triple of a valid id carries that id; the post-loop `else` branch never runs,
      since only "error" (no download) and "success" leave the loop with a return. */
  lemma PollReturns(requestId: JsonValue, responses: seq<Document>)
    ensures requestId == JNull ==> Poll(requestId, responses) == PollRun(Returned(JNull, JString("invalid request_id"), JNull), 0, 0)
    ensures requestId != JNull && Poll(requestId, responses).outcome.Returned? ==>
      && Poll(requestId, responses).outcome.requestId == requestId
      && Poll(requestId, responses).outcome.status in {JString("error"), JString("success")}
      && (Poll(requestId, responses).outcome.status == JString("error") ==> Poll(requestId, responses).outcome.downloadUrl == JNull)
  {
    if requestId != JNull {
      PollStopsAtFirstTerminal(requestId, responses);
    }
  }

  /** Scenario: `n` "running"-like responses and then "success" cost n + 1 sleeps;
      followed by "error" instead they cost n. */
  lemma PollScenario(requestId: JsonValue, running: seq<Document>, last: Document)
    requires requestId != JNull
    requires forall i :: 0 <= i < |running| ==> KeepsPolling(running[i])
    requires "status" in last && last["status"] in {JString("success"), JString("error")}
    ensures Poll(requestId, running + [last]).consumed == |running| + 1
    ensures Poll(requestId, running + [last]).sleeps == if last["status"] == JString("success") then |running| + 1 else |running|
  {
    var responses := running + [last];
    assert FirstStop(responses) == |running| by {
      assert responses[|running|] == last;
    }
    PollStopsAtFirstTerminal(requestId, responses);
  }

  /** `wait_for_data`: a `while status != "success"` loop over the scripted status responses. */
  method WaitForData(requestId: JsonValue, responses: seq<Document>) returns (outcome: PollOutcome, consumed: nat, sleeps: nat)
    ensures PollRun(outcome, consumed, sleeps) == Poll(requestId, responses)
  {
    outcome, consumed, sleeps := StillPolling, 0, 0;
    if requestId == JNull {
      outcome := Returned(JNull, JString("invalid request_id"), JNull);
      return;
    }
    var status := JNull;
    var response: Document := map[];
    while status != JString("success")
      invariant consumed <= |responses| && sleeps == consumed
      invariant status != JString("success") ==> Poll(requestId, responses) == Delayed(PollFrom(requestId, responses[consumed..]), consumed)
      invariant status == JString("success") ==>
        Poll(requestId, responses) == PollRun(Returned(Get(response, "downloadUrl"), status, requestId), consumed, sleeps)
      decreases |responses| - consumed
    {
      if consumed == |responses| {
        // the script is exhausted: the source would issue another status request here
        return;
      }
      response := responses[consumed];
      assert responses[consumed..][1..] == responses[consumed + 1..];
      consumed := consumed + 1;
      if "status" !in response {
        outcome := Raised(ValueError);
        return;
      }
      status := response["status"];
      if status == JString("error") {
        outcome := Returned(JNull, status, requestId);
        return;
      }
      sleeps := sleeps + 1;  // await asyncio.sleep(4)
    }
    if status == JString("success") {
      outcome := Returned(Get(response, "downloadUrl"), status, requestId);
    } else {
      assert false;  // the loop only ends once status is "success"
    }
  }

  // ---------------------------------------------------------------------------
  // Accumulating results
  // ---------------------------------------------------------------------------

  /** The dict after `m[name] = value` for every pair of `updates`, in order. */
  function Collect<T>(m: map<string, T>, updates: seq<(string, T)>): map<string, T>
  {
    if updates == [] then m
    else Collect(m, updates[..|updates| - 1])[updates[|updates| - 1].0 := updates[|updates| - 1].1]
  }

  /** The value of the last pair of `updates` that writes `name`, if any. */
  function LastWrite<T>(updates: seq<(string, T)>, name: string): (r: Option<T>)
    ensures r.None? <==> name !in Names(updates)
  {
    if updates == [] then None
    else
      var n := |updates| - 1;
      assert Names(updates) == Names(updates[..n]) + [updates[n].0];
      if updates[n].0 == name then Some(updates[n].1) else LastWrite(updates[..n], name)
  }

  /** `LastWrite` is the value of the write at index `i` when no later pair writes the same name. */
  lemma {:induction false} LastWriteAt<T>(updates: seq<(string, T)>, i: nat)
    requires i < |updates|
    requires forall j :: i < j < |updates| ==> updates[j].0 != updates[i].0
    ensures LastWrite(updates, updates[i].0) == Some(updates[i].1)
  {
    var n := |updates| - 1;
    if i < n {
      assert updates[..n][i] == updates[i];
      LastWriteAt(updates[..n], i);
    }
  }

  /** The last write to a name wins, and names never written keep their entry. */
  lemma {:induction false} CollectLastWins<T>(m: map<string, T>, updates: seq<(string, T)>, name: string)
    ensures name in Collect(m, updates) <==> name in m || name in Names(updates)
    ensures name in Collect(m, updates) ==>
      Collect(m, updates)[name] == match LastWrite(updates, name) { case Some(v) => v case None => m[name] }
  {
    if updates != [] {
      var n := |updates| - 1;
      CollectLastWins(m, updates[..n], name);
      assert Names(updates) == Names(updates[..n]) + [updates[n].0];
    }
  }

  /** One result yielded by the retrieval: `(name, data, metadata)`; `None` for a failed job. */
  type Yielded = (string, Option<Frame>, Option<Document>)

  /** The `(name, data)` writes of the yielded results, in order. */
  function DataOf(results: seq<Yielded>): seq<(string, Option<Frame>)>
  {
    seq(|results|, i requires 0 <= i < |results| => (results[i].0, results[i].1))
  }

  /** The `(name, metadata)` writes of the yielded results, in order. */
  function MetadataOf(results: seq<Yielded>): seq<(string, Option<Document>)>
  {
    seq(|results|, i requires 0 <= i < |results| => (results[i].0, results[i].2))
  }

  // ---------------------------------------------------------------------------
  // The client object
  // ---------------------------------------------------------------------------

  /** `SGAPIClient`. The abstract `create_request_dict` that a subclass supplies is the
      function `createRequestDict`, from the keyword arguments to the request document. */
  class Client {
    const createRequestDict: Document -> Result<Document>
    var requests: seq<(string, Document)>          // `_requests`, in insertion order
    var requestIdsToNames: map<JsonValue, string>  // `_request_ids_to_names`
    var datasets: map<string, Option<Frame>>
    var metadata: map<string, Option<Document>>
    var fileLabelsFromApi: map<string, string>     // `_file_labels_from_api`, written by `read_data`

    ghost predicate Valid()
      reads this
    {
      DistinctNames(requests)
    }

    constructor (createRequestDict: Document -> Result<Document>)
      ensures Valid()
      ensures this.createRequestDict == createRequestDict
      ensures requests == [] && requestIdsToNames == map[] && datasets == map[] && metadata == map[]
      ensures fileLabelsFromApi == map[]
    {
      this.createRequestDict := createRequestDict;
      requests, requestIdsToNames, datasets, metadata := [], map[], map[], map[];
      fileLabelsFromApi := map[];
    }

    /** `add_request(site_name, **kwargs)`: builds the request with `site_name` added to the
        keyword arguments and registers it under `site_name`; a raising builder changes nothing. */
    method AddRequest(siteName: string, kwargs: Document) returns (err: Option<Error>)
      requires Valid()
      modifies this
      ensures Valid()
      ensures var built := createRequestDict(kwargs["site_name" := JString(siteName)]);
        && (built.Ok? ==> err == None && requests == Put(old(requests), siteName, built.value))
        && (built.Err? ==> err == Some(built.error) && requests == old(requests))
      ensures err == None ==> Lookup(requests, siteName) == Some(createRequestDict(kwargs["site_name" := JString(siteName)]).value)
      ensures forall other :: other != siteName ==> Lookup(requests, other) == Lookup(old(requests), other)
      ensures requestIdsToNames == old(requestIdsToNames) && datasets == old(datasets) && metadata == old(metadata)
      ensures fileLabelsFromApi == old(fileLabelsFromApi)
    {
      var built := createRequestDict(kwargs["site_name" := JString(siteName)]);
      if built.Err? {
        return Some(built.error);
      }
      var updated := Put(requests, siteName, built.value);
      PutKeepsOthers(requests, siteName, built.value);
      requests := updated;
      err := None;
    }

    /** `fetch_task_ids` after the submission answered `response`: registers `requestId -> name`
        only when the answer carries a "requestId", and returns it (Python None otherwise). */
    method FetchTaskIds(response: Document, name: string) returns (r: Result<JsonValue>)
      modifies this
      ensures "requestId" !in response ==> r == Ok(JNull) && requestIdsToNames == old(requestIdsToNames)
      ensures "requestId" in response && !Hashable(response["requestId"]) ==>
        r == Err(TypeError) && requestIdsToNames == old(requestIdsToNames)
      ensures "requestId" in response && Hashable(response["requestId"]) ==>
        r == Ok(response["requestId"]) && requestIdsToNames == old(requestIdsToNames)[response["requestId"] := name]
      ensures requests == old(requests) && datasets == old(datasets) && metadata == old(metadata)
      ensures fileLabelsFromApi == old(fileLabelsFromApi)
    {
      if "requestId" in response {
        var requestId := response["requestId"];
        if !Hashable(requestId) {
          return Err(TypeError);
        }
        requestIdsToNames := requestIdsToNames[requestId := name];
        return Ok(requestId);
      }
      return Ok(JNull);
    }

    /** `retrieve_all_data(requests)`: a non-empty `given` replaces the registered requests
        (`retrieve_data`), then every yielded `(name, data, metadata)` is stored, in order. */
    method RetrieveAllData(given: seq<(string, Document)>, results: seq<Yielded>) returns (r: map<string, Option<Frame>>)
      requires Valid() && DistinctNames(given)
      modifies this
      ensures Valid()
      ensures requests == if given == [] then old(requests) else given
      ensures datasets == Collect(old(datasets), DataOf(results))
      ensures metadata == Collect(old(metadata), MetadataOf(results))
      ensures r == datasets
      ensures requestIdsToNames == old(requestIdsToNames) && fileLabelsFromApi == old(fileLabelsFromApi)
    {
      if given != [] {
        requests := given;
      }
      var i := 0;
      while i < |results|
        invariant i <= |results|
        invariant datasets == Collect(old(datasets), DataOf(results)[..i])
        invariant metadata == Collect(old(metadata), MetadataOf(results)[..i])
        invariant requests == if given == [] then old(requests) else given
        invariant requestIdsToNames == old(requestIdsToNames) && fileLabelsFromApi == old(fileLabelsFromApi)
      {
        var (name, data, meta) := results[i];
        assert DataOf(results)[..i + 1][..i] == DataOf(results)[..i];
        assert MetadataOf(results)[..i + 1][..i] == MetadataOf(results)[..i];
        datasets := datasets[name := data];
        metadata := metadata[name := meta];
        i := i + 1;
      }
      assert DataOf(results)[..i] == DataOf(results);
      assert MetadataOf(results)[..i] == MetadataOf(results);
      r := datasets;
    }
  }
}
