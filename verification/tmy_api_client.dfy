/** `TMYAPIClient`: the typical-meteorological-year client built on the shared base
    client. It builds requests from free keyword arguments, can force the SOLARGIS_JSON
    output format into every request, and reads the JSON member of the zipped download. */
module TmyApiClient {
  import opened Documents
  import opened FileLabels
  import opened Datasets
  import opened SgApiClientBase

  // ---------------------------------------------------------------------------
  // to_safe_file_label_tmy
  // ---------------------------------------------------------------------------

  /** `to_safe_file_label(file_label)[:10]`. */
  function ToSafeFileLabelTmy(text: string): (r: string)
    ensures r <= ToSafeFileLabel(text)
    ensures |r| == if |ToSafeFileLabel(text)| < 10 then |ToSafeFileLabel(text)| else 10
    ensures 1 <= |r| <= 10
    ensures IsSafeLabel(r)
  {
    var safe := ToSafeFileLabel(text);
    if |safe| <= 10 then safe else safe[..10]
  }

  /** Shortening a safe label keeps it safe, so the TMY label is a fixpoint of itself. */
  lemma TmyLabelIdempotent(text: string)
    ensures ToSafeFileLabelTmy(ToSafeFileLabelTmy(text)) == ToSafeFileLabelTmy(text)
  {
    SafeLabelFixpoint(ToSafeFileLabelTmy(text));
  }

  // ---------------------------------------------------------------------------
  // create_request_dict
  // ---------------------------------------------------------------------------

  /** The defaults that the caller's keywords override. */
  function TmyDefaults(): Document
  {
    map["outputFormats" := JArray([JString("SOLARGIS_JSON")]), "timeStep" := JString("PT60M"), "tmyScenario" := JString("P50")]
  }

  /** `kwargs["siteName"] = kwargs.pop("site_name")` when `site_name` is given. */
  function RenameSiteName(kwargs: Document): (k: Document)
    ensures "site_name" !in k
    ensures "site_name" in kwargs ==> "siteName" in k && k["siteName"] == kwargs["site_name"]
    ensures "site_name" !in kwargs ==> k == kwargs
  {
    if "site_name" in kwargs then Rename(kwargs, "site_name", "siteName") else kwargs
  }

  /** `kwargs["fileLabel"] = kwargs["siteName"]` when there is a site name but no file label. */
  function DefaultFileLabel(kwargs: Document): (k: Document)
    ensures "fileLabel" in k <==> "fileLabel" in kwargs || "siteName" in kwargs
    ensures "fileLabel" in k ==> k["fileLabel"] == if "fileLabel" in kwargs then kwargs["fileLabel"] else kwargs["siteName"]
    ensures forall x :: x != "fileLabel" ==> (x in k <==> x in kwargs) && (x in k ==> k[x] == kwargs[x])
  {
    if "siteName" in kwargs && "fileLabel" !in kwargs then kwargs["fileLabel" := kwargs["siteName"]] else kwargs
  }

  /** `kwargs[into] = kwargs.pop(from)` when `from` is given and `into` is not. */
  function MoveIfAbsent(kwargs: Document, from: string, into: string): (k: Document)
    requires from != into
    ensures from in kwargs && into !in kwargs ==> from !in k && into in k && k[into] == kwargs[from]
    ensures !(from in kwargs && into !in kwargs) ==> k == kwargs
  {
    if from in kwargs && into !in kwargs then Rename(kwargs, from, into) else kwargs
  }

  /** The keywords `create_request_dict` reads or rewrites. */
  const RenamedKeys: set<string> := {"site_name", "siteName", "fileLabel", "lat", "latitude", "long", "longitude"}

  /** Moving `from` to `into` leaves every other key as it was. */
  lemma MoveIfAbsentElsewhere(kwargs: Document, from: string, into: string, x: string)
    requires from != into && x != from && x != into
    ensures x in MoveIfAbsent(kwargs, from, into) <==> x in kwargs
    ensures x in kwargs ==> MoveIfAbsent(kwargs, from, into)[x] == kwargs[x]
  {
    if from in kwargs && into !in kwargs {
      RenameElsewhere(kwargs, from, into, x);
    }
  }

  /** The keywords after the renames, before the file label is sanitised. */
  function RenamedKeywords(kwargs: Document): Document
  {
    MoveIfAbsent(MoveIfAbsent(DefaultFileLabel(RenameSiteName(kwargs)), "lat", "latitude"), "long", "longitude")
  }

  /** A keyword the renames do not name is carried over as it is, and nothing else is added. */
  lemma {:induction false} RenamedKeywordsElsewhere(kwargs: Document, x: string)
    ensures x !in RenamedKeys ==> (x in RenamedKeywords(kwargs) <==> x in kwargs)
    ensures x !in RenamedKeys && x in kwargs ==> RenamedKeywords(kwargs)[x] == kwargs[x]
    ensures x in RenamedKeywords(kwargs) ==> x in kwargs || x in RenamedKeys
  {
    if x !in RenamedKeys {
      var k0 := RenameSiteName(kwargs);
      if "site_name" in kwargs {
        RenameElsewhere(kwargs, "site_name", "siteName", x);
      }
      var k1 := DefaultFileLabel(k0);
      MoveIfAbsentElsewhere(k1, "lat", "latitude", x);
      MoveIfAbsentElsewhere(MoveIfAbsent(k1, "lat", "latitude"), "long", "longitude", x);
    }
  }

  /** The file label and the coordinates after the renames. */
  lemma RenamedKeywordsNamed(kwargs: Document)
    ensures var k := RenamedKeywords(kwargs);
      && "site_name" !in k
      && ("site_name" in kwargs ==> "siteName" in k && k["siteName"] == kwargs["site_name"])
      && ("fileLabel" in k <==> "fileLabel" in kwargs || "site_name" in kwargs || "siteName" in kwargs)
      && ("fileLabel" in k ==> k["fileLabel"] == if "fileLabel" in kwargs then kwargs["fileLabel"]
            else if "site_name" in kwargs then kwargs["site_name"] else kwargs["siteName"])
  {
    var k0 := RenameSiteName(kwargs);
    var k1 := DefaultFileLabel(k0);
    var k2 := MoveIfAbsent(k1, "lat", "latitude");
    if "site_name" in kwargs {
      RenameElsewhere(kwargs, "site_name", "siteName", "fileLabel");
    }
    MoveIfAbsentElsewhere(k1, "lat", "latitude", "fileLabel");
    MoveIfAbsentElsewhere(k2, "long", "longitude", "fileLabel");
    MoveIfAbsentElsewhere(k1, "lat", "latitude", "siteName");
    MoveIfAbsentElsewhere(k2, "long", "longitude", "siteName");
    MoveIfAbsentElsewhere(k1, "lat", "latitude", "site_name");
    MoveIfAbsentElsewhere(k2, "long", "longitude", "site_name");
  }

  /** `TMYAPIClient.create_request_dict(**kwargs)`. */
  function CreateRequestDict(kwargs: Document): (r: Result<Document>)
    ensures r == Err(KeyError("fileLabel")) <==> "fileLabel" !in kwargs && "siteName" !in kwargs && "site_name" !in kwargs
    ensures r.Err? ==> r.error in {KeyError("fileLabel"), AttributeError}
    ensures r.Ok? ==> "site_name" !in r.value && "fileLabel" in r.value && "outputFormats" in r.value
    ensures r.Ok? && "site_name" in kwargs ==> "siteName" in r.value && r.value["siteName"] == kwargs["site_name"]
    ensures r.Ok? ==> r.value["fileLabel"].JString?
  {
    RenamedKeywordsNamed(kwargs);
    var k := RenamedKeywords(kwargs);
    WithDefaultsAt(k, "site_name");
    WithDefaultsAt(k, "siteName");
    WithDefaultsAt(k, "outputFormats");
    WithDefaults(k)
  }

  /** The label comes from fileLabel, else site_name, else siteName; it must be a string, and it is
      sanitised and cut to at most 10 characters. */
  lemma TmyFileLabelSource(kwargs: Document)
    requires "fileLabel" in kwargs || "site_name" in kwargs || "siteName" in kwargs
    ensures var source := if "fileLabel" in kwargs then kwargs["fileLabel"]
        else if "site_name" in kwargs then kwargs["site_name"] else kwargs["siteName"];
      var r := CreateRequestDict(kwargs);
      && (r.Ok? <==> source.JString?)
      && (r.Ok? ==> r.value["fileLabel"] == JString(ToSafeFileLabelTmy(source.s)))
      && (r.Ok? ==> IsSafeLabel(r.value["fileLabel"].s) && 1 <= |r.value["fileLabel"].s| <= 10)
  {
    RenamedKeywordsNamed(kwargs);
    assert CreateRequestDict(kwargs) == WithDefaults(RenamedKeywords(kwargs));
  }

  /** Each of outputFormats, timeStep and tmyScenario is present: the caller's value, else the default. */
  lemma TmyDefaultsApply(kwargs: Document, x: string)
    requires CreateRequestDict(kwargs).Ok? && x in TmyDefaults()
    ensures x in CreateRequestDict(kwargs).value
    ensures CreateRequestDict(kwargs).value[x] == if x in kwargs then kwargs[x] else TmyDefaults()[x]
  {
    var k := RenamedKeywords(kwargs);
    assert CreateRequestDict(kwargs) == WithDefaults(k);
    assert x != "fileLabel" && x !in RenamedKeys;
    RenamedKeywordsElsewhere(kwargs, x);
    WithDefaultsAt(k, x);
  }

  /** `lat` becomes `latitude` only when `latitude` is absent; otherwise both stay. */
  lemma TmyLatitudeMoved(kwargs: Document)
    requires CreateRequestDict(kwargs).Ok?
    ensures var r := CreateRequestDict(kwargs).value;
      && ("lat" in kwargs && "latitude" !in kwargs ==> "lat" !in r && "latitude" in r && r["latitude"] == kwargs["lat"])
      && ("latitude" in kwargs ==> "latitude" in r && r["latitude"] == kwargs["latitude"] && ("lat" in kwargs <==> "lat" in r))
      && ("latitude" in kwargs && "lat" in kwargs ==> r["lat"] == kwargs["lat"])
  {
    var k0 := RenameSiteName(kwargs);
    var k1 := DefaultFileLabel(k0);
    var k2 := MoveIfAbsent(k1, "lat", "latitude");
    var k3 := MoveIfAbsent(k2, "long", "longitude");
    assert CreateRequestDict(kwargs) == WithDefaults(k3);
    if "site_name" in kwargs {
      RenameElsewhere(kwargs, "site_name", "siteName", "lat");
      RenameElsewhere(kwargs, "site_name", "siteName", "latitude");
    }
    MoveIfAbsentElsewhere(k2, "long", "longitude", "lat");
    MoveIfAbsentElsewhere(k2, "long", "longitude", "latitude");
    WithDefaultsAt(k3, "lat");
    WithDefaultsAt(k3, "latitude");
  }

  /** `long` becomes `longitude` only when `longitude` is absent; otherwise both stay. */
  lemma TmyLongitudeMoved(kwargs: Document)
    requires CreateRequestDict(kwargs).Ok?
    ensures var r := CreateRequestDict(kwargs).value;
      && ("long" in kwargs && "longitude" !in kwargs ==> "long" !in r && "longitude" in r && r["longitude"] == kwargs["long"])
      && ("longitude" in kwargs ==> "longitude" in r && r["longitude"] == kwargs["longitude"] && ("long" in kwargs <==> "long" in r))
      && ("longitude" in kwargs && "long" in kwargs ==> r["long"] == kwargs["long"])
  {
    var k0 := RenameSiteName(kwargs);
    var k1 := DefaultFileLabel(k0);
    var k2 := MoveIfAbsent(k1, "lat", "latitude");
    var k3 := MoveIfAbsent(k2, "long", "longitude");
    assert CreateRequestDict(kwargs) == WithDefaults(k3);
    if "site_name" in kwargs {
      RenameElsewhere(kwargs, "site_name", "siteName", "long");
      RenameElsewhere(kwargs, "site_name", "siteName", "longitude");
    }
    MoveIfAbsentElsewhere(k1, "lat", "latitude", "long");
    MoveIfAbsentElsewhere(k1, "lat", "latitude", "longitude");
    WithDefaultsAt(k3, "long");
    WithDefaultsAt(k3, "longitude");
  }

  /** Every other keyword reaches the request unchanged, and nothing else is added. */
  lemma TmyKeywordsPassThrough(kwargs: Document)
    requires CreateRequestDict(kwargs).Ok?
    ensures var r := CreateRequestDict(kwargs).value;
      && (forall x :: x in kwargs && x !in RenamedKeys ==> x in r && r[x] == kwargs[x])
      && (forall x :: x in r ==> x in kwargs || x in RenamedKeys || x in TmyDefaults())
  {
    var k := RenamedKeywords(kwargs);
    assert CreateRequestDict(kwargs) == WithDefaults(k);
    var r := WithDefaults(k).value;
    forall x | x in kwargs && x !in RenamedKeys ensures x in r && r[x] == kwargs[x] {
      RenamedKeywordsElsewhere(kwargs, x);
      WithDefaultsAt(k, x);
    }
    forall x | x in r ensures x in kwargs || x in RenamedKeys || x in TmyDefaults() {
      RenamedKeywordsElsewhere(kwargs, x);
      WithDefaultsAt(k, x);
    }
  }

  /** The last steps on the renamed keywords: sanitise the file label, then lay the keywords over the defaults. */
  function WithDefaults(k: Document): (r: Result<Document>)
    ensures r == Err(KeyError("fileLabel")) <==> "fileLabel" !in k
    ensures r == Err(AttributeError) <==> "fileLabel" in k && !k["fileLabel"].JString?
    ensures r.Ok? ==> "fileLabel" in k && k["fileLabel"].JString? && "fileLabel" in r.value && r.value["fileLabel"] == JString(ToSafeFileLabelTmy(k["fileLabel"].s))
  {
    if "fileLabel" !in k then Err(KeyError("fileLabel"))
    else if !k["fileLabel"].JString? then Err(AttributeError)
    else Ok(TmyDefaults() + k["fileLabel" := JString(ToSafeFileLabelTmy(k["fileLabel"].s))])
  }

  /** Every key of the result other than the label: the caller's keyword over the default, and nothing else. */
  lemma WithDefaultsAt(k: Document, x: string)
    ensures WithDefaults(k).Ok? && x != "fileLabel" ==>
      && (x in WithDefaults(k).value <==> x in k || x in TmyDefaults())
      && (x in k ==> WithDefaults(k).value[x] == k[x])
      && (x !in k && x in TmyDefaults() ==> WithDefaults(k).value[x] == TmyDefaults()[x])
  {
  }

  // ---------------------------------------------------------------------------
  // The outputFormats augmentation of retrieve_all_data
  // ---------------------------------------------------------------------------

  const SolargisJson: string := "SOLARGIS_JSON"

  /** `t` occurs in `s` starting at index `i`. */
  predicate OccursAt(t: string, s: string, i: int)
  {
    0 <= i <= |s| - |t| && s[i..i + |t|] == t
  }

  /** Python's `t in s` for strings. */
  predicate IsSubstring(t: string, s: string)
  {
    exists i :: 0 <= i <= |s| - |t| && OccursAt(t, s, i)
  }

  /** `"SOLARGIS_JSON" in formats`: list membership, substring, or dict key; a TypeError otherwise. */
  function ContainsSolargisJson(formats: JsonValue): (r: Result<bool>)
    ensures r.Err? <==> formats.JNull? || formats.JBool? || formats.JNum?
    ensures r.Err? ==> r.error == TypeError
  {
    match formats
    case JArray(items) => Ok(JString(SolargisJson) in items)
    case JString(s) => Ok(IsSubstring(SolargisJson, s))
    case JObject(fields) => Ok(SolargisJson in fields)
    case _ => Err(TypeError)
  }

  /** The request's output formats already name SOLARGIS_JSON. */
  predicate HasSolargisJson(request: Document)
  {
    "outputFormats" in request && ContainsSolargisJson(request["outputFormats"]) == Ok(true)
  }

  /** `after` is `before` with at most "SOLARGIS_JSON" appended to its outputFormats list. */
  predicate Extends(before: Document, after: Document)
  {
    && after.Keys == before.Keys
    && (forall k :: k in before && k != "outputFormats" ==> after[k] == before[k])
    && "outputFormats" in before
    && (|| after["outputFormats"] == before["outputFormats"]
        || (before["outputFormats"].JArray? &&
            after["outputFormats"] == JArray(before["outputFormats"].items + [JString(SolargisJson)])))
  }

  /** One step of the loop: append "SOLARGIS_JSON" unless it is already in `request["outputFormats"]`. */
  function AddSolargisJson(request: Document): (r: Result<Document>)
    ensures "outputFormats" !in request ==> r == Err(KeyError("outputFormats"))
    ensures r.Ok? <==> "outputFormats" in request && (request["outputFormats"].JArray? || HasSolargisJson(request))
    ensures r.Err? && "outputFormats" in request ==>
      r.error == if ContainsSolargisJson(request["outputFormats"]).Err? then TypeError else AttributeError
    ensures r.Ok? ==> HasSolargisJson(r.value) && Extends(request, r.value)
    ensures HasSolargisJson(request) ==> r == Ok(request)
  {
    if "outputFormats" !in request then Err(KeyError("outputFormats"))
    else
      var formats := request["outputFormats"];
      match ContainsSolargisJson(formats)
      case Err(e) => Err(e)
      case Ok(present) =>
        if present then Ok(request)
        else if formats.JArray? then
          var items := formats.items + [JString(SolargisJson)];
          assert items[|items| - 1] == JString(SolargisJson);
          Ok(request["outputFormats" := JArray(items)])
        else Err(AttributeError)
  }

  /** The requests after the loop, its error if one was raised, and how many requests were done. */
  datatype Augmentation = Augmentation(requests: seq<(string, Document)>, error: Option<Error>, done: nat)

  /** The loop `for request in requests.values()`, run in order until a step raises; the requests
      before the failing one are already updated in place, the rest are untouched. */
  function AugmentAll(requests: seq<(string, Document)>): (a: Augmentation)
    ensures a.done <= |requests| && |a.requests| == |requests|
    ensures a.error.None? <==> a.done == |requests|
  {
    if requests == [] then Augmentation([], None, 0)
    else match AddSolargisJson(requests[0].1)
      case Err(e) => Augmentation(requests, Some(e), 0)
      case Ok(first) =>
        var rest := AugmentAll(requests[1..]);
        Augmentation([(requests[0].0, first)] + rest.requests, rest.error, rest.done + 1)
  }

  /** Step by step: the failing request is the one whose augmentation raised, every request
      before it is its own augmentation, and every request from it on is untouched. */
  lemma {:induction false} AugmentAllSteps(requests: seq<(string, Document)>)
    ensures AugmentAll(requests).error.Some? ==>
      AddSolargisJson(requests[AugmentAll(requests).done].1) == Err(AugmentAll(requests).error.value)
    ensures forall i :: 0 <= i < AugmentAll(requests).done ==>
      && AddSolargisJson(requests[i].1).Ok?
      && AugmentAll(requests).requests[i] == (requests[i].0, AddSolargisJson(requests[i].1).value)
    ensures AugmentAll(requests).requests[AugmentAll(requests).done..] == requests[AugmentAll(requests).done..]
  {
    if requests != [] && AddSolargisJson(requests[0].1).Ok? {
      var first := AddSolargisJson(requests[0].1).value;
      var rest := AugmentAll(requests[1..]);
      AugmentAllSteps(requests[1..]);
      var out := [(requests[0].0, first)] + rest.requests;
      var a := AugmentAll(requests);
      assert a == Augmentation(out, rest.error, rest.done + 1);
      forall i | 0 <= i < a.done
        ensures AddSolargisJson(requests[i].1).Ok? && a.requests[i] == (requests[i].0, AddSolargisJson(requests[i].1).value)
      {
        if i > 0 {
          assert requests[i] == requests[1..][i - 1];
          assert out[i] == rest.requests[i - 1];
        }
      }
      assert a.requests[a.done..] == requests[a.done..] by {
        assert out[rest.done + 1..] == rest.requests[rest.done..];
        assert requests[rest.done + 1..] == requests[1..][rest.done..];
      }
    }
  }

  /** Every request the loop got through now contains SOLARGIS_JSON and extends its former
      self: its other entries and its existing formats are unchanged and in order. */
  lemma AugmentedAt(requests: seq<(string, Document)>, i: nat)
    requires i < AugmentAll(requests).done
    ensures HasSolargisJson(AugmentAll(requests).requests[i].1) && Extends(requests[i].1, AugmentAll(requests).requests[i].1)
  {
    AugmentAllSteps(requests);
    var step := AddSolargisJson(requests[i].1);
    assert step.Ok? && AugmentAll(requests).requests[i].1 == step.value;
  }

  /** The names survive the loop whether or not it raises, so a dict stays a dict. */
  lemma AugmentKeepsNames(requests: seq<(string, Document)>)
    ensures Names(AugmentAll(requests).requests) == Names(requests)
    ensures DistinctNames(requests) ==> DistinctNames(AugmentAll(requests).requests)
  {
    var a := AugmentAll(requests);
    AugmentAllSteps(requests);
    forall i | 0 <= i < |requests| ensures a.requests[i].0 == requests[i].0 {
      if i >= a.done {
        assert a.requests[i] == a.requests[a.done..][i - a.done];
      }
    }
  }

  /** Running the augmentation twice is running it once, also when the first run raised: a retry
      meets the already updated requests first and stops at the same failing one. */
  lemma {:induction false} AugmentIdempotent(requests: seq<(string, Document)>)
    ensures AugmentAll(AugmentAll(requests).requests) == AugmentAll(requests)
  {
    if requests != [] {
      match AddSolargisJson(requests[0].1)
      case Err(e) => {}
      case Ok(first) =>
        var rest := AugmentAll(requests[1..]);
        assert AugmentAll(requests).requests == [(requests[0].0, first)] + rest.requests;
        assert AddSolargisJson(first) == Ok(first);
        AugmentIdempotent(requests[1..]);
        assert AugmentAll(requests).requests[1..] == rest.requests;
    }
  }

  /** The loop itself, updating each request in turn. */
  method AugmentOutputFormats(requests: seq<(string, Document)>) returns (result: seq<(string, Document)>, err: Option<Error>)
    ensures result == AugmentAll(requests).requests && err == AugmentAll(requests).error
    ensures DistinctNames(requests) ==> DistinctNames(result)
  {
    AugmentAllSteps(requests);
    result := requests;
    var i := 0;
    while i < |requests|
      invariant i <= |requests| && |result| == |requests|
      invariant result[i..] == requests[i..]
      invariant AugmentAll(requests).done >= i
      invariant forall j :: 0 <= j < i ==> result[j] == AugmentAll(requests).requests[j]
    {
      var (name, request) := requests[i];
      var updated := AddSolargisJson(request);
      if updated.Err? {
        assert AugmentAll(requests).done == i;
        assert result == AugmentAll(requests).requests by {
          assert AugmentAll(requests).requests[i..] == requests[i..];
        }
        AugmentKeepsNames(requests);
        return result, Some(updated.error);
      }
      result := result[i := (name, updated.value)];
      i := i + 1;
    }
    assert result == AugmentAll(requests).requests;
    AugmentKeepsNames(requests);
    err := None;
  }

  // ---------------------------------------------------------------------------
  // read_data's choice of the JSON member
  // ---------------------------------------------------------------------------

  /** The index of the first name in archive order that ends in ".json", or `|namelist|`. */
  function FirstJsonIndex(namelist: seq<string>): (k: nat)
    ensures k <= |namelist|
    ensures forall j :: 0 <= j < k ==> !EndsWith(namelist[j], ".json")
    ensures k < |namelist| ==> EndsWith(namelist[k], ".json")
  {
    if namelist == [] || EndsWith(namelist[0], ".json") then 0 else 1 + FirstJsonIndex(namelist[1..])
  }

  /** `next((f for f in namelist if f.endswith(".json")), None)`. */
  function FirstJsonMember(namelist: seq<string>): (r: Option<string>)
    ensures r.None? <==> forall j :: 0 <= j < |namelist| ==> !EndsWith(namelist[j], ".json")
    ensures r.Some? ==> r.value == namelist[FirstJsonIndex(namelist)] && EndsWith(r.value, ".json")
  {
    var k := FirstJsonIndex(namelist);
    if k < |namelist| then Some(namelist[k]) else None
  }

  /** The table and metadata `read_data` returns for the chosen member, or `(None, None)`. */
  function TablesOf(createDataframes: bool, namelist: seq<string>, parse: string -> Document): (r: Result<(Option<Frame>, Option<Document>)>)
    ensures !createDataframes || FirstJsonMember(namelist).None? ==> r == Ok((None, None))
    ensures createDataframes && FirstJsonMember(namelist).Some? ==>
      match SplitDataAndMetadata(parse(FirstJsonMember(namelist).value))
      case Ok((frame, metadata)) => r == Ok((Some(frame), Some(metadata)))
      case Err(e) => r == Err(e)
  {
    var member := FirstJsonMember(namelist);
    if createDataframes && member.Some? then
      match SplitDataAndMetadata(parse(member.value))
      case Ok((frame, metadata)) => Ok((Some(frame), Some(metadata)))
      case Err(e) => Err(e)
    else Ok((None, None))
  }

  // ---------------------------------------------------------------------------
  // The client object
  // ---------------------------------------------------------------------------

  /** `TMYAPIClient`: the base client (whose request builder is `CreateRequestDict`) plus the
      raw zipped downloads and the `create_dataframes` flag of the last retrieval. */
  class TmyClient {
    const base: Client
    var zippedFiles: map<string, seq<bv8>>
    var createDataframes: bool

    ghost predicate Valid()
      reads this, base
    {
      base.Valid()
    }

    constructor ()
      ensures Valid() && fresh(base)
      ensures base.createRequestDict == CreateRequestDict
      ensures base.requests == [] && base.datasets == map[] && base.metadata == map[]
      ensures base.requestIdsToNames == map[] && base.fileLabelsFromApi == map[]
      ensures zippedFiles == map[] && !createDataframes
    {
      base := new Client(CreateRequestDict);
      zippedFiles := map[];
      createDataframes := false;
    }

    /** `retrieve_all_data(requests, create_dataframes)`: the given requests, or the registered ones,
        get SOLARGIS_JSON when `create_dataframes` is set, then the base retrieval stores the results.
        When a request cannot be augmented the error propagates; the registered requests then keep
        the updates made before the failing one, since they were being changed in place. */
    method RetrieveAllData(given: seq<(string, Document)>, createDataframes: bool, results: seq<Yielded>)
      returns (r: Result<map<string, Option<Frame>>>)
      requires Valid() && DistinctNames(given)
      modifies this, base
      ensures Valid()
      ensures this.createDataframes == createDataframes && zippedFiles == old(zippedFiles)
      ensures base.requestIdsToNames == old(base.requestIdsToNames) && base.fileLabelsFromApi == old(base.fileLabelsFromApi)
      ensures var chosen := if given == [] then old(base.requests) else given;
        var a := AugmentAll(chosen);
        && (!createDataframes ==> base.requests == chosen)
        && (createDataframes && a.error.None? ==> base.requests == a.requests)
        && (createDataframes && a.error.Some? ==>
              && r == Err(a.error.value)
              && base.requests == (if given == [] then a.requests else old(base.requests))
              && base.datasets == old(base.datasets) && base.metadata == old(base.metadata))
        && (!createDataframes || a.error.None? ==>
              && base.datasets == Collect(old(base.datasets), DataOf(results))
              && base.metadata == Collect(old(base.metadata), MetadataOf(results))
              && r == Ok(base.datasets))
    {
      var chosen := if given == [] then base.requests else given;
      this.createDataframes := createDataframes;
      if createDataframes {
        var augmented, err := AugmentOutputFormats(chosen);
        if err.Some? {
          if given == [] {
            base.requests := augmented;
          }
          return Err(err.value);
        }
        chosen := augmented;
      }
      var datasets := base.RetrieveAllData(chosen, results);
      r := Ok(datasets);
    }

    /** `read_data` once the archive `zipped`, with member names `namelist`, has been downloaded
        from `urlName`; `parse` stands for reading and decoding one member. */
    method ReadData(name: string, urlName: string, zipped: seq<bv8>, namelist: seq<string>, parse: string -> Document)
      returns (r: Result<(Option<Frame>, Option<Document>)>)
      modifies this, base
      ensures base.fileLabelsFromApi == old(base.fileLabelsFromApi)[name := PrettifyFileLabel(urlName)]
      ensures zippedFiles == old(zippedFiles)[name := zipped] && createDataframes == old(createDataframes)
      ensures r == TablesOf(createDataframes, namelist, parse)
      ensures base.requests == old(base.requests) && base.requestIdsToNames == old(base.requestIdsToNames)
      ensures base.datasets == old(base.datasets) && base.metadata == old(base.metadata)
    {
      base.fileLabelsFromApi := base.fileLabelsFromApi[name := PrettifyFileLabel(urlName)];
      zippedFiles := zippedFiles[name := zipped];
      r := TablesOf(createDataframes, namelist, parse);
    }
  }
}
