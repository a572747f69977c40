# Solargis API clients, modelled in Dafny

This project models the deterministic core of the Solargis Python clients for the
time-series (TS) and typical-meteorological-year (TMY) data-request APIs.
The core covered here:

- the file-label helpers `prettify_file_label`, `to_safe_file_label` and `to_safe_file_label_tmy`;
- the request-document builders `create_request_dict`: two TS copies and one TMY version;
- the per-job status poll loop `wait_for_data`;
- the registration of request ids;
- the accumulation of datasets and metadata on the client objects;
- the TMY `outputFormats` augmentation;
- the split of a downloaded SOLARGIS_JSON document into a table and its metadata.

The modules follow the source files:

| module (file) | source |
|---|---|
| `Documents` (documents.dfy) | JSON values. The Python behaviour the clients rely on: truthiness, hashability of dict keys, `dict.get`, `pop`-and-assign, insertion-ordered dicts. The exceptions they raise. |
| `FileLabels` (file_labels.dfy) | `prettify_file_label` and `to_safe_file_label`. They are character-identical in `sg_api_client_base.py` and `sg_api_client.py`, so they are defined once. |
| `TimeseriesRequests` (timeseries_requests.dfy) | The TS request document shared by `ts_api_client.py` and `sg_api_client.py`. The two copies differ only in the elevation test, which is a parameter here. |
| `Datasets` (datasets.dfy) | The `data`/metadata split of `read_data`. |
| `SgApiClientBase` (sg_api_client_base.dfy) | `SGAPIClient` of `sg_api_client_base.py`: the poll loop and the client class. |
| `TsApiClient` (ts_api_client.dfy) | `TSAPIClient`. |
| `TmyApiClient` (tmy_api_client.dfy) | `TMYAPIClient` and `to_safe_file_label_tmy`. |
| `SgApiClient` (sg_api_client.dfy) | The older monolithic `sg_api_client.py`. |

How the Python is modelled:

- Network and time are parameters:
  - the poll loop reads a finite script of status responses and counts its `sleep(4)` calls;
  - a retrieval is given the `(name, data, metadata)` triples it yields;
  - `read_data` is given the downloaded file name and the parsed document.
- A Python exception is the `Err` case of a `Result`.
- A keyword-argument dict is a `map<string, JsonValue>`.
- The client dicts whose order matters (`_requests`) are sequences of `(name, request)` pairs.
- The abstract `create_request_dict` of the base class is a function-valued constant of `SgApiClientBase.Client`:
  - `TsApiClient.NewClient` supplies the TS builder;
  - `TmyApiClient.TmyClient` supplies the TMY builder.

## Model

| member | source | states |
|---|---|---|
| Documents.Truthy | ts_api_client.py:82 | Python truthiness of a JSON value (`not parameters`, `if site_elevation:`): null, false, zero, empty string, list and dict are falsy; stated through TimeseriesRequests.RequestDocumentEntries, TsApiClient.KwargsDefaults, SgApiClient.ElevationWritten and SgApiClient.BuildersAgree |
| Documents.Hashable | ts_api_client.py:97 | whether a value can be a dict key: lists and dicts cannot; stated through TimeAlignment, RequestDocument and FetchTaskIds |
| Documents.Rename | tmy_api_client.py:93 | `d[into] = d.pop(k)`: `into` gets the old value and `k` is gone |
| Documents.RenameElsewhere | tmy_api_client.py:93 | every key other than `k` and `into` is untouched: present exactly when it was, with the same value |
| Documents.Names | sg_api_client_base.py:31 | the keys of an ordered dict, in insertion order, one per entry |
| Documents.Lookup | sg_api_client_base.py:31 | `d.get(k)` on an ordered dict: None exactly when `k` is not a key, otherwise a value stored under `k` |
| Documents.Put | sg_api_client_base.py:31 | `d[k] = v` on an ordered dict; its meaning is stated by PutLookup, PutKeepsOthers and PutNames |
| Documents.PutLookup | sg_api_client_base.py:31 | after `d[k] = v`, `k` maps to `v` and every other key to its former value |
| Documents.PutKeepsOthers | sg_api_client_base.py:31 | the same, for all keys at once; distinct keys stay distinct |
| Documents.PutNames | sg_api_client_base.py:31 | `d[k] = v` keeps the key order, appends `k` only when it is new, and keeps keys distinct |
| FileLabels.EndsWith | sg_api_client_base.py:162-165 | `s.endswith(suffix)`; used by StripSuffix and PrettifyFileLabel |
| FileLabels.StripSuffix | sg_api_client_base.py:162-165 | one `if label.endswith(x): label = label[:-len(x)]` step: the input is the result followed by the suffix when it ends in it, and unchanged otherwise |
| FileLabels.PrettifyFileLabel | sg_api_client_base.py:158-166 | the result is a prefix of the label, shorter by "", ".json", "_SOLARGIS_JSON" or "_SOLARGIS_JSON.json"; it is unchanged exactly when the label ends in neither suffix; "…_SOLARGIS_JSON.json" loses 19 characters |
| FileLabels.PrettifyExamplesJson | sg_api_client.py:240-248 | "site_SOLARGIS_JSON.json" → "site", "plain.json" → "plain" |
| FileLabels.PrettifyExamplesNoJson | sg_api_client.py:240-248 | "plain_SOLARGIS_JSON" → "plain", "report.csv" unchanged |
| FileLabels.ReplaceChar | sg_api_client_base.py:173-174 | `s.replace(a, b)`: same length, every `a` replaced by `b`, all else kept |
| FileLabels.DeleteNonWord | sg_api_client_base.py:175-176 | `re.sub(r"\W\|^(?=\d)", "", s)`: never longer, and only word characters remain |
| FileLabels.DeleteNonWordAppend | sg_api_client.py:232-233 | deletion works per character, so the kept characters stay in order |
| FileLabels.DeleteNonWordIdentity | sg_api_client_base.py:175-176 | nothing is deleted exactly when every character is a word character |
| FileLabels.CleanWith | sg_api_client_base.py:173-176 | the replace, replace, `re.sub` pipeline for a given meaning of `\w`; its meaning is stated by CleanAppend, CleanChar and CleanSafeLabel |
| FileLabels.ReplaceCharAppend | sg_api_client_base.py:173-174 | `replace` works per character, so it distributes over concatenation |
| FileLabels.CleanAppend | sg_api_client_base.py:173-176 | the cleaning steps distribute over concatenation |
| FileLabels.CleanChar | sg_api_client_base.py:173-176 | one character: " " and "-" become "_", a word character stays, anything else is deleted |
| FileLabels.CleanSafeLabel | sg_api_client_base.py:173-176 | cleaning leaves a string of word characters unchanged |
| FileLabels.CleanJoined | sg_api_client_base.py:173-176 | words joined by a space and a hyphen come out joined by underscores |
| FileLabels.ToSafeFileLabelWith | sg_api_client.py:226-237 | `to_safe_file_label` as written, for any meaning of `\w`: the cleaned label, or "_" + it; it always starts with a letter or "_" |
| FileLabels.ToSafeFileLabel | sg_api_client_base.py:169-180 | the result matches `^[A-Za-z_][A-Za-z0-9_]*$`, as the docstring promises |
| FileLabels.SafeLabelFixpoint | sg_api_client_base.py:169-180 | a label is returned unchanged exactly when it already matches the regex |
| FileLabels.SafeLabelIdempotent | sg_api_client_base.py:169-180 | sanitising twice is sanitising once |
| FileLabels.SafeLabelPrefixRule | sg_api_client.py:233-236 | "_" is prepended exactly when the cleaned label is empty or starts with neither a letter nor "_"; a leading digit is kept, after the "_" (`^(?=\d)` deletes nothing) |
| FileLabels.CleanExampleSite | sg_api_client_base.py:173-176 | cleaning "My Site-1" gives "My_Site_1" |
| FileLabels.CleanExampleDot | sg_api_client_base.py:173-176 | cleaning "a.b" gives "ab" |
| FileLabels.SafeLabelExampleSite | sg_api_client_base.py:169-180 | "My Site-1" → "My_Site_1" |
| FileLabels.SafeLabelExampleDigits | sg_api_client_base.py:169-180 | "123" → "_123" and "" → "_" |
| FileLabels.SafeLabelExampleDot | sg_api_client_base.py:169-180 | "a.b" → "ab" |
| FileLabels.DeleteNonWordAscii | sg_api_client_base.py:176 | two meanings of `\w` that agree on ASCII delete the same characters from ASCII text |
| FileLabels.AsciiLabelsAgree | sg_api_client_base.py:169-180 | on ASCII labels, the as-written function equals the corrected one, whatever `\w` means beyond ASCII |
| FileLabels.UnicodeWordBreaksSafeLabel | sg_api_client_base.py:171-179 | with Python's Unicode `\w`, "é" becomes "_é", which breaks the docstring's regex |
| TimeseriesRequests.DefaultParamListShape | ts_api_client.py:7-29 | `DEFAULT_PARAM_LIST` holds 21 distinct names, so the `columns` fallback is a truthy list |
| TimeseriesRequests.BindKwargs | ts_api_client.py:66-78 | Python's binding of keywords: TypeError exactly when `lat`, `long` or `site_name` is missing; otherwise each optional parameter is the caller's value or its declared default (None, "AUTODETECT", "LAST_MONTH", "PT15M", True, None, "+00:00"); every other keyword goes to `**kwargs` unchanged |
| TimeseriesRequests.TimeAlignment | ts_api_client.py:31-37 | `TIME_ALIGNMENT_MAPPING.get(step, "CENTER")`: "START" exactly for P1D, P1M and P1Y, "CENTER" for every other step; TypeError for an unhashable step |
| TimeseriesRequests.TimeAlignmentExamples | ts_api_client.py:97 | PT15M and P1H → CENTER, P1D and P1Y → START, PT60M → CENTER |
| TimeseriesRequests.RequestDocument | ts_api_client.py:82-107 | succeeds exactly for a hashable step and a string site name; otherwise TypeError for an unhashable step, else AttributeError from `label.replace` on a non-string name |
| TimeseriesRequests.RequestDocumentKeys | ts_api_client.py:85-107 | the keys are the twelve built keys plus the caller's keywords, and every caller keyword overrides |
| TimeseriesRequests.RequestDocumentEntries | ts_api_client.py:82-102 | each built entry holds its value unless a keyword replaced it; `columns` falls back to the 21 defaults when `parameters` is falsy; `timeAlignment` is START for P1D, P1M and P1Y, else CENTER; `fileLabel` is the safe label of the site name |
| TimeseriesRequests.RequestDocumentSite | ts_api_client.py:87-105 | unless replaced, `site` holds latitude, longitude and name, and `elevation` exactly when the elevation test holds |
| TimeseriesRequests.Site | ts_api_client.py:87-105 | `site` holds latitude, longitude and name, and `elevation` exactly when the elevation test holds |
| Datasets.SplitDataAndMetadata | ts_api_client.py:58-61 | KeyError("data") without "data", KeyError("DATETIME") without that column; on success the metadata is the document minus "data", the index is the DATETIME column, and the columns are the others |
| Datasets.Reassemble | ts_api_client.py:58-61 | putting the index back gives a document that the split accepts |
| Datasets.SplitRoundTrip | ts_api_client.py:58-61 | a split document is recovered exactly from its table and metadata |
| Datasets.ReassembleRoundTrip | tmy_api_client.py:54-57 | splitting a reassembled table gives back the table and metadata |
| SgApiClientBase.FirstStop | sg_api_client_base.py:120-129 | the index of the first response that ends the loop: all earlier ones keep it polling |
| SgApiClientBase.SleepingResponses | sg_api_client_base.py:127-133 | the number of responses whose status is present and not "error" |
| SgApiClientBase.PollFrom | sg_api_client_base.py:120-136 | the loop of `wait_for_data` for a valid id, one status response at a time; its meaning is stated by PollStopsAtFirstTerminal and PollSleepCount |
| SgApiClientBase.Poll | sg_api_client_base.py:114-139 | `wait_for_data` against a script of status responses: outcome, responses read and sleeps; its meaning is stated by PollStopsAtFirstTerminal, PollSleepCount and PollReturns, and WaitForData is proved equal to it |
| SgApiClientBase.PollStopsAtFirstTerminal | sg_api_client_base.py:120-136 | the loop stops at the first response that is "error" (None, "error", id), "success" (downloadUrl or None, "success", id) or has no status (ValueError); it reads exactly up to that response |
| SgApiClientBase.PollSleepCount | sg_api_client_base.py:127-133 | never reads past the script; one `sleep(4)` per response read whose status is not "error", including the "success" one |
| SgApiClientBase.PollReturns | sg_api_client_base.py:114-139 | a None id returns (None, "invalid request_id", None) without polling; every returned triple carries the id; the status is "error" (with no URL) or "success", so the post-loop `else` is unreachable |
| SgApiClientBase.PollScenario | sg_api_client_base.py:120-133 | k non-terminal responses then "success" give k+1 sleeps; then "error" gives k |
| SgApiClientBase.WaitForData | sg_api_client_base.py:114-139 | the `while` loop computes exactly the poll outcome, responses read and sleeps |
| SgApiClientBase.Collect | sg_api_client_base.py:42-44 | the dict after `d[name] = value` for each yielded pair in turn; its meaning is stated by CollectLastWins |
| SgApiClientBase.LastWrite | sg_api_client_base.py:42-44 | a name has a last write exactly when some result carries it |
| SgApiClientBase.LastWriteAt | sg_api_client_base.py:42-44 | the last write is the value of the last result with that name |
| SgApiClientBase.CollectLastWins | sg_api_client_base.py:42-44 | after storing every result in turn, a name is present exactly when it was present or yielded; it holds the last yielded value, or its old value when not yielded |
| SgApiClientBase.Client.constructor | sg_api_client_base.py:13-26 | all dicts start empty |
| SgApiClientBase.Client.AddRequest | sg_api_client_base.py:28-31 | builds the request with `site_name` added to the keywords; registers it under the site name, replacing in place or appending; other names are unchanged; a raising builder changes nothing |
| SgApiClientBase.Client.FetchTaskIds | sg_api_client_base.py:103-112 | with "requestId" in the response, registers id → name and returns the id (TypeError for an unhashable id); otherwise returns None and changes nothing |
| SgApiClientBase.Client.RetrieveAllData | sg_api_client_base.py:33-62 | non-empty given requests replace the registered ones; every yielded `(name, data, metadata)` is stored in order; returns the datasets |
| TsApiClient.CreateRequestDict | ts_api_client.py:65-109 | succeeds exactly for a hashable step and a string site name |
| TsApiClient.ElevationWritten | ts_api_client.py:104-105 | `site.elevation` is present exactly when `site_elevation is not None`, and then holds it |
| TsApiClient.CreateFromKwargs | ts_api_client.py:65-109 | missing `lat`/`long`/`site_name` → TypeError |
| TsApiClient.KwargsPassThrough | ts_api_client.py:65-109 | every keyword that is not a parameter reaches the document unchanged; all built keys are present |
| TsApiClient.KwargsDefaults | ts_api_client.py:82-98 | without a `fileLabel` keyword the label is safe; without parameters (or falsy ones) the columns are the defaults |
| TsApiClient.ZeroElevationKept | ts_api_client.py:104-105 | an elevation of 0 is written |
| TsApiClient.NewClient | ts_api_client.py:47-48 | a fresh client with the TS builder, all five dicts empty |
| TsApiClient.ReadData | ts_api_client.py:50-63 | records the prettified download name as the file label, then returns the split of the parsed document |
| TmyApiClient.ToSafeFileLabelTmy | tmy_api_client.py:115-117 | the first min(10, n) characters of the safe label: 1 to 10 characters, itself a safe label |
| TmyApiClient.TmyLabelIdempotent | tmy_api_client.py:115-117 | applying it twice is applying it once |
| TmyApiClient.RenameSiteName | tmy_api_client.py:92-93 | `site_name` moves to `siteName`, replacing it; without `site_name` nothing changes |
| TmyApiClient.DefaultFileLabel | tmy_api_client.py:94-95 | `fileLabel` defaults to `siteName` |
| TmyApiClient.MoveIfAbsent | tmy_api_client.py:97-100 | `lat`/`long` move only when the target key is absent; otherwise nothing changes |
| TmyApiClient.MoveIfAbsentElsewhere | tmy_api_client.py:97-100 | every key other than the two named ones is untouched |
| TmyApiClient.RenamedKeywords | tmy_api_client.py:92-100 | the four keyword rewrites in source order; their effect is stated by RenamedKeywordsElsewhere and RenamedKeywordsNamed |
| TmyApiClient.RenamedKeywordsElsewhere | tmy_api_client.py:92-100 | the renames carry every other keyword over unchanged and add no key of their own choosing |
| TmyApiClient.RenamedKeywordsNamed | tmy_api_client.py:92-95 | after the renames there is no `site_name`; `siteName` is `site_name` when given; `fileLabel` is present exactly when one of the three is given, and is fileLabel, else site_name, else siteName |
| TmyApiClient.CreateRequestDict | tmy_api_client.py:73-112 | KeyError("fileLabel") exactly when none of fileLabel, siteName and site_name is given; otherwise AttributeError for a non-string label; never contains `site_name`; `siteName` is `site_name` when that is given |
| TmyApiClient.WithDefaults | tmy_api_client.py:102-112 | KeyError exactly when `fileLabel` is absent, AttributeError exactly when it is not a string; otherwise it is sanitised and cut to 10 characters |
| TmyApiClient.WithDefaultsAt | tmy_api_client.py:104-112 | every other key: the keyword over the default, and nothing else is added |
| TmyApiClient.TmyFileLabelSource | tmy_api_client.py:92-102 | the label comes from fileLabel, else site_name, else siteName; it succeeds exactly for a string, and is that string sanitised and cut to 10 characters |
| TmyApiClient.TmyDefaultsApply | tmy_api_client.py:104-112 | each of outputFormats, timeStep and tmyScenario is present in a built request: the caller's value, else its default |
| TmyApiClient.TmyLatitudeMoved | tmy_api_client.py:97-98 | `lat` becomes `latitude` only when `latitude` is absent; otherwise both stay as given |
| TmyApiClient.TmyLongitudeMoved | tmy_api_client.py:99-100 | the same for `long` and `longitude` |
| TmyApiClient.TmyKeywordsPassThrough | tmy_api_client.py:92-112 | every other keyword reaches the request unchanged, and nothing else is added |
| TmyApiClient.IsSubstring | tmy_api_client.py:37 | Python's `t in s` for strings: `t` occurs at some index of `s` |
| TmyApiClient.HasSolargisJson | tmy_api_client.py:37 | `"SOLARGIS_JSON" in request["outputFormats"]` holds without raising; stated through AddSolargisJson and AugmentedAt |
| TmyApiClient.ContainsSolargisJson | tmy_api_client.py:37 | `"SOLARGIS_JSON" in formats` raises TypeError exactly for None, booleans and numbers |
| TmyApiClient.AddSolargisJson | tmy_api_client.py:37-38 | KeyError without outputFormats; succeeds exactly for a list or a value that already contains the name; the result contains it, with its other entries and existing formats unchanged and at most "SOLARGIS_JSON" appended; a request that has it is returned unchanged |
| TmyApiClient.AugmentAll | tmy_api_client.py:36-38 | the loop keeps the number of requests; no error exactly when all were done |
| TmyApiClient.AugmentAllSteps | tmy_api_client.py:36-38 | the loop runs in order until a step raises, and the error is that step's; requests before it are their own augmentation, the rest are untouched |
| TmyApiClient.AugmentedAt | tmy_api_client.py:36-38 | every request the loop got through contains SOLARGIS_JSON and extends its former self |
| TmyApiClient.AugmentKeepsNames | tmy_api_client.py:36-38 | names, and their distinctness, survive the loop |
| TmyApiClient.AugmentIdempotent | tmy_api_client.py:35-38 | augmenting twice is augmenting once, for every input: also a retry after a raise, when the requests before the failing one were already updated in place |
| TmyApiClient.AugmentOutputFormats | tmy_api_client.py:36-38 | the in-place loop computes exactly `AugmentAll`, and keeps the names distinct |
| TmyApiClient.FirstJsonIndex | tmy_api_client.py:47-50 | the first name in archive order that ends in ".json" |
| TmyApiClient.FirstJsonMember | tmy_api_client.py:47-50 | None exactly when no name ends in ".json"; otherwise the first such name |
| TmyApiClient.TablesOf | tmy_api_client.py:51-60 | (None, None) when `create_dataframes` is off or there is no JSON member; otherwise the split of that member |
| TmyApiClient.TmyClient.constructor | tmy_api_client.py:18-21 | a fresh base client with the TMY builder and all its dicts empty; no zipped files; `create_dataframes` off |
| TmyApiClient.TmyClient.RetrieveAllData | tmy_api_client.py:23-39 | uses the given or the registered requests; augments them only when `create_dataframes` is set; an augmentation error propagates, and the registered requests keep the updates made before it; otherwise the base retrieval stores the results |
| TmyApiClient.TmyClient.ReadData | tmy_api_client.py:41-60 | records the file label and the zipped bytes, then returns `TablesOf` |
| SgApiClient.CreateRequestDict | sg_api_client.py:180-223 | succeeds exactly for a hashable step and a string site name |
| SgApiClient.ElevationWritten | sg_api_client.py:218-219 | `site.elevation` is present exactly when `site_elevation` is truthy, and then holds it |
| SgApiClient.CreateFromKwargs | sg_api_client.py:180-223 | missing `lat`/`long`/`site_name` → TypeError |
| SgApiClient.KwargsPassThrough | sg_api_client.py:180-223 | every keyword that is not a parameter reaches the document unchanged; all built keys are present |
| SgApiClient.BuildersAgree | sg_api_client.py:218-219 | the monolithic and TS builders give the same result exactly when the elevation is truthy or None, the build raises, or the caller overrides `site` |
| SgApiClient.SiteOverrideHidesElevation | sg_api_client.py:218-221 | a caller's `site` replaces the built one, elevation and all |
| SgApiClient.ZeroElevationDropped | sg_api_client.py:218-219 | an elevation of 0 is dropped here and kept by the TS builder |
| SgApiClient.LegacyPollFrom | sg_api_client.py:126-145 | the legacy loop for a valid id, one status response at a time; its meaning is stated by LegacyPollAgreesWithBase |
| SgApiClient.LegacyPoll | sg_api_client.py:121-145 | the legacy `wait_for_data`; LegacyPollAgreesWithBase relates it to the base loop, and WaitForData is proved equal to it |
| SgApiClient.LegacyPollAgreesWithBase | sg_api_client.py:121-145 | reads the same responses and sleeps as often as the base loop; the same outcome without the id, except that "success" without downloadUrl raises KeyError |
| SgApiClient.WaitForData | sg_api_client.py:121-145 | the `while` loop computes exactly the legacy poll outcome, responses read and sleeps |
| SgApiClient.LegacyClient.constructor | sg_api_client.py:47-61 | all dicts start empty; the request builder is the module-level `create_request_dict` |
| SgApiClient.LegacyClient.AddRequest | sg_api_client.py:63-66 | as in the base client, with the monolithic builder |
| SgApiClient.LegacyClient.RetrieveData | sg_api_client.py:68-79 | stores every yielded triple in order and returns the datasets; the registered requests are never replaced |
| SgApiClient.LegacyClient.ReadData | sg_api_client.py:147-159 | records the prettified file label, then returns the split of the parsed document |

## Left out

- HTTP and concurrency are not modelled. This covers the aiohttp sessions, the POST submit, the GET status and download calls, and the fan-out with `asyncio.as_completed`/`gather` (sg_api_client_base.py:64-95, sg_api_client.py:81-103). Their point is network I/O and concurrency. A retrieval is given the triples it yields, and the poll loop is given its status responses.
- Orchestration defects inside that fan-out are left out with it:
  - a failed submission is yielded under the name looked up with key None (sg_api_client_base.py:77);
  - every id ever registered is polled again (sg_api_client_base.py:80-83);
  - results of `gather` that are exceptions are unpacked (sg_api_client.py:95-97).
- The monolithic `fetch_task_ids` (sg_api_client.py:105-119) is `Documents.Get(response, "requestId")` plus logging. It has no member of its own.
- The poll script is finite. When it runs out, the model reports `StillPolling` where the code would issue another status request.
- Poll sleeps: the code sleeps once after every non-error status, including "success" and unknown statuses, so a first-poll success still costs one sleep. The model follows the code.
- pandas (`DataFrame.from_dict`, `pd.to_datetime`) is a foreign library. `Datasets.Frame` keeps the column map of "data" with DATETIME as index. A "data" entry in list-of-records form is reported as `NotATable` instead of being read.
- zipfile decompression, `json.loads` and `json.dumps` are foreign calls. The archive's `namelist` and a `parse` function are parameters. A parsed document that is not a JSON object is not modelled.
- `save_data_and_metadata` (file-system writes), `print` logging, `datetime.now()`, the Authorization header, `url` and `dest_folder` are I/O or configuration.
- Aliasing is not modelled:
  - TMY augmentation of caller-supplied requests also mutates the caller's dicts, and the model tracks only the client's copy;
  - TS `columns` shares the `DEFAULT_PARAM_LIST` object.
- Python's cross-type key equality (`1 == 1.0 == True` as dict keys) is not modelled. Ids are compared as JSON values.
- Key order within a request document is not modelled, since documents are maps. The order of the request registry is modelled.
- `tmy_api_client.py:120-130` (`__main__`) and the example scripts are scripts, not library code.
- RequestDocumentEntries: its safe-label clause for `fileLabel` holds of the model, whose request builders use the corrected sanitiser `FileLabels.ToSafeFileLabel` (`\w` read as `[A-Za-z0-9_]`, see Findings). The code keeps non-ASCII letters, so for a site name such as "é" its label is "_é", which is not safe. On ASCII site names the two agree (`FileLabels.AsciiLabelsAgree`).
- KwargsDefaults: the same; "the label is safe" is a property of the corrected sanitiser, and agrees with the code on ASCII site names.
- TmyFileLabelSource: the same for the TMY label; the IsSafeLabel clause holds of the code on ASCII labels only.
- ToSafeFileLabelTmy: built on the corrected sanitiser, so "itself a safe label" holds of the code on ASCII labels only.
- RetrieveAllData (`SgApiClientBase.Client.RetrieveAllData`): the writes made inside the left-out fan-out are not performed, so its contract keeps `requestIdsToNames` and `fileLabelsFromApi` unchanged. The code registers each submitted id (`fetch_task_ids`) and records each download's label (`read_data`) during the retrieval. Those writes are modelled on their own by `FetchTaskIds` and `ReadData`.
- RetrieveAllData (`TmyApiClient.TmyClient.RetrieveAllData`): the same; in addition `zippedFiles`, which the code fills in `read_data` during the retrieval, is kept unchanged. `TmyClient.ReadData` models that write.
- RetrieveData (`SgApiClient.LegacyClient.RetrieveData`): the same; `fileLabelsFromApi`, which `read_data` writes during `_retrieve_data`, is kept unchanged. `LegacyClient.ReadData` models that write.

## Findings

| source | as written | input that shows it | evidently intended | confidence | as-written member | corrected member |
|---|---|---|---|---|---|---|
| sg_api_client_base.py:176 | `re.sub(r"\W…")` uses Python's Unicode `\w`, so non-ASCII letters survive, and "_" is prepended because they are not `[A-Za-z_]` | `to_safe_file_label("é")` returns "_é", which does not match `^[A-Za-z_][A-Za-z0-9_]*$` | the result matches the docstring's regex, i.e. `\w` read as `[A-Za-z0-9_]` | medium, not executed | FileLabels.UnicodeWordBreaksSafeLabel | FileLabels.ToSafeFileLabel |
| sg_api_client.py:218 | `if site_elevation:` drops a falsy elevation | `site_elevation=0` (sea level) builds a request without `site.elevation` | write the elevation whenever it is given, as ts_api_client.py:104 does with `is not None` | medium, not executed | SgApiClient.ZeroElevationDropped | TsApiClient.ElevationWritten |
