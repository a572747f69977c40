/** The time-series (TS) request document that `create_request_dict` builds, shared by
    the TS client and the older monolithic client. The two copies differ only in the
    test that decides whether `site.elevation` is written, so that test is a parameter. */
module TimeseriesRequests {
  import opened Documents
  import FileLabels

  /** The 21 variables requested when the caller names none. */
  const DefaultParamList: seq<string> := [
    "GHI", "DNI", "DIF", "GHI_NOSHD", "DNI_NOSHD", "DIF_NOSHD", "CI_FLAG",
    "SUN_ELEVATION", "SUN_AZIMUTH", "TEMP", "WS", "WD", "WG", "RH", "AP",
    "PWAT", "PREC", "TD", "WBT", "SDWE", "SFWE"
  ]

  /** Time step to time alignment; steps not listed are aligned to "CENTER". */
  const TimeAlignmentMapping: map<string, string> := map[
    "PT15M" := "CENTER", "P1H" := "CENTER",
    "P1D" := "START", "P1M" := "START", "P1Y" := "START"
  ]

  /** `DEFAULT_PARAM_LIST` as the JSON list that becomes "columns". */
  function DefaultColumns(): JsonValue
  {
    JArray(seq(|DefaultParamList|, i requires 0 <= i < |DefaultParamList| => JString(DefaultParamList[i])))
  }

  lemma DefaultParamListShape()
    ensures |DefaultParamList| == 21
    ensures forall i, j :: 0 <= i < j < |DefaultParamList| ==> DefaultParamList[i] != DefaultParamList[j]
    ensures Truthy(DefaultColumns())
  {
  }

  /** The arguments of `create_request_dict` once Python has bound them; `extra` is `**kwargs`.
      Values that are only copied into the document stay opaque JSON values. */
  datatype TsArgs = TsArgs(
    lat: JsonValue, long: JsonValue, siteName: JsonValue,
    parameters: JsonValue, fromDate: JsonValue, toDate: JsonValue, timeStep: JsonValue,
    terrainShading: JsonValue, siteElevation: JsonValue, utcOffset: JsonValue,
    extra: Document)

  /** The named parameters of `create_request_dict`; every other keyword lands in `**kwargs`. */
  const NamedParameters: set<string> := {
    "lat", "long", "site_name", "parameters", "from_date", "to_date", "time_step",
    "terrain_shading", "site_elevation", "utc_offset"
  }

  function GetOr(d: Document, k: string, default: JsonValue): JsonValue
  {
    if k in d then d[k] else default
  }

  /** Python's binding of keyword arguments to `create_request_dict(lat, long, site_name, ...)`:
      a TypeError when a parameter without default is missing, the declared defaults otherwise. */
  function BindKwargs(kwargs: Document): (r: Result<TsArgs>)
    ensures r.Ok? <==> "lat" in kwargs && "long" in kwargs && "site_name" in kwargs
    ensures r.Err? ==> r.error == TypeError
    ensures r.Ok? ==> r.value.lat == kwargs["lat"] && r.value.long == kwargs["long"] && r.value.siteName == kwargs["site_name"]
    ensures r.Ok? ==> r.value.extra.Keys == kwargs.Keys - NamedParameters
    ensures r.Ok? ==> forall k :: k in r.value.extra ==> r.value.extra[k] == kwargs[k]
    ensures r.Ok? ==> r.value.parameters == if "parameters" in kwargs then kwargs["parameters"] else JNull
    ensures r.Ok? ==> r.value.fromDate == if "from_date" in kwargs then kwargs["from_date"] else JString("AUTODETECT")
    ensures r.Ok? ==> r.value.toDate == if "to_date" in kwargs then kwargs["to_date"] else JString("LAST_MONTH")
    ensures r.Ok? ==> r.value.timeStep == if "time_step" in kwargs then kwargs["time_step"] else JString("PT15M")
    ensures r.Ok? ==> r.value.terrainShading == if "terrain_shading" in kwargs then kwargs["terrain_shading"] else JBool(true)
    ensures r.Ok? ==> r.value.siteElevation == if "site_elevation" in kwargs then kwargs["site_elevation"] else JNull
    ensures r.Ok? ==> r.value.utcOffset == if "utc_offset" in kwargs then kwargs["utc_offset"] else JString("+00:00")
  {
    if "lat" !in kwargs || "long" !in kwargs || "site_name" !in kwargs then Err(TypeError)
    else Ok(TsArgs(
      kwargs["lat"], kwargs["long"], kwargs["site_name"],
      GetOr(kwargs, "parameters", JNull),
      GetOr(kwargs, "from_date", JString("AUTODETECT")),
      GetOr(kwargs, "to_date", JString("LAST_MONTH")),
      GetOr(kwargs, "time_step", JString("PT15M")),
      GetOr(kwargs, "terrain_shading", JBool(true)),
      GetOr(kwargs, "site_elevation", JNull),
      GetOr(kwargs, "utc_offset", JString("+00:00")),
      kwargs - NamedParameters))
  }

  /** `TIME_ALIGNMENT_MAPPING.get(time_step, "CENTER")`; a list or dict time step is unhashable. */
  function TimeAlignment(timeStep: JsonValue): (r: Result<string>)
    ensures r.Err? <==> !Hashable(timeStep)
    ensures r.Err? ==> r.error == TypeError
    ensures r.Ok? ==> (r.value == "START" <==> timeStep in {JString("P1D"), JString("P1M"), JString("P1Y")})
    ensures r.Ok? ==> (r.value == "CENTER" <==> timeStep !in {JString("P1D"), JString("P1M"), JString("P1Y")})
  {
    if !Hashable(timeStep) then Err(TypeError)
    else if timeStep.JString? && timeStep.s in TimeAlignmentMapping then Ok(TimeAlignmentMapping[timeStep.s])
    else Ok("CENTER")
  }

  lemma TimeAlignmentExamples()
    ensures TimeAlignment(JString("PT15M")) == Ok("CENTER") && TimeAlignment(JString("P1H")) == Ok("CENTER")
    ensures TimeAlignment(JString("P1D")) == Ok("START") && TimeAlignment(JString("P1Y")) == Ok("START")
    ensures TimeAlignment(JString("PT60M")) == Ok("CENTER")
  {
  }

  /** `key` holds `built` unless the caller's `**kwargs` replaced it. */
  predicate Keeps(r: Document, extra: Document, key: string, built: JsonValue)
  {
    key in r && r[key] == (if key in extra then extra[key] else built)
  }

  /** The keys `create_request_dict` always writes. */
  const RequestKeys: set<string> := {
    "requestType", "site", "timeStep", "columns", "fromDate", "toDate", "utcOffset",
    "timeAlignment", "fileLabel", "terrainShading", "outputFormat", "compressOutput"
  }

  /** The dict literal of `create_request_dict`, the optional `site.elevation`, then `update(kwargs)`.
      The literal evaluates "timeAlignment" before "fileLabel", so an unhashable time step is
      reported before a site name that is not a string. */
  function RequestDocument(args: TsArgs, withElevation: bool): (r: Result<Document>)
    ensures r.Ok? <==> Hashable(args.timeStep) && args.siteName.JString?
    ensures r.Err? ==> r.error == if Hashable(args.timeStep) then AttributeError else TypeError
  {
    match TimeAlignment(args.timeStep)
    case Err(e) => Err(e)
    case Ok(alignment) =>
      if !args.siteName.JString? then Err(AttributeError)
      else
        var built := Literal(args, alignment, FileLabels.ToSafeFileLabel(args.siteName.s), withElevation);
        Ok(built + args.extra)
  }

  /** The document holds the twelve built keys and the caller's keywords, and every caller keyword wins. */
  lemma RequestDocumentKeys(args: TsArgs, withElevation: bool)
    ensures var r := RequestDocument(args, withElevation);
      r.Ok? ==> r.value.Keys == RequestKeys + args.extra.Keys && forall k :: k in args.extra ==> r.value[k] == args.extra[k]
  {
  }

  /** Each built entry other than "site" holds its value unless a caller keyword replaced it. */
  lemma RequestDocumentEntries(args: TsArgs, withElevation: bool)
    ensures var r := RequestDocument(args, withElevation);
      r.Ok? ==>
      && Keeps(r.value, args.extra, "requestType", JString("TIMESERIES"))
      && Keeps(r.value, args.extra, "outputFormat", JString("SOLARGIS_JSON"))
      && Keeps(r.value, args.extra, "compressOutput", JBool(false))
      && Keeps(r.value, args.extra, "timeStep", args.timeStep)
      && Keeps(r.value, args.extra, "fromDate", args.fromDate)
      && Keeps(r.value, args.extra, "toDate", args.toDate)
      && Keeps(r.value, args.extra, "utcOffset", args.utcOffset)
      && Keeps(r.value, args.extra, "terrainShading", args.terrainShading)
      && Keeps(r.value, args.extra, "columns", if Truthy(args.parameters) then args.parameters else DefaultColumns())
      && ("timeAlignment" !in args.extra ==>
            r.value["timeAlignment"] == JString(if args.timeStep in {JString("P1D"), JString("P1M"), JString("P1Y")} then "START" else "CENTER"))
      && ("fileLabel" !in args.extra ==>
            r.value["fileLabel"] == JString(FileLabels.ToSafeFileLabel(args.siteName.s)) &&
            FileLabels.IsSafeLabel(r.value["fileLabel"].s))
  {
    if RequestDocument(args, withElevation).Ok? {
      var alignment, fileLabel := TimeAlignment(args.timeStep).value, FileLabels.ToSafeFileLabel(args.siteName.s);
      LiteralEntries(args, alignment, fileLabel, withElevation);
    }
  }

  /** Unless the caller replaced it, "site" holds latitude, longitude and name, and "elevation"
      exactly when the elevation test holds. */
  lemma RequestDocumentSite(args: TsArgs, withElevation: bool)
    ensures var r := RequestDocument(args, withElevation);
      r.Ok? && "site" !in args.extra ==>
      && "site" in r.value && r.value["site"].JObject?
      && var site := r.value["site"].fields;
      && site.Keys == {"latitude", "longitude", "name"} + (if withElevation then {"elevation"} else {})
      && site["latitude"] == args.lat && site["longitude"] == args.long && site["name"] == args.siteName
      && (withElevation ==> site["elevation"] == args.siteElevation)
  {
  }

  /** The dict literal, with `site.elevation` already written when `withElevation` holds. */
  function Literal(args: TsArgs, alignment: string, fileLabel: string, withElevation: bool): Document
  {
    Fields(args, alignment, fileLabel)["site" := JObject(Site(args, withElevation))]
  }

  /** The dict literal without its "site" entry. */
  function Fields(args: TsArgs, alignment: string, fileLabel: string): Document
  {
    map[
      "requestType" := JString("TIMESERIES"),
      "timeStep" := args.timeStep,
      "columns" := if Truthy(args.parameters) then args.parameters else DefaultColumns(),
      "fromDate" := args.fromDate,
      "toDate" := args.toDate,
      "utcOffset" := args.utcOffset,
      "timeAlignment" := JString(alignment),
      "fileLabel" := JString(fileLabel),
      "terrainShading" := args.terrainShading,
      "outputFormat" := JString("SOLARGIS_JSON"),
      "compressOutput" := JBool(false)
    ]
  }

  /** The entries of the dict literal without "site". */
  lemma FieldsEntries(args: TsArgs, alignment: string, fileLabel: string)
    ensures var f := Fields(args, alignment, fileLabel);
      && f.Keys == RequestKeys - {"site"}
      && f["requestType"] == JString("TIMESERIES") && f["outputFormat"] == JString("SOLARGIS_JSON")
      && f["compressOutput"] == JBool(false) && f["timeStep"] == args.timeStep
      && f["fromDate"] == args.fromDate && f["toDate"] == args.toDate && f["utcOffset"] == args.utcOffset
      && f["terrainShading"] == args.terrainShading
      && f["columns"] == (if Truthy(args.parameters) then args.parameters else DefaultColumns())
      && f["timeAlignment"] == JString(alignment) && f["fileLabel"] == JString(fileLabel)
  {
  }

  /** The entries of the whole dict literal: those of `Fields`, and "site". */
  lemma LiteralEntries(args: TsArgs, alignment: string, fileLabel: string, withElevation: bool)
    ensures var d := Literal(args, alignment, fileLabel, withElevation);
      && d.Keys == RequestKeys
      && d["requestType"] == JString("TIMESERIES") && d["outputFormat"] == JString("SOLARGIS_JSON")
      && d["compressOutput"] == JBool(false) && d["timeStep"] == args.timeStep
      && d["fromDate"] == args.fromDate && d["toDate"] == args.toDate && d["utcOffset"] == args.utcOffset
      && d["terrainShading"] == args.terrainShading
      && d["columns"] == (if Truthy(args.parameters) then args.parameters else DefaultColumns())
      && d["timeAlignment"] == JString(alignment) && d["fileLabel"] == JString(fileLabel)
      && d["site"] == JObject(Site(args, withElevation))
  {
    FieldsEntries(args, alignment, fileLabel);
  }

  /** The "site" object: coordinates and name, plus "elevation" when `withElevation` holds. */
  function Site(args: TsArgs, withElevation: bool): (site: Document)
    ensures site.Keys == {"latitude", "longitude", "name"} + (if withElevation then {"elevation"} else {})
    ensures site["latitude"] == args.lat && site["longitude"] == args.long && site["name"] == args.siteName
    ensures withElevation ==> site["elevation"] == args.siteElevation
  {
    var site := map["latitude" := args.lat, "longitude" := args.long, "name" := args.siteName];
    if withElevation then site["elevation" := args.siteElevation] else site
  }
}
