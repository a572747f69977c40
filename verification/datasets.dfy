/** Turning a downloaded SOLARGIS_JSON document into a table plus metadata: the
    top-level "data" entry becomes the rows, indexed by its "DATETIME" column, and
    every other top-level entry is metadata. Only the map logic is modelled: the
    table stands for the pandas DataFrame, and `pd.to_datetime` is left out. */
module Datasets {
  import opened Documents

  /** A table read from "data" given as a mapping from column name to column values:
      `index` is the former "DATETIME" column, `columns` the remaining ones. */
  datatype Frame = Frame(index: JsonValue, columns: map<string, JsonValue>)

  /** `data_json.pop("data")`, `DataFrame.from_dict`, `sg_data.index = sg_data["DATETIME"]`,
      `sg_data.drop(columns=["DATETIME"])`, and the rest of `data_json` as metadata. */
  function SplitDataAndMetadata(doc: Document): (r: Result<(Frame, Document)>)
    ensures "data" !in doc ==> r == Err(KeyError("data"))
    ensures "data" in doc && doc["data"].JObject? && "DATETIME" !in doc["data"].fields ==> r == Err(KeyError("DATETIME"))
    ensures r.Ok? <==> "data" in doc && doc["data"].JObject? && "DATETIME" in doc["data"].fields
    ensures r.Ok? ==> "data" !in r.value.1 && r.value.1.Keys == doc.Keys - {"data"}
    ensures r.Ok? ==> forall k :: k in r.value.1 ==> r.value.1[k] == doc[k]
    ensures r.Ok? ==> "DATETIME" !in r.value.0.columns
    ensures r.Ok? ==> r.value.0.columns.Keys == doc["data"].fields.Keys - {"DATETIME"}
    ensures r.Ok? ==> r.value.0.index == doc["data"].fields["DATETIME"]
  {
    if "data" !in doc then Err(KeyError("data"))
    else match doc["data"]
      case JObject(table) =>
        if "DATETIME" !in table then Err(KeyError("DATETIME"))
        else Ok((Frame(table["DATETIME"], table - {"DATETIME"}), doc - {"data"}))
      case _ => Err(NotATable)
  }

  /** The inverse of the split: put the index back as "DATETIME" and the table back under "data". */
  function Reassemble(frame: Frame, metadata: Document): (doc: Document)
    ensures "data" in doc && doc["data"].JObject? && "DATETIME" in doc["data"].fields
  {
    metadata["data" := JObject(frame.columns["DATETIME" := frame.index])]
  }

  /** Splitting loses nothing: reassembling the parts gives back the downloaded document. */
  lemma SplitRoundTrip(doc: Document)
    requires SplitDataAndMetadata(doc).Ok?
    ensures var (frame, metadata) := SplitDataAndMetadata(doc).value; Reassemble(frame, metadata) == doc
  {
    var (frame, metadata) := SplitDataAndMetadata(doc).value;
    var table := doc["data"].fields;
    assert frame.columns["DATETIME" := frame.index] == table;
    assert Reassemble(frame, metadata) == doc;
  }

  /** And the other way round: every table whose columns do not include "DATETIME", with metadata
      that has no "data" entry, is what splitting its reassembled document gives. */
  lemma ReassembleRoundTrip(frame: Frame, metadata: Document)
    requires "DATETIME" !in frame.columns && "data" !in metadata
    ensures SplitDataAndMetadata(Reassemble(frame, metadata)) == Ok((frame, metadata))
  {
    var doc := Reassemble(frame, metadata);
    assert doc - {"data"} == metadata;
    assert frame.columns["DATETIME" := frame.index] - {"DATETIME"} == frame.columns;
  }
}
