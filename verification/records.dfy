/** Harvest objects and their fetched content (`fetch_stage`). A metadata
    reader yields a field mapping from field name to the list of extracted
    strings; the fetch stage adds the record's set-spec and, when the header
    has a datestamp, its ISO-8601 form, and stores the result as the
    object's content. */
module Records {
  import opened Wrappers
  import opened Configuration

  /** A field mapping as the metadata readers produce it: every reader field
      is a text list. */
  type FieldMapping = map<string, seq<string>>

  /** A content value: a list of strings, or a plain string (only the
      injected `metadata_modified` is one). */
  datatype Value = Items(items: seq<string>) | Text(text: string)

  /** The content of a harvest object, keyed by field name. */
  type Content = map<string, Value>

  /** What Python sees when it iterates, indexes or joins a content value:
      the list's elements, or a string's characters as one-character
      strings. */
  function Elems(v: Value): (r: seq<string>)
    ensures v.Items? ==> r == v.items
    ensures |r| == (if v.Items? then |v.items| else |v.text|)
  {
    match v
    case Items(l) => l
    case Text(s) => seq(|s|, i requires 0 <= i < |s| => [s[i]])
  }

  /** A record header as the OAI-PMH client returns it; `datestamp` is the
      ISO-8601 string of its datestamp, `None` when the header has none. */
  datatype Header = Header(setSpec: seq<string>, datestamp: Option<string>)

  /** A GetRecord answer; `metadata` is `None` for a record without a
      metadata part (a deleted record). */
  datatype OaiRecord = OaiRecord(header: Header, metadata: Option<FieldMapping>)

  /** One harvest object: its guid (the OAI identifier) and its content,
      `None` until a fetch succeeds. */
  datatype HarvestObject = HarvestObject(guid: string, content: Option<Content>)

  /** Python truthiness of the stored datestamp. */
  predicate HasTimestamp(h: Header) {
    h.datestamp.Some? && |h.datestamp.value| > 0
  }

  /** The content the fetch stage stores for one record. */
  function BuildContent(metadata: FieldMapping, h: Header): (c: Content)
    ensures c.Keys == metadata.Keys + {"set_spec"} + (if HasTimestamp(h) then {"metadata_modified"} else {})
    ensures c["set_spec"] == Items(h.setSpec)
    ensures HasTimestamp(h) ==> c["metadata_modified"] == Text(h.datestamp.value)
    ensures forall k :: k in metadata && k != "set_spec" && !(k == "metadata_modified" && HasTimestamp(h)) ==>
      c[k] == Items(metadata[k])
  {
    var fields := map k | k in metadata :: Items(metadata[k]);
    var withSet := fields["set_spec" := Items(h.setSpec)];
    if HasTimestamp(h) then withSet["metadata_modified" := Text(h.datestamp.value)] else withSet
  }

  /** Why a fetch failed: the GetRecord call raised, or the record had no
      metadata to serialise. */
  datatype FetchError = GetRecordFailed(reason: string) | DumpFailed

  /** The fetch stage for one object, given the outcome of its GetRecord
      call. The object's content is replaced only when every step
      succeeds; on failure the object is returned unchanged. */
  function FetchStage(obj: HarvestObject, answer: Result<OaiRecord, string>): (r: (HarvestObject, Result<(), FetchError>))
    ensures r.1.Success? <==> answer.Success? && answer.value.metadata.Some?
    ensures r.1.Failure? ==> r.0 == obj
    ensures answer.Failure? ==> r.1 == Failure(GetRecordFailed(answer.error))
    ensures r.1.Success? ==>
      && r.0.guid == obj.guid
      && r.0.content.Some?
      && r.0.content.value == BuildContent(answer.value.metadata.value, answer.value.header)
  {
    match answer
    case Failure(reason) => (obj, Failure(GetRecordFailed(reason)))
    case Success(record) =>
      match record.metadata
      case None => (obj, Failure(DumpFailed))
      case Some(m) => (obj.(content := Some(BuildContent(m, record.header))), Success(()))
  }

  /** The fetch stage as the harvester runs it for one object of a source
      with configuration `cfg`: `getRecord` stands for the OAI-PMH client,
      and the stage asks it for the object's own guid in the configured
      metadata prefix. */
  function Fetch(cfg: SourceConfig, obj: HarvestObject, getRecord: map<string, Json> -> Result<OaiRecord, string>): (r: (HarvestObject, Result<(), FetchError>))
    ensures var answer := getRecord(map["identifier" := JString(obj.guid), "metadataPrefix" := cfg.mdFormat]);
      && (r.1.Success? <==> answer.Success? && answer.value.metadata.Some?)
      && (r.1.Success? ==> r.0.content == Some(BuildContent(answer.value.metadata.value, answer.value.header)))
    ensures r.1.Success? ==> r.0 == obj.(content := r.0.content)
    ensures r.1.Failure? ==> r.0 == obj
  {
    var request := GetRecordArgs(cfg, obj.guid);
    assert request == map["identifier" := JString(obj.guid), "metadataPrefix" := cfg.mdFormat];
    FetchStage(obj, getRecord(request))
  }

  /** Every stored content carries the set-spec list, and a record's own
      fields survive the fetch as lists. */
  lemma FetchedContentShape(obj: HarvestObject, answer: Result<OaiRecord, string>, key: string)
    requires FetchStage(obj, answer).1.Success?
    ensures var c := FetchStage(obj, answer).0.content.value;
      && "set_spec" in c && c["set_spec"].Items?
      && ("metadata_modified" in c ==> c["metadata_modified"].Text? || "metadata_modified" in answer.value.metadata.value)
      && (key in answer.value.metadata.value && key != "set_spec" && key != "metadata_modified" ==>
            key in c && c[key] == Items(answer.value.metadata.value[key]))
  {
    var record := answer.value;
    var c := BuildContent(record.metadata.value, record.header);
    assert FetchStage(obj, answer).0.content.value == c;
  }
}
