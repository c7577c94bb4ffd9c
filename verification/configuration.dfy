/** The harvest source configuration (`_set_config`), the dialect it selects,
    the metadata-reader registry (`_create_metadata_registry`) and the
    keyword arguments handed to the OAI-PMH client for ListIdentifiers
    (`_identifier_generator`) and GetRecord. The configuration arrives here
    already decoded from JSON. */
module Configuration {
  import opened Wrappers

  /** A decoded JSON scalar, as a configuration value can hold it. */
  datatype Json = JNull | JBool(b: bool) | JInt(n: int) | JString(s: string)

  /** Python truthiness of a decoded JSON scalar. */
  predicate Truthy(v: Json) {
    match v
    case JNull => false
    case JBool(b) => b
    case JInt(n) => n != 0
    case JString(s) => |s| > 0
  }

  /** The source's raw configuration: `Unset` is a `None` or empty string,
      which the harvester replaces by `'{}'`; `Decoded` is a JSON object. */
  datatype RawConfig = Unset | Decoded(fields: map<string, Json>)

  /** The settings `_set_config` stores on the harvester. */
  datatype SourceConfig = SourceConfig(
    credentials: Option<(Json, Json)>,
    user: string,
    setSpec: Json,
    mdFormat: Json,
    forceHttpGet: Json)

  const HarvestUser: string := "harvest"
  const DefaultPrefix: string := "dif"

  /** The configuration keys `_set_config` reads. */
  const ConfigKeys: set<string> := {"username", "password", "set", "metadata_prefix", "force_http_get"}

  /** Python's `config_json.get(key, default)`. */
  function GetOr(raw: RawConfig, key: string, default: Json): Json {
    if raw.Decoded? && key in raw.fields then raw.fields[key] else default
  }

  function ParseConfig(raw: RawConfig): (c: SourceConfig)
    ensures c.credentials.Some? <==> raw.Decoded? && "username" in raw.fields && "password" in raw.fields
    ensures c.credentials.Some? ==> c.credentials.value == (raw.fields["username"], raw.fields["password"])
    ensures c.user == HarvestUser
    ensures raw.Decoded? && "set" in raw.fields ==> c.setSpec == raw.fields["set"]
    ensures !(raw.Decoded? && "set" in raw.fields) ==> c.setSpec == JNull
    ensures raw.Decoded? && "metadata_prefix" in raw.fields ==> c.mdFormat == raw.fields["metadata_prefix"]
    ensures !(raw.Decoded? && "metadata_prefix" in raw.fields) ==> c.mdFormat == JString(DefaultPrefix)
    ensures raw.Decoded? && "force_http_get" in raw.fields ==> c.forceHttpGet == raw.fields["force_http_get"]
    ensures !(raw.Decoded? && "force_http_get" in raw.fields) ==> c.forceHttpGet == JBool(false)
  {
    var credentials :=
      if raw.Decoded? && "username" in raw.fields && "password" in raw.fields
      then Some((raw.fields["username"], raw.fields["password"]))
      else None;
    SourceConfig(
      credentials,
      HarvestUser,
      GetOr(raw, "set", JNull),
      GetOr(raw, "metadata_prefix", JString(DefaultPrefix)),
      GetOr(raw, "force_http_get", JBool(false)))
  }

  /** The configuration every source without settings gets. */
  const Defaults: SourceConfig :=
    SourceConfig(None, HarvestUser, JNull, JString(DefaultPrefix), JBool(false))

  /** A missing or empty configuration and an empty JSON object both give
      exactly the defaults: no credentials, no set-spec, the `dif` prefix and
      HTTP POST. */
  lemma EmptyConfigGivesDefaults()
    ensures ParseConfig(Unset) == Defaults
    ensures ParseConfig(Decoded(map[])) == Defaults
    ensures !Truthy(Defaults.setSpec) && !Truthy(Defaults.forceHttpGet)
  {
  }

  /** Keys other than the five `_set_config` reads have no effect. */
  lemma OnlyConfigKeysMatter(fields: map<string, Json>)
    ensures ParseConfig(Decoded(fields))
         == ParseConfig(Decoded(map k | k in fields && k in ConfigKeys :: fields[k]))
  {
  }

  /** Dialect dispatch: the normaliser compares the metadata prefix with
      `'dif'`; every other prefix takes the generic branch. */
  datatype Dialect = Dif | OtherPrefix

  function DialectOf(c: SourceConfig): (d: Dialect)
    ensures d == Dif <==> c.mdFormat == JString(DefaultPrefix)
  {
    if c.mdFormat == JString(DefaultPrefix) then Dif else OtherPrefix
  }

  /** The metadata readers the harvester registers with the OAI-PMH client.
      The `dif` prefix is served by the second DIF reader. */
  datatype Reader = OaiDcReader | OaiDdiReader | DifReader2

  function ReaderFor(prefix: string): (r: Option<Reader>)
    ensures r.Some? <==> prefix in {"oai_dc", "oai_ddi", "dif"}
    ensures r == Some(DifReader2) <==> prefix == DefaultPrefix
    ensures r == Some(OaiDcReader) <==> prefix == "oai_dc"
    ensures r == Some(OaiDdiReader) <==> prefix == "oai_ddi"
  {
    if prefix == "oai_dc" then Some(OaiDcReader)
    else if prefix == "oai_ddi" then Some(OaiDdiReader)
    else if prefix == "dif" then Some(DifReader2)
    else None
  }

  /** The default configuration selects the DIF dialect, for which a reader
      is registered. */
  lemma DefaultPrefixIsRegistered()
    ensures DialectOf(ParseConfig(Unset)) == Dif
    ensures ParseConfig(Unset).mdFormat == JString(DefaultPrefix)
    ensures ReaderFor(DefaultPrefix) == Some(DifReader2)
  {
  }

  /** Keyword arguments of the ListIdentifiers call. */
  function ListIdentifiersArgs(c: SourceConfig): (args: map<string, Json>)
    ensures "metadataPrefix" in args && args["metadataPrefix"] == c.mdFormat
    ensures "set" in args <==> Truthy(c.setSpec)
    ensures "set" in args ==> args["set"] == c.setSpec
    ensures args.Keys <= {"metadataPrefix", "set"}
  {
    if Truthy(c.setSpec)
    then map["metadataPrefix" := c.mdFormat, "set" := c.setSpec]
    else map["metadataPrefix" := c.mdFormat]
  }

  /** A source whose configuration has no `set` key, a null one or an empty
      string produces a ListIdentifiers request with no `set` argument at
      all; a non-empty set-spec string is passed through unchanged. */
  lemma {:induction false} SetArgumentOnlyWhenConfigured(raw: RawConfig)
    ensures var args := ListIdentifiersArgs(ParseConfig(raw));
      && (GetOr(raw, "set", JNull) in {JNull, JString("")} ==> "set" !in args)
      && (forall s :: GetOr(raw, "set", JNull) == JString(s) && s != "" ==>
            "set" in args && args["set"] == JString(s))
      && args["metadataPrefix"] == GetOr(raw, "metadata_prefix", JString(DefaultPrefix))
  {
  }

  /** Keyword arguments of the GetRecord call for one harvest object. */
  function GetRecordArgs(c: SourceConfig, guid: string): (args: map<string, Json>)
    ensures args.Keys == {"identifier", "metadataPrefix"}
    ensures args["identifier"] == JString(guid) && args["metadataPrefix"] == c.mdFormat
  {
    map["identifier" := JString(guid), "metadataPrefix" := c.mdFormat]
  }

  /** The gather stage lists identifiers and the fetch stage asks for each
      record in one and the same metadata prefix, and that prefix is the one
      the import stage reads the dialect from: a record is fetched as DIF
      exactly when it is imported as DIF. */
  lemma {:induction false} RequestsShareThePrefix(raw: RawConfig, guid: string)
    ensures var cfg := ParseConfig(raw);
      var listed := ListIdentifiersArgs(cfg);
      var fetched := GetRecordArgs(cfg, guid);
      && fetched["metadataPrefix"] == listed["metadataPrefix"] == GetOr(raw, "metadata_prefix", JString(DefaultPrefix))
      && (fetched["metadataPrefix"] == JString(DefaultPrefix) <==> DialectOf(cfg) == Dif)
      && fetched["identifier"] == JString(guid)
  {
  }
}
