/** The record normaliser of the import stage: the per-dialect field mapping
    table (`_get_mapping`) and the first-value mapping loop, author
    (`_extract_author`), license (`_extract_license_id`), formats
    (`_extract_formats`), resource candidates and resources
    (`_get_possible_resource`, `_extract_resources`), tags and extras
    (`_extract_tags_and_extras`) and groups (`_extract_groups`). Python's
    exceptions (a missing key, an index past the end of a list, `append` on
    a string, a non-ASCII text formatted into a byte string) become
    `Failure` values; the import stage turns every one of
    them into an import failure. */
module Normalizer {
  import opened Wrappers
  import opened Strings
  import opened Configuration
  import opened Records

  datatype ImportError =
    | NoContent
    | MissingKey(key: string)
    | IndexOutOfRange(field: string)
    | NotAList(field: string)
    | NotAscii(field: string)

  /** `content[key]`. */
  function Get(c: Content, key: string): (r: Result<Value, ImportError>)
    ensures r.Success? <==> key in c
    ensures r.Success? ==> r.value == c[key]
    ensures r.Failure? ==> r.error == MissingKey(key)
  {
    if key in c then Success(c[key]) else Failure(MissingKey(key))
  }

  /** `content[key][0]`. */
  function FirstOf(c: Content, key: string): (r: Result<string, ImportError>)
    ensures r.Success? <==> key in c && |Elems(c[key])| > 0
    ensures r.Success? ==> r.value == Elems(c[key])[0]
  {
    if key !in c then Failure(MissingKey(key))
    else if |Elems(c[key])| == 0 then Failure(IndexOutOfRange(key))
    else Success(Elems(c[key])[0])
  }

  // ---------------------------------------------------------------------
  // Field mapping table and the first-value mapping loop
  // ---------------------------------------------------------------------

  /** Targets of a mapping table (the package attributes it fills). */
  function Targets(table: seq<(string, string)>): set<string> {
    set i | 0 <= i < |table| :: table[i].0
  }

  /** Sources of a mapping table (the content fields it reads). */
  function Sources(table: seq<(string, string)>): set<string> {
    set i | 0 <= i < |table| :: table[i].1
  }

  predicate DistinctTargets(table: seq<(string, string)>) {
    forall i, j :: 0 <= i < j < |table| ==> table[i].0 != table[j].0
  }

  /** The per-dialect table of package attribute to content field. */
  function MappingTable(d: Dialect): (table: seq<(string, string)>)
    ensures DistinctTargets(table)
    ensures "id" !in Targets(table) && "name" !in Targets(table)
    ensures "maintainer_email" in Targets(table)
  {
    var table := match d
      case Dif => [
        ("title", "Entry-title"),
        ("notes", "Summary/Abstract"),
        ("maintainer_email", "Personnel/Email")]
      case OtherPrefix => [
        ("title", "title"),
        ("notes", "description"),
        ("maintainer", "publisher"),
        ("maintainer_email", "maintainer_email"),
        ("url", "source")];
    assert table[|table| - 2].0 == "maintainer_email" || table[|table| - 1].0 == "maintainer_email";
    table
  }

  /** The content fields the mapping consumes; they never become extras. */
  function SourceFields(d: Dialect): (s: set<string>)
    ensures d == Dif ==> s == {"Entry-title", "Summary/Abstract", "Personnel/Email"}
    ensures d == OtherPrefix ==> s == {"title", "description", "publisher", "maintainer_email", "source"}
  {
    var table := MappingTable(d);
    var s := Sources(table);
    assert forall i :: 0 <= i < |table| ==> table[i].1 in s;
    if d == Dif then
      assert forall x :: x in s ==> x == table[0].1 || x == table[1].1 || x == table[2].1;
      s
    else
      assert forall x :: x in s ==>
        x == table[0].1 || x == table[1].1 || x == table[2].1 || x == table[3].1 || x == table[4].1;
      s
  }

  /** The value one row of the table gives its target, if any: the first
      element of the source field, except that an e-mail address without an
      `@` is dropped. */
  function MappedValue(c: Content, target: string, source: string): Option<string> {
    if source in c && |Elems(c[source])| > 0 then
      var v := Elems(c[source])[0];
      if target == "maintainer_email" && '@' !in v then None else Some(v)
    else None
  }

  /** The mapping loop: each row of the table in turn either sets its
      target or leaves the package untouched. */
  function ApplyMapping(table: seq<(string, string)>, c: Content, fields: map<string, string>): (r: map<string, string>)
    requires DistinctTargets(table)
    ensures forall k :: k in fields && k !in Targets(table) ==> k in r && r[k] == fields[k]
    ensures forall k :: k in r && k !in Targets(table) ==> k in fields
    ensures forall i :: 0 <= i < |table| && MappedValue(c, table[i].0, table[i].1).Some? ==>
      table[i].0 in r && r[table[i].0] == MappedValue(c, table[i].0, table[i].1).value
    ensures forall i :: 0 <= i < |table| && MappedValue(c, table[i].0, table[i].1).None? ==>
      (table[i].0 in r <==> table[i].0 in fields) &&
      (table[i].0 in fields ==> r[table[i].0] == fields[table[i].0])
    decreases |table|
  {
    if |table| == 0 then fields
    else
      var t := table[0].0;
      var step := match MappedValue(c, t, table[0].1)
        case Some(v) => fields[t := v]
        case None => fields;
      var rest := table[1..];
      assert forall i :: 0 <= i < |rest| ==> rest[i] == table[i + 1];
      assert t !in Targets(rest);
      assert forall k :: k in Targets(rest) ==> k in Targets(table);
      ApplyMapping(rest, c, step)
  }

  /** The package attributes after the mapping loop, starting from the
      `id` and `name` derived from the guid. */
  function MapFields(d: Dialect, c: Content, name: string): map<string, string> {
    ApplyMapping(MappingTable(d), c, map["id" := name, "name" := name])
  }

  /** The mapping loop as promised: a target gets the first value of its
      source exactly when the source is present and non-empty and, for
      `maintainer_email`, that value has an `@`; otherwise the target is
      absent. `id` and `name` are untouched and nothing else appears. */
  lemma {:induction false} MapFieldsSpec(d: Dialect, c: Content, name: string)
    ensures var r := MapFields(d, c, name);
      && r.Keys <= Targets(MappingTable(d)) + {"id", "name"}
      && "id" in r && r["id"] == name && "name" in r && r["name"] == name
      && forall i :: 0 <= i < |MappingTable(d)| ==>
           var (t, s) := MappingTable(d)[i];
           && (t in r <==> s in c && |Elems(c[s])| > 0 && (t == "maintainer_email" ==> '@' in Elems(c[s])[0]))
           && (t in r ==> r[t] == Elems(c[s])[0])
  {
    var table := MappingTable(d);
    var base := map["id" := name, "name" := name];
    var r := ApplyMapping(table, c, base);
    forall i | 0 <= i < |table|
      ensures var (t, s) := table[i];
        && (t in r <==> s in c && |Elems(c[s])| > 0 && (t == "maintainer_email" ==> '@' in Elems(c[s])[0]))
        && (t in r ==> r[t] == Elems(c[s])[0])
    {
      assert table[i].0 in Targets(table);
      assert table[i].0 !in base;
    }
  }

  // ---------------------------------------------------------------------
  // Author and license
  // ---------------------------------------------------------------------

  /** A value counts as unavailable when its lower-cased form contains
      `not available`. */
  predicate IsSentinel(s: string) {
    Contains(ToLower(s), "not available")
  }

  const NotAvailable: string := "Not available"

  lemma NotAvailableIsSentinel()
    ensures IsSentinel(NotAvailable)
  {
    assert ToLower(NotAvailable) == "not available";
    assert MatchAt(ToLower(NotAvailable), "not available", 0);
  }

  /** `', '.join(content[key])` for a field known to be present. */
  function Joined(c: Content, key: string): string
    requires key in c
  {
    Join(Elems(c[key]), ", ")
  }

  function AuthorOf(d: Dialect, c: Content): (r: Result<string, ImportError>)
    ensures d == Dif ==> (r.Success? <==> "Creator" in c && "Publisher" in c)
    ensures d == Dif && "Creator" !in c ==> r == Failure(MissingKey("Creator"))
    ensures d == Dif && r.Success? ==>
      var creator := Joined(c, "Creator");
      var publisher := Joined(c, "Publisher");
      && (r.value == creator || r.value == publisher || r.value == NotAvailable)
      && (!IsSentinel(creator) ==> r.value == creator)
      && (IsSentinel(creator) && !IsSentinel(publisher) ==> r.value == publisher)
      && (IsSentinel(creator) && IsSentinel(publisher) ==> r.value == NotAvailable)
      && (IsSentinel(r.value) <==> IsSentinel(creator) && IsSentinel(publisher))
    ensures d == OtherPrefix ==> (r.Success? <==> "creator" in c)
    ensures d == OtherPrefix && r.Success? ==> r.value == Joined(c, "creator")
  {
    match d
    case Dif =>
      var _ :- Get(c, "Creator");
      var _ :- Get(c, "Publisher");
      var creatorText := Joined(c, "Creator");
      var publisherText := Joined(c, "Publisher");
      NotAvailableIsSentinel();
      if !IsSentinel(creatorText) then Success(creatorText)
      else if !IsSentinel(publisherText) then Success(publisherText)
      else Success(NotAvailable)
    case OtherPrefix =>
      var _ :- Get(c, "creator");
      Success(Joined(c, "creator"))
  }

  /** The combined license never reads as unavailable: the `", "` between
      the two constraints cannot complete a `not available`. */
  lemma CombinedLicenseNotSentinel(use: string, access: string)
    requires !IsSentinel(use) && !IsSentinel(access)
    ensures !IsSentinel(use + ", " + access)
  {
    if IsSentinel(use + ", " + access) {
      ToLowerConcat(use + ", ", access);
      ToLowerConcat(use, ", ");
      assert ToLower(", ") == ", ";
      assert ToLower(use + ", " + access) == ToLower(use) + ", " + ToLower(access);
      ContainsAcrossComma(ToLower(use), ToLower(access), "not available");
    }
  }

  /** The license: for DIF, both constraints when both are available, else
      the available one (use constraints first), else none; for any other
      prefix the raw `rights` value. The combined form is built by
      formatting the two texts into a byte-string template, which Python 2
      cannot do for a text with a non-ASCII character. */
  function LicenseOf(d: Dialect, c: Content): (r: Result<Option<Value>, ImportError>)
    ensures d == Dif ==>
      (r.Success? <==>
        && "Use-constraints" in c && "Access-constraints" in c
        && var use := Joined(c, "Use-constraints");
           var access := Joined(c, "Access-constraints");
           (!IsSentinel(use) && !IsSentinel(access) ==> IsAscii(use) && IsAscii(access)))
    ensures d == Dif && "Use-constraints" in c && "Access-constraints" in c && r.Failure? ==>
      r.error == NotAscii("license_id")
    ensures d == Dif && r.Success? ==>
      var use := Joined(c, "Use-constraints");
      var access := Joined(c, "Access-constraints");
      && (r.value.None? <==> IsSentinel(use) && IsSentinel(access))
      && (r.value.Some? ==> r.value.value.Text? && !IsSentinel(r.value.value.text))
      && (!IsSentinel(use) && !IsSentinel(access) ==> r.value == Some(Text(use + ", " + access)))
      && (!IsSentinel(use) && IsSentinel(access) ==> r.value == Some(Text(use)))
      && (IsSentinel(use) && !IsSentinel(access) ==> r.value == Some(Text(access)))
    ensures d == OtherPrefix ==> (r.Success? <==> "rights" in c)
    ensures d == OtherPrefix && r.Success? ==> r.value == Some(c["rights"])
  {
    match d
    case Dif =>
      var _ :- Get(c, "Use-constraints");
      var _ :- Get(c, "Access-constraints");
      var use := Joined(c, "Use-constraints");
      var access := Joined(c, "Access-constraints");
      if !IsSentinel(use) && !IsSentinel(access) then
        if !IsAscii(use) || !IsAscii(access) then Failure(NotAscii("license_id"))
        else
          CombinedLicenseNotSentinel(use, access);
          Success(Some(Text(use + ", " + access)))
      else if !IsSentinel(use) then Success(Some(Text(use)))
      else if !IsSentinel(access) then Success(Some(Text(access)))
      else Success(None)
    case OtherPrefix =>
      var rights :- Get(c, "rights");
      Success(Some(rights))
  }

  // ---------------------------------------------------------------------
  // Formats
  // ---------------------------------------------------------------------

  /** The format of one related URL, decided on its lower-cased form:
      `wms` first, then `dods`, then `catalog`, else `HTML`. */
  function Classify(url: string): (f: string)
    ensures f in {"wms", "opendap", "thredds", "HTML"}
    ensures f == "wms" <==> Contains(ToLower(url), "wms")
    ensures f == "opendap" <==> !Contains(ToLower(url), "wms") && Contains(ToLower(url), "dods")
    ensures f == "thredds" <==>
      !Contains(ToLower(url), "wms") && !Contains(ToLower(url), "dods") && Contains(ToLower(url), "catalog")
  {
    var lower := ToLower(url);
    if Contains(lower, "wms") then "wms"
    else if Contains(lower, "dods") then "opendap"
    else if Contains(lower, "catalog") then "thredds"
    else "HTML"
  }

  /** One format per URL, in the URLs' order. */
  function ClassifyAll(urls: seq<string>): (fs: seq<string>)
    ensures |fs| == |urls|
    ensures forall i :: 0 <= i < |urls| ==> fs[i] == Classify(urls[i])
  {
    if |urls| == 0 then [] else [Classify(urls[0])] + ClassifyAll(urls[1..])
  }

  function FormatsOf(d: Dialect, c: Content): (r: Result<Value, ImportError>)
    ensures d == Dif ==> (r.Success? <==> "Related_URL/URL" in c)
    ensures d == Dif && r.Success? ==>
      var urls := Elems(c["Related_URL/URL"]);
      && r.value.Items? && |r.value.items| == |urls|
      && forall i :: 0 <= i < |urls| ==> r.value.items[i] == Classify(urls[i])
    ensures d == OtherPrefix ==> (r.Success? <==> "format" in c)
    ensures d == OtherPrefix && r.Success? ==> r.value == c["format"]
  {
    match d
    case Dif =>
      var urls :- Get(c, "Related_URL/URL");
      Success(Items(ClassifyAll(Elems(urls))))
    case OtherPrefix => Get(c, "format")
  }

  // ---------------------------------------------------------------------
  // Resource candidates and resources
  // ---------------------------------------------------------------------

  datatype Resource = Resource(name: string, resourceType: string, format: string, url: string)

  predicate IsHttp(s: string) {
    StartsWith(s, "http://") || StartsWith(s, "https://")
  }

  /** The first candidate with an HTTP(S) scheme, as a list of at most one
      element. */
  function FirstHttp(cands: seq<string>): (r: seq<string>)
    ensures |r| <= 1
    ensures r == [] <==> forall i :: 0 <= i < |cands| ==> !IsHttp(cands[i])
    ensures r != [] ==> exists i :: 0 <= i < |cands| && cands[i] == r[0] && IsHttp(r[0]) &&
                                   (forall j :: 0 <= j < i ==> !IsHttp(cands[j]))
  {
    if |cands| == 0 then []
    else if IsHttp(cands[0]) then [cands[0]]
    else
      var r := FirstHttp(cands[1..]);
      assert forall i :: 0 <= i < |cands| - 1 ==> cands[1..][i] == cands[i + 1];
      if r == [] then r
      else
        var i :| 0 <= i < |cands| - 1 && cands[1..][i] == r[0] && IsHttp(r[0]) &&
          forall j :: 0 <= j < i ==> !IsHttp(cands[1..][j]);
        assert cands[i + 1] == r[0];
        r
  }

  /** The resource URL candidates, paired with the content as it stands
      afterwards. For DIF: the related URLs (empty when there are none).
      Otherwise the guid is appended to the `identifier` list, which is
      changed in the content itself, and the first HTTP(S) candidate is
      taken. */
  function PossibleResource(d: Dialect, guid: string, c: Content): (r: Result<(seq<string>, Content), ImportError>)
    ensures r.Success? ==> r.value.1.Keys == c.Keys
    ensures d == Dif ==> (r.Success? <==> "Related_URL/URL" in c)
    ensures d == Dif && r.Success? ==> r.value == (Elems(c["Related_URL/URL"]), c)
    ensures d == OtherPrefix ==> (r.Success? <==> "identifier" in c && c["identifier"].Items?)
    ensures d == OtherPrefix && r.Success? ==>
      var cands := c["identifier"].items + [guid];
      && r.value.0 == FirstHttp(cands)
      && r.value.1 == c["identifier" := Items(cands)]
  {
    match d
    case Dif =>
      var urls :- Get(c, "Related_URL/URL");
      Success((Elems(urls), c))
    case OtherPrefix =>
      var ids :- Get(c, "identifier");
      if ids.Text? then Failure(NotAList("identifier"))
      else
        var cands := ids.items + [guid];
        Success((FirstHttp(cands), c["identifier" := Items(cands)]))
  }

  /** DIF resources, built positionally from the URLs, the descriptions and
      the formats; a description or format list shorter than the URL list
      is an index error. */
  function DifResources(urls: seq<string>, names: seq<string>, formats: seq<string>): (r: Result<seq<Resource>, ImportError>)
    ensures r.Success? <==> |names| >= |urls| && |formats| >= |urls|
    ensures r.Success? ==> |r.value| == |urls|
    ensures r.Success? ==>
      forall i :: 0 <= i < |urls| ==> r.value[i] == Resource(names[i], formats[i], formats[i], urls[i])
  {
    if |urls| == 0 then Success([])
    else if |names| == 0 then Failure(IndexOutOfRange("Related_URL/Description"))
    else if |formats| == 0 then Failure(IndexOutOfRange("resource_formats"))
    else
      var rest :- DifResources(urls[1..], names[1..], formats[1..]);
      Success([Resource(names[0], formats[0], formats[0], urls[0])] + rest)
  }

  /** The non-DIF format fallback when the record has no `format` value;
      the test is case-sensitive. */
  function FallbackFormat(url: string): string {
    if Contains(url, "thredds") then "thredds" else "HTML"
  }

  function ResourcesOf(d: Dialect, urls: seq<string>, c: Content): (r: Result<seq<Resource>, ImportError>)
    ensures d == Dif && |urls| == 0 ==> r == Success([])
    ensures d == Dif && |urls| > 0 ==>
      (r.Success? <==>
        && "Related_URL/URL" in c && "Related_URL/Description" in c
        && |Elems(c["Related_URL/Description"])| >= |urls|
        && |Elems(c["Related_URL/URL"])| >= |urls|)
    ensures d == Dif && r.Success? && |urls| > 0 ==>
      && |r.value| == |urls|
      && forall i :: 0 <= i < |urls| ==>
           && r.value[i].url == urls[i]
           && r.value[i].name == Elems(c["Related_URL/Description"])[i]
           && r.value[i].format == r.value[i].resourceType == Classify(Elems(c["Related_URL/URL"])[i])
    ensures d == OtherPrefix ==>
      (r.Success? <==> |urls| > 0 && (urls[0] == "" || ("title" in c && |Elems(c["title"])| > 0)))
    ensures d == OtherPrefix && r.Success? ==>
      if urls[0] == "" then r.value == []
      else
        && |r.value| == 1
        && r.value[0].url == urls[0]
        && r.value[0].name == Elems(c["title"])[0]
        && r.value[0].format == r.value[0].resourceType
        && r.value[0].format == (if "format" in c && |Elems(c["format"])| > 0
                                 then Elems(c["format"])[0] else FallbackFormat(urls[0]))
  {
    match d
    case Dif =>
      if |urls| == 0 then Success([])
      else
        // A missing URL field leaves the formats unbound, which the first
        // loop iteration then trips over.
        var formats :- FormatsOf(Dif, c);
        var descriptions :- Get(c, "Related_URL/Description");
        DifResources(urls, Elems(descriptions), formats.items)
    case OtherPrefix =>
      if |urls| == 0 then Failure(IndexOutOfRange("urls"))
      else if urls[0] == "" then Success([])
      else
        var url := urls[0];
        var format := if "format" in c && |Elems(c["format"])| > 0 then Elems(c["format"])[0] else FallbackFormat(url);
        var title :- FirstOf(c, "title");
        Success([Resource(title, format, format, url)])
  }

  /** A non-DIF record's resources, when they can be built, are the single
      first HTTP(S) candidate. */
  lemma NonDifResourceIsFirstHttp(guid: string, c: Content)
    requires PossibleResource(OtherPrefix, guid, c).Success?
    requires var candidates := PossibleResource(OtherPrefix, guid, c).value;
      ResourcesOf(OtherPrefix, candidates.0, candidates.1).Success?
    ensures "identifier" in c && c["identifier"].Items?
    ensures var candidates := PossibleResource(OtherPrefix, guid, c).value;
      var cands := c["identifier"].items + [guid];
      var resources := ResourcesOf(OtherPrefix, candidates.0, candidates.1).value;
      && FirstHttp(cands) != []
      && |resources| == 1 && [resources[0].url] == FirstHttp(cands)
  {
    var candidates := PossibleResource(OtherPrefix, guid, c).value;
    var cands := c["identifier"].items + [guid];
    assert candidates.0 == FirstHttp(cands);
    assert |candidates.0| > 0;
    assert IsHttp(candidates.0[0]);
  }

  // ---------------------------------------------------------------------
  // Tags and extras
  // ---------------------------------------------------------------------

  /** A key whose value feeds the tags. */
  predicate TagKey(k: string, sources: set<string>) {
    k !in sources && (k == "type" || k == "subject")
  }

  /** A key that becomes one extra. */
  predicate ExtraKey(k: string, sources: set<string>) {
    k !in sources && k != "type" && k != "subject"
  }

  /** The tag strings one value contributes: a list as it is, a string split
      on `;`. */
  function TagItems(v: Value): seq<string> {
    match v
    case Items(l) => l
    case Text(s) => Split(s, ';')
  }

  /** The value of an extra: the first list element, or the string itself;
      `None` when that is empty or the list has no element. */
  function ExtraValue(v: Value): (r: Option<string>)
    ensures r.Some? ==> r.value != ""
  {
    match v
    case Items(l) => if |l| > 0 && l[0] != "" then Some(l[0]) else None
    case Text(s) => if s != "" then Some(s) else None
  }

  /** The lists of a list, concatenated in order. */
  function Flatten(parts: seq<seq<string>>): seq<string> {
    if |parts| == 0 then [] else parts[0] + Flatten(parts[1..])
  }

  /** The tag strings each key contributes, position by position: the key's
      tag items when it is a tag key, nothing otherwise. */
  function TagParts(sources: set<string>, keys: seq<string>, c: Content): (parts: seq<seq<string>>)
    requires forall i :: 0 <= i < |keys| ==> keys[i] in c
  {
    seq(|keys|, i requires 0 <= i < |keys| => if TagKey(keys[i], sources) then TagItems(c[keys[i]]) else [])
  }

  /** One pass over the content's keys in iteration order: mapping sources
      are skipped, `type` and `subject` contribute tag strings, every other
      key one extra. */
  function Partition(sources: set<string>, keys: seq<string>, c: Content): (r: (seq<string>, seq<(string, Option<string>)>))
    requires forall i :: 0 <= i < |keys| ==> keys[i] in c
    ensures |r.1| <= |keys|
    ensures forall j :: 0 <= j < |r.1| ==>
      r.1[j].0 in keys && ExtraKey(r.1[j].0, sources) && r.1[j].1 == ExtraValue(c[r.1[j].0])
    ensures forall i :: 0 <= i < |keys| && ExtraKey(keys[i], sources) ==>
      (keys[i], ExtraValue(c[keys[i]])) in r.1
    ensures r.0 == Flatten(TagParts(sources, keys, c))
    ensures forall t :: t in r.0 <==>
      exists i :: 0 <= i < |keys| && TagKey(keys[i], sources) && t in TagItems(c[keys[i]])
  {
    if |keys| == 0 then ([], [])
    else
      var k := keys[0];
      var rest := Partition(sources, keys[1..], c);
      assert forall i :: 0 <= i < |keys| - 1 ==> keys[1..][i] == keys[i + 1];
      assert forall x :: x in keys[1..] ==> x in keys;
      assert TagParts(sources, keys, c)[1..] == TagParts(sources, keys[1..], c);
      if k in sources then rest
      else if k == "type" || k == "subject" then (TagItems(c[k]) + rest.0, rest.1)
      else (rest.0, [(k, ExtraValue(c[k]))] + rest.1)
  }

  /** How many extras carry key `k`. */
  function CountKey(extras: seq<(string, Option<string>)>, k: string): nat {
    if |extras| == 0 then 0
    else (if extras[0].0 == k then 1 else 0) + CountKey(extras[1..], k)
  }

  predicate Distinct(keys: seq<string>) {
    forall i, j :: 0 <= i < j < |keys| ==> keys[i] != keys[j]
  }

  /** `keys` is an order in which iterating over `c` visits its keys: each
      key of `c` exactly once and nothing else. */
  predicate IterationOrder(keys: seq<string>, c: Content) {
    && Distinct(keys)
    && (forall i :: 0 <= i < |keys| ==> keys[i] in c)
    && (forall k :: k in c ==> k in keys)
  }

  /** With each key visited once, every extra key yields exactly one extra
      and no other key yields any. */
  lemma {:induction false} ExtrasCountOne(sources: set<string>, keys: seq<string>, c: Content, k: string)
    requires forall i :: 0 <= i < |keys| ==> keys[i] in c
    requires Distinct(keys)
    ensures CountKey(Partition(sources, keys, c).1, k) == (if k in keys && ExtraKey(k, sources) then 1 else 0)
  {
    if |keys| > 0 {
      var tail := keys[1..];
      assert forall i, j :: 0 <= i < j < |tail| ==> tail[i] == keys[i + 1] && tail[j] == keys[j + 1];
      ExtrasCountOne(sources, tail, c, k);
      assert keys[0] !in tail by {
        forall i | 0 <= i < |tail| ensures tail[i] != keys[0] {
          assert tail[i] == keys[i + 1];
        }
      }
      assert k in keys <==> k == keys[0] || k in tail;
      var rest := Partition(sources, tail, c);
      if keys[0] !in sources && keys[0] != "type" && keys[0] != "subject" {
        var extras := [(keys[0], ExtraValue(c[keys[0]]))] + rest.1;
        assert extras[1..] == rest.1;
      }
    }
  }

  /** Tags are the tag strings, each cut to 100 characters and then passed
      to the tag munger. */
  function MungeTags(raw: seq<string>, mungeTag: string -> string): (tags: seq<string>)
    ensures |tags| == |raw|
    ensures forall i :: 0 <= i < |raw| ==> tags[i] == mungeTag(Truncate(raw[i], 100))
  {
    if |raw| == 0 then [] else [mungeTag(Truncate(raw[0], 100))] + MungeTags(raw[1..], mungeTag)
  }

  function TagsAndExtras(d: Dialect, keys: seq<string>, c: Content, mungeTag: string -> string): (r: (seq<string>, seq<(string, Option<string>)>))
    requires forall i :: 0 <= i < |keys| ==> keys[i] in c
  {
    var p := Partition(SourceFields(d), keys, c);
    (MungeTags(p.0, mungeTag), p.1)
  }

  /** The tag/extras split as promised: mapping sources appear in neither
      output; the tags are the `type`/`subject` elements of every key in
      iteration order, duplicates kept, each truncated and munged; every
      other key of the content gives exactly one extra holding its first
      value. */
  lemma {:induction false} TagsAndExtrasSpec(d: Dialect, keys: seq<string>, c: Content, mungeTag: string -> string, k: string)
    requires IterationOrder(keys, c)
    ensures var (tags, extras) := TagsAndExtras(d, keys, c, mungeTag);
      var raw := Flatten(TagParts(SourceFields(d), keys, c));
      && (forall j :: 0 <= j < |extras| ==> extras[j].0 !in SourceFields(d) && extras[j].0 != "type" && extras[j].0 != "subject")
      && (k in c && ExtraKey(k, SourceFields(d)) ==> (k, ExtraValue(c[k])) in extras)
      && CountKey(extras, k) == (if k in c && ExtraKey(k, SourceFields(d)) then 1 else 0)
      && |tags| == |raw|
      && (forall i :: 0 <= i < |raw| ==> tags[i] == mungeTag(Truncate(raw[i], 100)))
      && (forall t :: t in tags <==> exists i :: 0 <= i < |raw| && t == mungeTag(Truncate(raw[i], 100)))
  {
    var p := Partition(SourceFields(d), keys, c);
    ExtrasCountOne(SourceFields(d), keys, c, k);
    assert k in c <==> k in keys;
    var tags := MungeTags(p.0, mungeTag);
    forall t | t in tags ensures exists i :: 0 <= i < |p.0| && t == mungeTag(Truncate(p.0[i], 100)) {
      var i :| 0 <= i < |tags| && tags[i] == t;
    }
  }

  // ---------------------------------------------------------------------
  // Groups
  // ---------------------------------------------------------------------

  /** Group ids for a list of group names, through the catalog's
      find-or-create. */
  function ResolveGroups(names: seq<string>, groupId: string -> string): (ids: seq<string>)
    ensures |ids| == |names|
    ensures forall i :: 0 <= i < |names| ==> ids[i] == groupId(names[i])
  {
    if |names| == 0 then [] else [groupId(names[0])] + ResolveGroups(names[1..], groupId)
  }

  /** The `series` names, or none when the field is absent or empty. */
  function SeriesNames(c: Content): seq<string> {
    if "series" in c && |Elems(c["series"])| > 0 then Elems(c["series"]) else []
  }

  /** The package groups: the set-spec groups first, then the series
      groups. */
  function GroupsOf(c: Content, groupId: string -> string): (r: Result<seq<string>, ImportError>)
    ensures r.Success? <==> "set_spec" in c
    ensures r.Success? ==>
      var sets := Elems(c["set_spec"]);
      var series := SeriesNames(c);
      && |r.value| == |sets| + |series|
      && (forall i :: 0 <= i < |sets| ==> r.value[i] == groupId(sets[i]))
      && (forall i :: 0 <= i < |series| ==> r.value[|sets| + i] == groupId(series[i]))
  {
    var setSpec :- Get(c, "set_spec");
    var setGroups := if |Elems(setSpec)| > 0 then ResolveGroups(Elems(setSpec), groupId) else [];
    Success(setGroups + ResolveGroups(SeriesNames(c), groupId))
  }

  /** The groups as one list: set-spec groups, then series groups. */
  lemma GroupsOfSplit(c: Content, groupId: string -> string)
    requires "set_spec" in c
    ensures GroupsOf(c, groupId)
         == Success(ResolveGroups(Elems(c["set_spec"]), groupId) + ResolveGroups(SeriesNames(c), groupId))
  {
    var groups := GroupsOf(c, groupId).value;
    var expected := ResolveGroups(Elems(c["set_spec"]), groupId) + ResolveGroups(SeriesNames(c), groupId);
    assert |groups| == |expected|;
    assert forall i :: 0 <= i < |groups| ==> groups[i] == expected[i];
  }

  /** For a non-DIF record, the extras are computed on the content whose
      identifier list has the guid appended. */
  lemma IdentifierExtraAfterAppend(guid: string, c: Content, keys: seq<string>, mungeTag: string -> string)
    requires forall i :: 0 <= i < |keys| ==> keys[i] in c
    requires "identifier" in keys
    requires PossibleResource(OtherPrefix, guid, c).Success?
    ensures "identifier" in c && c["identifier"].Items?
    ensures var updated := PossibleResource(OtherPrefix, guid, c).value.1;
      && (forall i :: 0 <= i < |keys| ==> keys[i] in updated)
      && ("identifier", ExtraValue(Items(c["identifier"].items + [guid]))) in TagsAndExtras(OtherPrefix, keys, updated, mungeTag).1
  {
    var updated := PossibleResource(OtherPrefix, guid, c).value.1;
    assert updated["identifier"] == Items(c["identifier"].items + [guid]);
    var sources := SourceFields(OtherPrefix);
    assert ExtraKey("identifier", sources);
    var i :| 0 <= i < |keys| && keys[i] == "identifier";
    var p := Partition(sources, keys, updated);
    assert (keys[i], ExtraValue(updated[keys[i]])) in p.1;
  }

  /** Computing the resource candidates changes no field but `identifier`. */
  lemma CandidatesKeepOtherFields(d: Dialect, guid: string, c: Content, k: string)
    requires PossibleResource(d, guid, c).Success?
    requires k != "identifier"
    ensures var updated := PossibleResource(d, guid, c).value.1;
      (k in updated <==> k in c) && (k in c ==> updated[k] == c[k])
  {
  }
}
