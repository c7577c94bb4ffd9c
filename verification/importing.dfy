/** The dict-building part of `import_stage`: the package a harvest object's
    content turns into, and the stage's failure when anything along the way
    raises. The catalog's own services (name and tag munging, group
    find-or-create, the source dataset's owner organisation) are passed in
    as a `Catalog` value. */
module Importing {
  import opened Wrappers
  import opened Strings
  import opened Configuration
  import opened Records
  import opened Normalizer

  /** The catalog collaborators the import stage calls. */
  datatype Catalog = Catalog(
    mungeName: string -> string,
    mungeTag: string -> string,
    groupId: string -> string,
    ownerOrg: Option<string>)

  /** The package dict handed to the catalog. `fields` holds `id`, `name`
      and the attributes the mapping table filled. */
  datatype Package = Package(
    fields: map<string, string>,
    author: string,
    ownerOrg: Option<string>,
    licenseId: Option<Value>,
    formats: Value,
    resources: seq<Resource>,
    tags: seq<string>,
    extras: seq<(string, Option<string>)>,
    groups: seq<string>)

  /** Each step in the order the import stage runs them; the first failure
      fails the whole import. The resource candidates are computed before
      tags and extras, so the extras see the `identifier` list with the
      guid appended. `keys` is the order in which iterating over the content
      visits its keys. */
  function BuildPackage(d: Dialect, guid: string, c: Content, keys: seq<string>, cat: Catalog): (r: Result<Package, ImportError>)
    requires IterationOrder(keys, c)
    ensures r.Success? ==>
      && "id" in r.value.fields && "name" in r.value.fields
      && r.value.fields["id"] == r.value.fields["name"] == cat.mungeName(guid)
    ensures r.Success? ==> r.value.ownerOrg == cat.ownerOrg
    ensures r.Success? <==>
      && AuthorOf(d, c).Success? && LicenseOf(d, c).Success? && FormatsOf(d, c).Success?
      && PossibleResource(d, guid, c).Success?
      && var candidates := PossibleResource(d, guid, c).value;
         && ResourcesOf(d, candidates.0, candidates.1).Success?
         && GroupsOf(candidates.1, cat.groupId).Success?
  {
    var name := cat.mungeName(guid);
    MapFieldsSpec(d, c, name);
    var fields := MapFields(d, c, name);
    var author :- AuthorOf(d, c);
    var license :- LicenseOf(d, c);
    var formats :- FormatsOf(d, c);
    var candidates :- PossibleResource(d, guid, c);
    var updated := candidates.1;
    var resources :- ResourcesOf(d, candidates.0, updated);
    var split := TagsAndExtras(d, keys, updated, cat.mungeTag);
    var groups :- GroupsOf(updated, cat.groupId);
    Success(Package(fields, author, cat.ownerOrg, license, formats, resources, split.0, split.1, groups))
  }

  /** The import stage for one harvest object: an object without content (a
      failed or missing fetch) is rejected, and the configured prefix picks
      the dialect. */
  function ImportStage(cfg: SourceConfig, obj: HarvestObject, keys: seq<string>, cat: Catalog): (r: Result<Package, ImportError>)
    requires obj.content.Some? ==> IterationOrder(keys, obj.content.value)
    ensures obj.content.None? ==> r == Failure(NoContent)
    ensures obj.content.Some? ==> r == BuildPackage(DialectOf(cfg), obj.guid, obj.content.value, keys, cat)
    ensures r.Success? ==>
      && obj.content.Some?
      && "id" in r.value.fields && "name" in r.value.fields
      && r.value.fields["id"] == r.value.fields["name"] == cat.mungeName(obj.guid)
  {
    match obj.content
    case None => Failure(NoContent)
    case Some(c) => BuildPackage(DialectOf(cfg), obj.guid, c, keys, cat)
  }

  /** Which step produced which part of a built package. */
  lemma BuildPackageSteps(d: Dialect, guid: string, c: Content, keys: seq<string>, cat: Catalog)
    requires IterationOrder(keys, c)
    ensures BuildPackage(d, guid, c, keys, cat).Success? ==> PossibleResource(d, guid, c).Success?
    ensures BuildPackage(d, guid, c, keys, cat).Success? ==>
      var candidates := PossibleResource(d, guid, c).value;
      var p := BuildPackage(d, guid, c, keys, cat).value;
      && candidates.1.Keys == c.Keys
      && ResourcesOf(d, candidates.0, candidates.1).Success?
      && GroupsOf(candidates.1, cat.groupId).Success?
      && p.fields == MapFields(d, c, cat.mungeName(guid))
      && p.author == AuthorOf(d, c).value
      && p.licenseId == LicenseOf(d, c).value
      && p.formats == FormatsOf(d, c).value
      && p.resources == ResourcesOf(d, candidates.0, candidates.1).value
      && p.tags == TagsAndExtras(d, keys, candidates.1, cat.mungeTag).0
      && p.extras == TagsAndExtras(d, keys, candidates.1, cat.mungeTag).1
      && p.groups == GroupsOf(candidates.1, cat.groupId).value
  {
  }

  /** A fetch that fails on an object without content leaves it without
      content, and importing it afterwards is rejected. */
  lemma FailedFetchBlocksImport(cfg: SourceConfig, obj: HarvestObject, answer: Result<OaiRecord, string>, keys: seq<string>, cat: Catalog)
    requires obj.content.None?
    requires FetchStage(obj, answer).1.Failure?
    ensures ImportStage(cfg, FetchStage(obj, answer).0, keys, cat) == Failure(NoContent)
  {
  }

  /** DIF resources follow the related URLs one to one and in order, each
      with its positional description as name and its positional format as
      both format and resource type, the same formats the package lists. */
  lemma DifResourcesFollowUrls(guid: string, c: Content, keys: seq<string>, cat: Catalog)
    requires IterationOrder(keys, c)
    ensures BuildPackage(Dif, guid, c, keys, cat).Success? ==> "Related_URL/URL" in c
    ensures BuildPackage(Dif, guid, c, keys, cat).Success? ==>
      var p := BuildPackage(Dif, guid, c, keys, cat).value;
      var urls := Elems(c["Related_URL/URL"]);
      && p.formats.Items? && |p.formats.items| == |urls|
      && |p.resources| == |urls|
      && (|urls| > 0 ==> "Related_URL/Description" in c && |Elems(c["Related_URL/Description"])| >= |urls|)
      && forall i :: 0 <= i < |urls| ==>
           && p.resources[i].url == urls[i]
           && p.resources[i].name == Elems(c["Related_URL/Description"])[i]
           && p.resources[i].format == p.resources[i].resourceType == p.formats.items[i]
  {
    if BuildPackage(Dif, guid, c, keys, cat).Success? {
      BuildPackageSteps(Dif, guid, c, keys, cat);
      var candidates := PossibleResource(Dif, guid, c).value;
      assert candidates.1 == c;
      var resources := ResourcesOf(Dif, candidates.0, c);
      assert resources.Success?;
    }
  }

  /** A DIF record with related URLs but fewer descriptions than URLs (or
      none) fails to import. */
  lemma DifShortDescriptionsFail(guid: string, c: Content, keys: seq<string>, cat: Catalog)
    requires IterationOrder(keys, c)
    requires "Related_URL/URL" in c && |Elems(c["Related_URL/URL"])| > 0
    requires "Related_URL/Description" !in c ||
             |Elems(c["Related_URL/Description"])| < |Elems(c["Related_URL/URL"])|
    ensures BuildPackage(Dif, guid, c, keys, cat).Failure?
  {
    DifResourcesFollowUrls(guid, c, keys, cat);
  }

  /** The resource step of a non-DIF package that was built. */
  lemma NonDifResourceStep(guid: string, c: Content, keys: seq<string>, cat: Catalog)
    requires IterationOrder(keys, c)
    requires BuildPackage(OtherPrefix, guid, c, keys, cat).Success?
    ensures "identifier" in c && c["identifier"].Items?
    ensures var cands := c["identifier"].items + [guid];
      var p := BuildPackage(OtherPrefix, guid, c, keys, cat).value;
      && FirstHttp(cands) != []
      && |p.resources| == 1 && [p.resources[0].url] == FirstHttp(cands)
  {
    BuildPackageSteps(OtherPrefix, guid, c, keys, cat);
    NonDifResourceIsFirstHttp(guid, c);
  }

  /** A non-DIF record imports only when it has an `identifier` list and
      some identifier, or the guid appended after them, is an HTTP(S) URL;
      its single resource is the first such candidate. */
  lemma NonDifNeedsHttpCandidate(guid: string, c: Content, keys: seq<string>, cat: Catalog)
    requires IterationOrder(keys, c)
    ensures BuildPackage(OtherPrefix, guid, c, keys, cat).Success? ==>
      "identifier" in c && c["identifier"].Items?
    ensures BuildPackage(OtherPrefix, guid, c, keys, cat).Success? ==>
      var cands := c["identifier"].items + [guid];
      && (exists i :: 0 <= i < |cands| && IsHttp(cands[i]))
      && var p := BuildPackage(OtherPrefix, guid, c, keys, cat).value;
         |p.resources| == 1 && [p.resources[0].url] == FirstHttp(cands)
  {
    if BuildPackage(OtherPrefix, guid, c, keys, cat).Success? {
      NonDifResourceStep(guid, c, keys, cat);
    }
  }

  /** The `identifier` extra of a non-DIF record is taken after the guid has
      been appended to the identifier list: with no identifiers of its own,
      the extra is the guid. */
  lemma IdentifierExtraSeesGuid(guid: string, c: Content, keys: seq<string>, cat: Catalog)
    requires IterationOrder(keys, c)
    ensures BuildPackage(OtherPrefix, guid, c, keys, cat).Success? ==>
      "identifier" in c && c["identifier"].Items?
    ensures BuildPackage(OtherPrefix, guid, c, keys, cat).Success? ==>
      var p := BuildPackage(OtherPrefix, guid, c, keys, cat).value;
      var ids := c["identifier"].items;
      && ("identifier", ExtraValue(Items(ids + [guid]))) in p.extras
      && (ids == [] && guid != "" ==> ("identifier", Some(guid)) in p.extras)
  {
    if BuildPackage(OtherPrefix, guid, c, keys, cat).Success? {
      BuildPackageSteps(OtherPrefix, guid, c, keys, cat);
      assert "identifier" in c;
      IdentifierExtraAfterAppend(guid, c, keys, cat.mungeTag);
      var ids := c["identifier"].items;
      if ids == [] {
        assert ids + [guid] == [guid];
      }
    }
  }

  /** Package groups are the set-spec groups followed by the series
      groups, each resolved through the catalog. */
  lemma GroupsSetSpecFirst(d: Dialect, guid: string, c: Content, keys: seq<string>, cat: Catalog)
    requires IterationOrder(keys, c)
    ensures BuildPackage(d, guid, c, keys, cat).Success? ==> "set_spec" in c
    ensures BuildPackage(d, guid, c, keys, cat).Success? ==>
      BuildPackage(d, guid, c, keys, cat).value.groups
        == ResolveGroups(Elems(c["set_spec"]), cat.groupId) + ResolveGroups(SeriesNames(c), cat.groupId)
  {
    if BuildPackage(d, guid, c, keys, cat).Success? {
      BuildPackageSteps(d, guid, c, keys, cat);
      var updated := PossibleResource(d, guid, c).value.1;
      CandidatesKeepOtherFields(d, guid, c, "set_spec");
      CandidatesKeepOtherFields(d, guid, c, "series");
      assert SeriesNames(updated) == SeriesNames(c);
      GroupsOfSplit(updated, cat.groupId);
    }
  }
}
