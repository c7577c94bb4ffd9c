/** Concrete records and the results the model proves for them, one per
    behaviour of the harvester. */
module Scenarios {
  import opened Wrappers
  import opened Strings
  import opened Configuration
  import opened Records
  import opened Normalizer
  import opened Importing

  /** A Dublin Core record's author is its joined creators. */
  lemma DublinCoreAuthor()
    ensures AuthorOf(OtherPrefix, map["creator" := Items(["Jane Doe"])]) == Success("Jane Doe")
  {
  }

  /** With unavailable use constraints, the DIF license is the access
      constraints alone. */
  lemma DifLicenseFallsBackToAccess()
    ensures LicenseOf(Dif, map["Use-constraints" := Items(["Not available"]),
                               "Access-constraints" := Items(["CC-BY"])])
         == Success(Some(Text("CC-BY")))
  {
    NotAvailableIsSentinel();
    assert ToLower("CC-BY") == "cc-by";
    assert !IsSentinel("CC-BY");
  }

  /** Two available constraints with a non-ASCII character cannot be
      formatted into the byte-string license template, so the import
      fails. */
  lemma NonAsciiLicenseFails()
    ensures LicenseOf(Dif, map["Use-constraints" := Items(["Fri bruk"]),
                               "Access-constraints" := Items(["\U{C5}pen"])])
         == Failure(NotAscii("license_id"))
  {
    var access := "\U{C5}pen";
    assert Join(["Fri bruk"], ", ") == "Fri bruk";
    assert Join([access], ", ") == access;
    assert !IsSentinel("Fri bruk");
    assert !IsSentinel(access);
    assert access[0] as int == 0xC5;
  }

  /** A repeated subject gives a repeated tag. */
  lemma RepeatedSubjectKept(mungeTag: string -> string)
    ensures TagsAndExtras(OtherPrefix, ["subject"], map["subject" := Items(["ocean", "ocean"])], mungeTag).0
         == [mungeTag("ocean"), mungeTag("ocean")]
  {
    var c := map["subject" := Items(["ocean", "ocean"])];
    var raw := Partition(SourceFields(OtherPrefix), ["subject"], c).0;
    assert TagParts(SourceFields(OtherPrefix), ["subject"], c) == [["ocean", "ocean"]];
    assert raw == ["ocean", "ocean"];
    assert Truncate("ocean", 100) == "ocean";
  }

  /** A maintainer e-mail without `@` leaves the attribute out entirely. */
  lemma InvalidEmailOmitted(name: string)
    ensures "maintainer_email" !in MapFields(OtherPrefix, map["maintainer_email" := Items(["not-an-email"])], name)
  {
    var c := map["maintainer_email" := Items(["not-an-email"])];
    MapFieldsSpec(OtherPrefix, c, name);
    assert MappingTable(OtherPrefix)[3] == ("maintainer_email", "maintainer_email");
  }

  /** A URL mentioning WMS in any case is a WMS resource. */
  lemma WmsUrlFormat()
    ensures Classify("http://x/WMS?request=GetMap") == "wms"
  {
    var url := "http://x/WMS?request=GetMap";
    assert ToLower(url)[9..12] == "wms";
    assert MatchAt(ToLower(url), "wms", 9);
  }

  /** A catalog page with no WMS or DODS marker is a THREDDS catalog. */
  lemma CatalogUrlFormat()
    ensures Classify("http://x/catalog.html") == "thredds"
  {
    var url := "http://x/catalog.html";
    assert ToLower(url) == url;
    AbsentFirstChar(url, "wms");
    AbsentFirstChar(url, "dods");
    assert url[9..16] == "catalog";
    assert MatchAt(url, "catalog", 9);
  }

  /** Formats come out one per URL, in the URLs' order. */
  lemma RelatedUrlFormats()
    ensures ClassifyAll(["http://x/WMS?request=GetMap", "http://x/catalog.html"]) == ["wms", "thredds"]
  {
    WmsUrlFormat();
    CatalogUrlFormat();
  }

  /** A source configured with a prefix but no set lists identifiers with
      the prefix alone. */
  lemma NoSetNoSetArgument()
    ensures ListIdentifiersArgs(ParseConfig(Decoded(map["metadata_prefix" := JString("oai_dc")])))
         == map["metadataPrefix" := JString("oai_dc")]
  {
  }

  /** A `;`-separated string subject becomes several tag strings. */
  lemma SemicolonSubjectSplits()
    ensures TagItems(Text("ocean;ice")) == ["ocean", "ice"]
  {
    SplitJoin(["ocean", "ice"], ';');
    assert Join(["ocean", "ice"], [';']) == "ocean;ice";
  }

  /** A Dublin Core record with a creator, rights, a format, an HTTP
      identifier, a title and a set-spec imports, with the identifier as its
      one resource. */
  lemma DublinCoreRecordImports(cat: Catalog)
    ensures var c := map["creator" := Items(["Jane Doe"]), "rights" := Items(["CC-BY"]),
                         "format" := Items(["HTML"]), "identifier" := Items(["http://x/1"]),
                         "title" := Items(["Sea ice"]), "set_spec" := Items([])];
      var keys := ["creator", "rights", "format", "identifier", "title", "set_spec"];
      var r := BuildPackage(OtherPrefix, "oai:x:1", c, keys, cat);
      r.Success? && |r.value.resources| == 1 && r.value.resources[0].url == "http://x/1"
  {
    var c := map["creator" := Items(["Jane Doe"]), "rights" := Items(["CC-BY"]),
                 "format" := Items(["HTML"]), "identifier" := Items(["http://x/1"]),
                 "title" := Items(["Sea ice"]), "set_spec" := Items([])];
    var keys := ["creator", "rights", "format", "identifier", "title", "set_spec"];
    assert IterationOrder(keys, c);
    var cands := ["http://x/1", "oai:x:1"];
    assert IsHttp(cands[0]);
    assert FirstHttp(cands) == ["http://x/1"];
    NonDifNeedsHttpCandidate("oai:x:1", c, keys, cat);
  }
}
