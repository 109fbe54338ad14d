/** The documents a public bundle generates, and what the export policy says of their names. */
module BundleDocs {
  import opened PublicSource

  datatype Doc = ReadMe | ExclusionsDoc | Reference | Report | ManifestDoc | Sums

  function NameOf(doc: Doc): string {
    match doc
    case ReadMe => README
    case ExclusionsDoc => "PUBLICATION_EXCLUSIONS.md"
    case Reference => "B5_BUILD_COMPLETE_REFERENCE.json"
    case Report => "B6_REPRODUCIBILITY_REPORT.json"
    case ManifestDoc => "PUBLICATION_MANIFEST.json"
    case Sums => "SHA256SUMS"
  }

  lemma NamesDiffer(a: Doc, b: Doc)
    requires a != b
    ensures NameOf(a) != NameOf(b)
  {
    assert |NameOf(a)| != |NameOf(b)| || NameOf(a)[12] != NameOf(b)[12];
  }

  predicate Ascii(path: string) {
    forall i | 0 <= i < |path| :: path[i] < 128 as char
  }

  // A root name in upper case, with an extension no credential file has.
  predicate DocShaped(name: string) {
    name != "" && 'A' <= name[0] <= 'Z' && Ascii(name) && Lacks(name, '/') && HarmlessSuffix(Suffix(name))
  }

  lemma AsciiJoined(a: string, b: string)
    requires Ascii(a) && Ascii(b) && Lacks(a, '/') && Lacks(b, '/')
    ensures Ascii(a + b) && Lacks(a + b, '/')
  {
  }

  lemma PlainExtension(extension: string)
    requires extension == ".md" || extension == ".json"
    ensures 2 <= |extension| && extension[0] == '.' && Lacks(extension[1..], '.')
    ensures HarmlessSuffix(extension) && Ascii(extension) && Lacks(extension, '/')
  {
  }

  lemma ShapeOf(stem: string, extension: string)
    requires stem != "" && 'A' <= stem[0] <= 'Z' && Ascii(stem) && Lacks(stem, '/')
    requires extension == ".md" || extension == ".json"
    ensures DocShaped(stem + extension)
  {
    PlainExtension(extension);
    SuffixIs(stem, extension);
    AsciiJoined(stem, extension);
  }

  lemma ExclusionsShape()
    ensures DocShaped("PUBLICATION_EXCLUSIONS.md")
  {
    assert "PUBLICATION_EXCLUSIONS.md" == "PUBLICATION_EXCLUSIONS" + ".md";
    ShapeOf("PUBLICATION_EXCLUSIONS", ".md");
  }

  lemma ReferenceShape()
    ensures DocShaped("B5_BUILD_COMPLETE_REFERENCE.json")
  {
    assert "B5_BUILD_COMPLETE_REFERENCE.json" == "B5_BUILD_COMPLETE_REFERENCE" + ".json";
    ShapeOf("B5_BUILD_COMPLETE_REFERENCE", ".json");
  }

  lemma ReportShape()
    ensures DocShaped("B6_REPRODUCIBILITY_REPORT.json")
  {
    assert "B6_REPRODUCIBILITY_REPORT.json" == "B6_REPRODUCIBILITY_REPORT" + ".json";
    ShapeOf("B6_REPRODUCIBILITY_REPORT", ".json");
  }

  lemma ManifestShape()
    ensures DocShaped("PUBLICATION_MANIFEST.json")
  {
    assert "PUBLICATION_MANIFEST.json" == "PUBLICATION_MANIFEST" + ".json";
    ShapeOf("PUBLICATION_MANIFEST", ".json");
  }

  lemma SumsShape()
    ensures DocShaped("SHA256SUMS")
  {
    assert AfterLast("SHA256SUMS", '.') == 0 by {
      assert Lacks("SHA256SUMS", '.');
    }
  }

  lemma ReadMeShape()
    ensures DocShaped(README)
  {
    assert README == "README" + ".md";
    ShapeOf("README", ".md");
  }

  lemma DocsAreShaped(doc: Doc)
    ensures DocShaped(NameOf(doc))
  {
    ReadMeShape();
    ExclusionsShape();
    ReferenceShape();
    ReportShape();
    ManifestShape();
    SumsShape();
  }

  // A tracked root file with the name of a generated document would itself be exported.
  lemma DocNamesAreIncluded(doc: Doc, other: char -> string)
    requires doc != ReadMe
    ensures Included(NameOf(doc), other)
  {
    var name := NameOf(doc);
    NamesDiffer(doc, ReadMe);
    DocsAreShaped(doc);
    PlainNameIsNotSecret("", name, other);
    assert "" + name == name;
    PublicStartIsIncluded(name, other);
  }

  lemma SubmissionDocIsIncluded(dir: string, name: string, other: char -> string)
    requires Starts(dir, SUBMISSION) && dir[|dir| - 1] == '/' && DocShaped(name)
    ensures Included(dir + name, other)
  {
    assert Starts(dir + name, SUBMISSION);
    PlainNameIsNotSecret(dir, name, other);
    assert (dir + name)[0] != README[0];
    PublicStartIsIncluded(dir + name, other);
  }

  // The overlay and exclusion documents are exported under their own paths too.
  lemma OverlayIsIncluded(other: char -> string)
    ensures Included(OVERLAY, other)
  {
    assert OVERLAY == "docs/submission/public/" + README;
    ReadMeShape();
    SubmissionDocIsIncluded("docs/submission/public/", README, other);
  }

  lemma ExclusionsAreIncluded(other: char -> string)
    ensures Included(EXCLUSIONS, other)
  {
    assert EXCLUSIONS == "docs/submission/" + "PUBLICATION_EXCLUSIONS.md";
    ExclusionsShape();
    SubmissionDocIsIncluded("docs/submission/", "PUBLICATION_EXCLUSIONS.md", other);
  }
}
