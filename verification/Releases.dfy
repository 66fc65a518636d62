/** Trusted releases, and which manifests and files the managed-app installer accepts. */
module Releases {
  import opened Text
  import opened Disk

  // ---------------------------------------------------------------- trusted releases

  datatype Artifact = Artifact(architecture: string, url: string, archive: string, binary: Digest)

  datatype Skill = Skill(digest: Digest, source: string)

  datatype Release = Release(artifacts: map<string, Artifact>, skills: map<string, Skill>)

  /** The hardcoded tables: trusted releases by version, the version to install and this host's artifact. */
  datatype Pins = Pins(releases: map<string, Release>, version: string, artifact: Artifact)

  const GWS := Target("gws")

  const OWNER_ONLY := 384
  const EXECUTABLE := 493
  const READABLE := 420

  function GwsRecord(a: Artifact): Record {
    Record(GWS, a.binary, EXECUTABLE, a.url)
  }

  function ExpectedRecords(a: Artifact, r: Release): map<string, Record> {
    (map c | c in r.skills :: Record(Target(c), r.skills[c].digest, READABLE, r.skills[c].source))
      ["gws" := GwsRecord(a)]
  }

  /** The pinned version is itself a trusted release for this host, and skills are not called gws. */
  ghost predicate ValidPins(pins: Pins) {
    && pins.version in pins.releases
    && pins.artifact.architecture in pins.releases[pins.version].artifacts
    && pins.releases[pins.version].artifacts[pins.artifact.architecture] == pins.artifact
    && forall v | v in pins.releases :: "gws" !in pins.releases[v].skills
  }

  /** A whole manifest lists the binary alone or every component of its release; a partly
      uninstalled one lists any of them. Every record must be the pinned one. */
  function ValidateManifest(pins: Pins, doc: Doc): Option<map<string, Record>> {
    if doc.version !in pins.releases then None
    else
      var release := pins.releases[doc.version];
      if doc.architecture !in release.artifacts then None
      else
        var artifact := release.artifacts[doc.architecture];
        var expected := ExpectedRecords(artifact, release);
        if !doc.header || doc.architecture != pins.artifact.architecture || doc.archive != artifact.archive then None
        else if !doc.partial && doc.components.Keys != {"gws"} && doc.components.Keys != expected.Keys then None
        else if !(doc.components.Keys <= expected.Keys) then None
        else if exists c | c in doc.components :: doc.components[c] != expected[c] then None
        else Some(doc.components)
  }

  predicate Trusted(pins: Pins, doc: Doc) {
    ValidateManifest(pins, doc).Some?
  }

  /** The record is the one that the release pins for the component. */
  predicate PinnedRecord(artifact: Artifact, release: Release, c: string, r: Record) {
    if c == "gws" then r == Record(Target("gws"), artifact.binary, 0x1ed, artifact.url)
    else c in release.skills && r == Record(Target(c), release.skills[c].digest, 0x1a4, release.skills[c].source)
  }

  /** Which manifests are accepted: those of a trusted release for this host's architecture, with nothing but pinned
      records, and, unless marked as partly uninstalled, with the binary alone or with every component. */
  lemma TrustedIff(pins: Pins, doc: Doc)
    requires ValidPins(pins)
    ensures Trusted(pins, doc)
            <==> && doc.header && doc.version in pins.releases
                 && doc.architecture == pins.artifact.architecture
                 && var release := pins.releases[doc.version];
                    && doc.architecture in release.artifacts
                    && doc.archive == release.artifacts[doc.architecture].archive
                    && (forall c | c in doc.components ::
                          PinnedRecord(release.artifacts[doc.architecture], release, c, doc.components[c]))
                    && (doc.partial || doc.components.Keys == {"gws"}
                        || doc.components.Keys == release.skills.Keys + {"gws"})
    ensures Trusted(pins, doc) ==> ValidateManifest(pins, doc) == Some(doc.components)
  {
    if doc.version in pins.releases && doc.architecture in pins.releases[doc.version].artifacts {
      var release := pins.releases[doc.version];
      var expected := ExpectedRecords(release.artifacts[doc.architecture], release);
      assert expected.Keys == release.skills.Keys + {"gws"};
      forall c: string, r: Record
        ensures PinnedRecord(release.artifacts[doc.architecture], release, c, r) <==> c in expected && r == expected[c]
      {
      }
    }
  }

  // ---------------------------------------------------------------- reading files

  predicate Matches(f: File, r: Record) {
    f.regular && f.sole && f.mode == r.mode && Sha256(f.content) == r.digest
  }

  predicate FileMatches(files: Files, p: Path, r: Record) {
    p in files && Matches(files[p], r)
  }

  /** A record pins its file whole: no two files match it. */
  lemma OneFileMatches(f: File, g: File, r: Record)
    requires Matches(f, r) && Matches(g, r)
    ensures f == g
  {
  }

  /** No permission for group or others. */
  predicate OwnerOnly(f: File) {
    f.regular && f.sole && f.mode % 64 == 0
  }

  /** In octal, the last two digits of the mode are zero. */
  lemma OwnerOnlyMeans(f: File)
    ensures OwnerOnly(f) <==> f.regular && f.sole && f.mode % 8 == 0 && f.mode / 8 % 8 == 0
  {
  }

  function Candidate(files: Files, p: Path): Option<Doc> {
    if p in files && OwnerOnly(files[p]) && files[p].content.ManifestText? then Some(files[p].content.doc) else None
  }

  predicate TrustedAt(pins: Pins, files: Files, p: Path) {
    Candidate(files, p).Some? && Trusted(pins, Candidate(files, p).value)
  }

  /** The document that a new installation writes. */
  function NewDoc(pins: Pins): Doc {
    Doc(true, pins.version, pins.artifact.architecture, pins.artifact.archive,
        map["gws" := GwsRecord(pins.artifact)], false)
  }

  /** Every manifest the installer writes is accepted by the manifest reader. */
  lemma NewDocTrusted(pins: Pins)
    requires ValidPins(pins)
    ensures ValidateManifest(pins, NewDoc(pins)) == Some(map["gws" := GwsRecord(pins.artifact)])
  {
  }

  /** So is every manifest that a partial uninstall leaves: any part of an accepted one. */
  lemma PartialTrusted(pins: Pins, doc: Doc, kept: map<string, Record>)
    requires Trusted(pins, doc)
    requires kept.Keys <= doc.components.Keys && forall c | c in kept :: kept[c] == doc.components[c]
    ensures ValidateManifest(pins, doc.(components := kept, partial := true)) == Some(kept)
  {
  }

  lemma TrustedRecords(pins: Pins, doc: Doc, c: string)
    requires Trusted(pins, doc) && c in doc.components
    ensures doc.components[c].path == Target(c)
    ensures c == "gws" ==> doc.components[c] == GwsRecord(pins.releases[doc.version].artifacts[doc.architecture])
  {
    var release := pins.releases[doc.version];
    var expected := ExpectedRecords(release.artifacts[doc.architecture], release);
    assert c in expected && doc.components[c] == expected[c];
  }
}
