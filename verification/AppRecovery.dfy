/** The managed-binary installer's recovery, which precedes every install and uninstall. */
module AppRecovery {
  import opened Text
  import opened Disk
  import opened Releases
  import opened Transaction

  // ---------------------------------------------------------------- the states recovery tells apart

  /** The path holds an accepted manifest that lists the binary with this record. */
  predicate Lists(pins: Pins, files: Files, p: Path, r: Record) {
    TrustedAt(pins, files, p) && "gws" in Candidate(files, p).value.components
    && Candidate(files, p).value.components["gws"] == r
  }

  predicate TrustedFile(pins: Pins, f: File) {
    OwnerOnly(f) && f.content.ManifestText? && Trusted(pins, f.content.doc)
  }

  /** A manifest listing the binary governs: it is in place, or every accepted backup is one. */
  ghost predicate Governed(pins: Pins, files: Files, r: Record) {
    if Manifest in files then Lists(pins, files, Manifest, r)
    else (exists q :: Lists(pins, files, Backup(Manifest, q), r))
         && forall q :: TrustedAt(pins, files, Backup(Manifest, q)) ==> Lists(pins, files, Backup(Manifest, q), r)
  }

  /** The binary is in place and matches the record, or is missing with a matching backup. */
  ghost predicate Sound(files: Files, r: Record) {
    if GWS in files then Matches(files[GWS], r) else exists q :: FileMatches(files, Backup(GWS, q), r)
  }

  /** Another file is where the binary should be. */
  predicate Stuck(files: Files, r: Record) {
    GWS in files && !Matches(files[GWS], r)
  }

  predicate Installed(pins: Pins, files: Files, r: Record) {
    Lists(pins, files, Manifest, r) && FileMatches(files, GWS, r)
  }

  predicate Absent(files: Files) {
    Manifest !in files && GWS !in files
  }

  /** No accepted manifest lies in a stage or backup file. */
  ghost predicate Clean(pins: Pins, files: Files) {
    && (forall n :: !TrustedAt(pins, files, Stage(Manifest, n)))
    && (forall q :: !TrustedAt(pins, files, Backup(Manifest, q)))
  }

  function Pinned(pins: Pins): Record {
    GwsRecord(pins.artifact)
  }

  /** A first install that did not commit its manifest: at most the pinned binary is in place, and any
      accepted stage file is the manifest being installed. */
  ghost predicate Pending(pins: Pins, files: Files) {
    && Manifest !in files
    && (forall q :: !TrustedAt(pins, files, Backup(Manifest, q)))
    && (GWS in files ==> Matches(files[GWS], Pinned(pins)))
    && (forall n :: TrustedAt(pins, files, Stage(Manifest, n)) ==>
          Candidate(files, Stage(Manifest, n)).value.components == map["gws" := Pinned(pins)])
  }

  /** What a step of recovery keeps. */
  ghost predicate Keeps(pins: Pins, before: Files, after: Files, r: Record) {
    Governed(pins, before, r) ==>
      && Governed(pins, after, r)
      && (Sound(before, r) ==> Sound(after, r))
      && (Stuck(before, r) ==> Stuck(after, r))
  }

  /** The paths that these predicates read. */
  predicate Relevant(p: Path) {
    p == Manifest || p == GWS || (p.Backup? && (p.of == Manifest || p.of == GWS))
  }

  lemma GovernedSame(pins: Pins, before: Files, after: Files, r: Record)
    requires Governed(pins, before, r) && Same(before, after, Manifest)
    requires forall q :: Same(before, after, Backup(Manifest, q))
    ensures Governed(pins, after, r)
  {
    if Manifest !in before {
      var q :| Lists(pins, before, Backup(Manifest, q), r);
      assert Same(before, after, Backup(Manifest, q));
      assert Lists(pins, after, Backup(Manifest, q), r);
      forall q | TrustedAt(pins, after, Backup(Manifest, q)) ensures Lists(pins, after, Backup(Manifest, q), r) {
        assert Same(before, after, Backup(Manifest, q));
        assert TrustedAt(pins, before, Backup(Manifest, q));
      }
    }
  }

  lemma SameKeeps(pins: Pins, before: Files, after: Files, r: Record)
    requires forall p | Relevant(p) :: Same(before, after, p)
    ensures Keeps(pins, before, after, r)
  {
    assert Same(before, after, Manifest) && Same(before, after, GWS);
    forall q ensures Same(before, after, Backup(Manifest, q)) && Same(before, after, Backup(GWS, q)) {}
    if Governed(pins, before, r) {
      GovernedSame(pins, before, after, r);
      if Sound(before, r) && GWS !in before {
        var q :| FileMatches(before, Backup(GWS, q), r);
        assert FileMatches(after, Backup(GWS, q), r);
      }
    }
  }

  // ---------------------------------------------------------------- recovery

  function StagesOf(files: Files, t: Path): set<Path> {
    set p | p in files && p.Stage? && p.of == t
  }

  function BackupsOf(files: Files, t: Path): set<Path> {
    set p | p in files && p.Backup? && p.of == t
  }

  /** The files of a list that satisfy a condition are gone, and no other. */
  ghost predicate Swept(before: Files, after: Files, paths: set<Path>, cond: File -> bool) {
    forall p :: if p in paths && p in before && cond(before[p]) then p !in after else Same(before, after, p)
  }

  /** Unlink the files of a list that satisfy a condition; any order. */
  method RemoveIf(vol: Volume, paths: set<Path>, cond: File -> bool) returns (o: Fate)
    modifies vol
    ensures forall p :: Same(old(vol.files), vol.files, p)
                     || (p in paths && p in old(vol.files) && cond(old(vol.files)[p]) && p !in vol.files)
    ensures o.Done? ==> Swept(old(vol.files), vol.files, paths, cond)
    ensures vol.failures >= old(vol.failures)
    ensures o.Done? <==> vol.failures == old(vol.failures)
  {
    var rest := paths;
    while rest != {}
      invariant rest <= paths && vol.failures == old(vol.failures)
      invariant forall p :: Same(old(vol.files), vol.files, p)
                         || (p in paths && p in old(vol.files) && cond(old(vol.files)[p]) && p !in vol.files)
      invariant forall p | p in paths - rest && p in vol.files :: !cond(vol.files[p])
      decreases rest
    {
      var p :| p in rest;
      rest := rest - {p};
      if p in vol.files && cond(vol.files[p]) {
        o := vol.Unlink(p);
        if !o.Done? {
          return;
        }
      }
    }
    return Done;
  }

  ghost predicate AnyBackup(pins: Pins, files: Files) {
    exists q :: TrustedAt(pins, files, Backup(Manifest, q))
  }

  /** A missing manifest is back from one of its accepted backups, if there is one. */
  ghost predicate ManifestBack(pins: Pins, before: Files, after: Files) {
    if Manifest !in before && AnyBackup(pins, before) then
      exists q :: TrustedAt(pins, before, Backup(Manifest, q)) && after == Moved(before, Backup(Manifest, q), Manifest)
    else after == before
  }

  function Moved(files: Files, src: Path, dst: Path): Files
    requires src in files
  {
    (files - {src})[dst := files[src]]
  }

  lemma MovedBackKeeps(pins: Pins, before: Files, q: nat, r: Record)
    requires Manifest !in before && TrustedAt(pins, before, Backup(Manifest, q))
    ensures Keeps(pins, before, Moved(before, Backup(Manifest, q), Manifest), r)
  {
    var after := Moved(before, Backup(Manifest, q), Manifest);
    if Sound(before, r) && GWS !in before {
      var k :| FileMatches(before, Backup(GWS, k), r);
      assert FileMatches(after, Backup(GWS, k), r);
    }
  }

  /** Put back the first accepted manifest backup when the manifest is missing. */
  method RestoreManifestBackup(vol: Volume, pins: Pins, ghost r: Record) returns (o: Fate)
    modifies vol
    ensures Keeps(pins, old(vol.files), vol.files, r)
    ensures vol.files == old(vol.files) || ManifestBack(pins, old(vol.files), vol.files)
    ensures o.Done? ==> ManifestBack(pins, old(vol.files), vol.files)
    ensures Manifest in old(vol.files) ==> o.Done?
    ensures vol.failures >= old(vol.failures)
    ensures o.Done? <==> vol.failures == old(vol.failures)
  {
    if Manifest in vol.files {
      return Done;
    }
    var rest := BackupsOf(vol.files, Manifest);
    while rest != {}
      invariant vol.files == old(vol.files) && vol.failures == old(vol.failures)
      invariant forall q | Backup(Manifest, q) in vol.files && Backup(Manifest, q) !in rest ::
                  !TrustedAt(pins, vol.files, Backup(Manifest, q))
      invariant forall p | p in rest :: p in vol.files && p.Backup? && p.of == Manifest
      decreases rest
    {
      var p :| p in rest;
      rest := rest - {p};
      if TrustedAt(pins, vol.files, p) {
        ghost var before := vol.files;
        assert p == Backup(Manifest, p.pid);
        MovedBackKeeps(pins, before, p.pid, r);
        o := vol.Replace(p, Manifest);
        if o.Done? {
          o := vol.Fsync();
        }
        return;
      }
    }
    return Done;
  }

  /** An accepted staged manifest whose records all match what is in place. */
  predicate Adoptable(pins: Pins, files: Files, p: Path) {
    && p.Stage? && p.of == Manifest && TrustedAt(pins, files, p)
    && var records := Candidate(files, p).value.components;
       forall c | c in records :: FileMatches(files, records[c].path, records[c])
  }

  ghost predicate AnyAdoptable(pins: Pins, files: Files) {
    exists n :: Adoptable(pins, files, Stage(Manifest, n))
  }

  /** One of those has become the manifest. */
  ghost predicate ManifestAdopted(pins: Pins, before: Files, after: Files) {
    exists n :: Adoptable(pins, before, Stage(Manifest, n)) && after == Moved(before, Stage(Manifest, n), Manifest)
  }

  lemma AdoptedInstalled(pins: Pins, before: Files, after: Files)
    requires Pending(pins, before) && ManifestAdopted(pins, before, after)
    ensures Installed(pins, after, Pinned(pins)) && Governed(pins, after, Pinned(pins))
  {
    var n :| Adoptable(pins, before, Stage(Manifest, n)) && after == Moved(before, Stage(Manifest, n), Manifest);
    var records := Candidate(before, Stage(Manifest, n)).value.components;
    assert records == map["gws" := Pinned(pins)];
    assert FileMatches(before, records["gws"].path, records["gws"]);
  }

  /** Take over a staged manifest whose records all match what is installed. */
  method AdoptStagedManifest(vol: Volume, pins: Pins) returns (o: Fate, adopted: bool)
    requires Manifest !in vol.files
    modifies vol
    ensures vol.files == old(vol.files) || ManifestAdopted(pins, old(vol.files), vol.files)
    ensures o.Done? ==> (adopted <==> AnyAdoptable(pins, old(vol.files)))
    ensures o.Done? && !adopted ==> vol.files == old(vol.files)
    ensures o.Done? && adopted ==> ManifestAdopted(pins, old(vol.files), vol.files)
    ensures vol.failures >= old(vol.failures)
    ensures o.Done? <==> vol.failures == old(vol.failures)
  {
    var rest := StagesOf(vol.files, Manifest);
    while rest != {}
      invariant vol.files == old(vol.files) && vol.failures == old(vol.failures)
      invariant forall p | p in rest :: p in vol.files && p.Stage? && p.of == Manifest
      invariant forall n | Stage(Manifest, n) in vol.files && Stage(Manifest, n) !in rest ::
                  !Adoptable(pins, vol.files, Stage(Manifest, n))
      decreases rest
    {
      var p :| p in rest;
      rest := rest - {p};
      assert p == Stage(Manifest, p.n);
      if Adoptable(pins, vol.files, p) {
        o := vol.Replace(p, Manifest);
        if o.Done? {
          o := vol.Fsync();
        }
        return o, o.Done?;
      }
    }
    return Done, false;
  }

  /** Only the target, its stage files and its backups may differ. */
  ghost predicate Around(before: Files, after: Files, t: Path) {
    forall p | p != t && !((p.Stage? || p.Backup?) && p.of == t) :: Same(before, after, p)
  }

  /** What one record comes to: a missing target is back from a matching backup, if there is one, and a target
      that matches needs its matching backups and stage files no more. */
  ghost predicate RecordRecovered(before: Files, after: Files, target: Path, record: Record) {
    && (if target in before then Same(before, after, target)
        else if exists q :: FileMatches(before, Backup(target, q), record) then FileMatches(after, target, record)
        else target !in after)
    && forall p: Path | (p.Stage? || p.Backup?) && p.of == target ::
         if FileMatches(after, target, record) && FileMatches(before, p, record) then p !in after
         else Same(before, after, p)
  }

  function MatchingBackups(files: Files, target: Path, record: Record): set<Path> {
    set p | p in BackupsOf(files, target) && FileMatches(files, p, record)
  }

  /** The target is back, or could not be brought back; nothing else has changed. */
  ghost predicate BroughtBack(before: Files, after: Files, target: Path, record: Record) {
    if target !in before && exists q :: FileMatches(before, Backup(target, q), record) then
      exists q :: FileMatches(before, Backup(target, q), record) && after == Moved(before, Backup(target, q), target)
    else after == before
  }

  /** Bring a missing target back from one of its matching backups. */
  method BringBack(vol: Volume, target: Path, record: Record) returns (o: Fate)
    modifies vol
    ensures if o.Done? then BroughtBack(old(vol.files), vol.files, target, record) else vol.files == old(vol.files)
    ensures vol.failures >= old(vol.failures)
    ensures o.Done? <==> vol.failures == old(vol.failures)
  {
    var matching := MatchingBackups(vol.files, target, record);
    ghost var before := vol.files;
    if q :| FileMatches(before, Backup(target, q), record) {
      assert Backup(target, q) in matching;
    }
    o := Done;
    if target !in vol.files && matching != {} {
      var p :| p in matching;
      assert p == Backup(target, p.pid);
      o := vol.Replace(p, target);
    }
  }

  /** The matching backups and stage files of the target are gone, and nothing else. */
  ghost predicate SurplusDropped(before: Files, after: Files, target: Path, record: Record) {
    forall p: Path ::
      if (p.Stage? || p.Backup?) && p.of == target && FileMatches(before, p, record) then p !in after
      else Same(before, after, p)
  }

  /** Drop what a target that matches its record needs no more. */
  method DropSurplus(vol: Volume, target: Path, record: Record) returns (o: Fate)
    modifies vol
    ensures forall p :: Same(old(vol.files), vol.files, p)
                     || ((p.Stage? || p.Backup?) && p.of == target && p !in vol.files)
    ensures o.Done? ==> SurplusDropped(old(vol.files), vol.files, target, record)
    ensures vol.failures >= old(vol.failures)
    ensures o.Done? <==> vol.failures == old(vol.failures)
  {
    o := RemoveIf(vol, MatchingBackups(vol.files, target, record), _ => true);
    if !o.Done? {
      return;
    }
    o := RemoveIf(vol, StagesOf(vol.files, target), f => Matches(f, record));
  }

  lemma SurplusRecord(before: Files, middle: Files, after: Files, target: Path, record: Record)
    requires Plain(target) && BroughtBack(before, middle, target, record)
    requires if FileMatches(middle, target, record) then SurplusDropped(middle, after, target, record)
             else after == middle
    ensures RecordRecovered(before, after, target, record)
  {
    assert Same(middle, after, target);
    forall p: Path | (p.Stage? || p.Backup?) && p.of == target
      ensures if FileMatches(after, target, record) && FileMatches(before, p, record) then p !in after
              else Same(before, after, p)
    {
      assert p in middle ==> Same(before, middle, p);
    }
  }

  lemma BroughtBackMeans(before: Files, middle: Files, target: Path, record: Record)
    requires Plain(target) && BroughtBack(before, middle, target, record)
    ensures Around(before, middle, target) && (target in before ==> middle == before)
    ensures (exists q :: FileMatches(before, Backup(target, q), record)) && target !in before ==>
              FileMatches(middle, target, record)
  {
  }

  /** One record of the manifest: bring back a missing target, then drop what it no longer needs. */
  method RecoverRecord(vol: Volume, target: Path, record: Record) returns (o: Fate)
    requires Plain(target)
    modifies vol
    ensures Around(old(vol.files), vol.files, target)
    ensures target in old(vol.files) ==> Same(old(vol.files), vol.files, target)
    ensures (exists q :: FileMatches(old(vol.files), Backup(target, q), record)) && target !in old(vol.files) ==>
              if target in vol.files then Matches(vol.files[target], record)
              else exists q :: FileMatches(vol.files, Backup(target, q), record)
    ensures o.Done? ==> RecordRecovered(old(vol.files), vol.files, target, record)
    ensures vol.failures >= old(vol.failures)
    ensures o.Done? <==> vol.failures == old(vol.failures)
  {
    ghost var before := vol.files;
    o := BringBack(vol, target, record);
    if !o.Done? {
      return;
    }
    ghost var middle := vol.files;
    BroughtBackMeans(before, middle, target, record);
    if FileMatches(vol.files, target, record) {
      o := DropSurplus(vol, target, record);
      assert Same(middle, vol.files, target);
    }
    if o.Done? {
      SurplusRecord(before, middle, vol.files, target, record);
    }
  }

  lemma GwsRecordKeeps(pins: Pins, before: Files, after: Files, r: Record)
    requires Around(before, after, GWS)
    requires GWS in before ==> Same(before, after, GWS)
    requires (exists q :: FileMatches(before, Backup(GWS, q), r)) && GWS !in before ==>
               if GWS in after then Matches(after[GWS], r) else exists q :: FileMatches(after, Backup(GWS, q), r)
    ensures Keeps(pins, before, after, r)
  {
    assert Same(before, after, Manifest);
    forall q ensures Same(before, after, Backup(Manifest, q)) {}
    if Governed(pins, before, r) {
      GovernedSame(pins, before, after, r);
    }
  }

  /** One turn of the loop over the manifest's records. */
  method RecoverListed(vol: Volume, pins: Pins, doc: Doc, c: string, ghost r: Record) returns (o: Fate)
    requires Trusted(pins, doc) && c in doc.components && (c == "gws" ==> doc.components[c] == r)
    modifies vol
    ensures Same(old(vol.files), vol.files, Manifest)
    ensures Keeps(pins, old(vol.files), vol.files, r)
    ensures Around(old(vol.files), vol.files, Target(c))
    ensures o.Done? ==> RecordRecovered(old(vol.files), vol.files, Target(c), doc.components[c])
    ensures vol.failures >= old(vol.failures)
    ensures o.Done? <==> vol.failures == old(vol.failures)
  {
    TrustedRecords(pins, doc, c);
    ghost var before := vol.files;
    o := RecoverRecord(vol, Target(c), doc.components[c]);
    assert Same(before, vol.files, Manifest);
    if c == "gws" {
      GwsRecordKeeps(pins, before, vol.files, r);
    } else {
      forall p | Relevant(p) ensures Same(before, vol.files, p) {}
      SameKeeps(pins, before, vol.files, r);
    }
  }

  /** The path is the target of one of the components, or a stage file or backup of it. */
  predicate OwnedBy(p: Path, which: set<string>) {
    || (p.Target? && p.component in which)
    || ((p.Stage? || p.Backup?) && p.of.Target? && p.of.component in which)
  }

  ghost predicate RecordsRecovered(before: Files, after: Files, records: map<string, Record>, which: set<string>)
    requires which <= records.Keys
  {
    && (forall c | c in which :: RecordRecovered(before, after, Target(c), records[c]))
    && (forall p | !OwnedBy(p, which) :: Same(before, after, p))
  }

  lemma RecordsStep(before: Files, middle: Files, after: Files, records: map<string, Record>, which: set<string>,
                    c: string)
    requires which <= records.Keys && c in records && c !in which
    requires RecordsRecovered(before, middle, records, which)
    requires Around(middle, after, Target(c)) && RecordRecovered(middle, after, Target(c), records[c])
    ensures RecordsRecovered(before, after, records, which + {c})
  {
    forall p | !OwnedBy(p, which + {c}) ensures Same(before, after, p) {
      assert !OwnedBy(p, which) && Same(before, middle, p) && Same(middle, after, p);
    }
    forall d | d in which + {c} ensures RecordRecovered(before, after, Target(d), records[d]) {
      if d != c {
        RecordUntouched(before, middle, after, Target(d), records[d], Target(c));
      } else {
        RecordFirst(before, middle, after, which, c, records[c]);
      }
    }
  }

  lemma RecordUntouched(before: Files, middle: Files, after: Files, t: Path, r: Record, other: Path)
    requires RecordRecovered(before, middle, t, r) && Around(middle, after, other) && Plain(t) && Plain(other)
    requires t != other
    ensures RecordRecovered(before, after, t, r)
  {
    assert Same(middle, after, t);
    forall p: Path | (p.Stage? || p.Backup?) && p.of == t ensures Same(middle, after, p) {}
  }

  lemma RecordFirst(before: Files, middle: Files, after: Files, which: set<string>, c: string, r: Record)
    requires c !in which && forall p | !OwnedBy(p, which) :: Same(before, middle, p)
    requires RecordRecovered(middle, after, Target(c), r)
    ensures RecordRecovered(before, after, Target(c), r)
  {
    assert Same(before, middle, Target(c));
    forall p: Path | (p.Stage? || p.Backup?) && p.of == Target(c) ensures Same(before, middle, p) {}
    if q :| FileMatches(before, Backup(Target(c), q), r) {
      assert FileMatches(middle, Backup(Target(c), q), r);
    }
  }

  /** One turn of the loop: so far the records of so are recovered. */
  method RecoverNext(vol: Volume, pins: Pins, doc: Doc, ghost r: Record, ghost start: Files, ghost so: set<string>,
                     c: string)
    returns (o: Fate)
    requires Trusted(pins, doc) && so <= doc.components.Keys && c in doc.components && c !in so
    requires "gws" in doc.components ==> doc.components["gws"] == r
    requires Same(start, vol.files, Manifest) && Keeps(pins, start, vol.files, r)
    requires RecordsRecovered(start, vol.files, doc.components, so)
    modifies vol
    ensures Same(start, vol.files, Manifest) && Keeps(pins, start, vol.files, r)
    ensures o.Done? ==> RecordsRecovered(start, vol.files, doc.components, so + {c})
    ensures vol.failures >= old(vol.failures)
    ensures o.Done? <==> vol.failures == old(vol.failures)
  {
    ghost var middle := vol.files;
    o := RecoverListed(vol, pins, doc, c, r);
    if o.Done? {
      RecordsStep(start, middle, vol.files, doc.components, so, c);
    }
  }

  /** The loop over the manifest's records; any order. */
  method RecoverRecords(vol: Volume, pins: Pins, doc: Doc, ghost r: Record) returns (o: Fate)
    requires Trusted(pins, doc)
    requires "gws" in doc.components ==> doc.components["gws"] == r
    modifies vol
    ensures Same(old(vol.files), vol.files, Manifest)
    ensures Keeps(pins, old(vol.files), vol.files, r)
    ensures o.Done? ==> RecordsRecovered(old(vol.files), vol.files, doc.components, doc.components.Keys)
    ensures vol.failures >= old(vol.failures)
    ensures o.Done? <==> vol.failures == old(vol.failures)
  {
    var rest := doc.components.Keys;
    ghost var start, so := vol.files, {};
    while rest != {}
      invariant rest !! so && rest + so == doc.components.Keys && vol.failures == old(vol.failures)
      invariant Same(start, vol.files, Manifest)
      invariant Keeps(pins, start, vol.files, r)
      invariant RecordsRecovered(start, vol.files, doc.components, so)
      decreases rest
    {
      var c :| c in rest;
      rest := rest - {c};
      o := RecoverNext(vol, pins, doc, r, start, so, c);
      if !o.Done? {
        return;
      }
      so := so + {c};
    }
    return Done;
  }

  /** The pinned binary, its own leftovers and accepted staged manifests are gone, and nothing else. */
  ghost predicate OrphansRemoved(pins: Pins, before: Files, after: Files) {
    forall p: Path ::
      if (p == GWS || ((p.Stage? || p.Backup?) && p.of == GWS)) && FileMatches(before, p, Pinned(pins)) then p !in after
      else if p.Stage? && p.of == Manifest && TrustedAt(pins, before, p) then p !in after
      else Same(before, after, p)
  }

  /** The binary, its stage files and backups, and staged manifests. */
  predicate IsOrphan(p: Path) {
    p == GWS || ((p.Stage? || p.Backup?) && p.of == GWS) || (p.Stage? && p.of == Manifest)
  }

  ghost predicate OrphansOnly(before: Files, after: Files) {
    forall p | !IsOrphan(p) :: Same(before, after, p)
  }

  lemma OrphansOnlyOn(start: Files, before: Files, after: Files)
    requires OrphansOnly(start, before)
    requires forall p :: Same(before, after, p) || IsOrphan(p)
    ensures OrphansOnly(start, after)
  {
    forall p | !IsOrphan(p) ensures Same(start, after, p) {
      assert Same(start, before, p) && Same(before, after, p);
    }
  }

  /** What is left of a first install that did not commit: the pinned binary and its own leftovers. */
  method RemoveOrphans(vol: Volume, pins: Pins) returns (o: Fate)
    modifies vol
    ensures OrphansOnly(old(vol.files), vol.files)
    ensures forall n :: Same(old(vol.files), vol.files, Stage(Manifest, n)) || Stage(Manifest, n) !in vol.files
    ensures Same(old(vol.files), vol.files, GWS)
            || (FileMatches(old(vol.files), GWS, Pinned(pins)) && GWS !in vol.files)
    ensures o.Done? ==> OrphansRemoved(pins, old(vol.files), vol.files)
    ensures vol.failures >= old(vol.failures)
    ensures o.Done? <==> vol.failures == old(vol.failures)
  {
    ghost var start := vol.files;
    if FileMatches(vol.files, GWS, Pinned(pins)) {
      o := vol.Unlink(GWS);
      if !o.Done? {
        return;
      }
    }
    ghost var first := vol.files;
    o := RemoveIf(vol, StagesOf(vol.files, GWS), f => Matches(f, Pinned(pins)));
    OrphansOnlyOn(start, first, vol.files);
    if !o.Done? {
      return;
    }
    ghost var middle := vol.files;
    o := RemoveIf(vol, BackupsOf(vol.files, GWS), f => Matches(f, Pinned(pins)));
    OrphansOnlyOn(start, middle, vol.files);
    if !o.Done? {
      return;
    }
    ghost var late := vol.files;
    o := RemoveIf(vol, StagesOf(vol.files, Manifest), f => TrustedFile(pins, f));
    OrphansOnlyOn(start, late, vol.files);
    if o.Done? {
      SweptOrphans(pins, start, first, middle, late, vol.files);
    }
  }

  lemma SweptOrphans(pins: Pins, start: Files, first: Files, middle: Files, late: Files, after: Files)
    requires first == if FileMatches(start, GWS, Pinned(pins)) then start - {GWS} else start
    requires Swept(first, middle, StagesOf(first, GWS), f => Matches(f, Pinned(pins)))
    requires Swept(middle, late, BackupsOf(middle, GWS), f => Matches(f, Pinned(pins)))
    requires Swept(late, after, StagesOf(late, Manifest), f => TrustedFile(pins, f))
    ensures OrphansRemoved(pins, start, after)
  {
    forall p: Path
      ensures if (p == GWS || ((p.Stage? || p.Backup?) && p.of == GWS)) && FileMatches(start, p, Pinned(pins))
              then p !in after
              else if p.Stage? && p.of == Manifest && TrustedAt(pins, start, p) then p !in after
              else Same(start, after, p)
    {
      if p.Stage? || p.Backup? {
        assert Same(start, first, p);
      }
    }
  }

  /** What recovery promises for a manifest that governs, and for a first install left pending. */
  ghost predicate Recovers(pins: Pins, before: Files, after: Files, r: Record, done: bool) {
    && Keeps(pins, before, after, r)
    && (Governed(pins, before, r) && done ==>
          Manifest in after && Clean(pins, after) && (Sound(before, r) ==> Installed(pins, after, r))
          && (Stuck(before, r) ==> !Installed(pins, after, r)))
    && (Pending(pins, before) ==>
          Pending(pins, after)
          || (Governed(pins, after, Pinned(pins)) && Sound(after, Pinned(pins))))
    && (Pending(pins, before) && done ==>
          Clean(pins, after) && (Absent(after) || Installed(pins, after, Pinned(pins))))
  }

  /** While the manifest is in place, its backups do not matter. */
  lemma PresentKeeps(pins: Pins, before: Files, after: Files, r: Record)
    requires Manifest in before && Same(before, after, Manifest) && Same(before, after, GWS)
    requires forall q :: Same(before, after, Backup(GWS, q))
    ensures Keeps(pins, before, after, r)
  {
    if Sound(before, r) && GWS !in before {
      var q :| FileMatches(before, Backup(GWS, q), r);
      assert Same(before, after, Backup(GWS, q));
      assert FileMatches(after, Backup(GWS, q), r);
    }
  }

  /** What a finished recovery has done with an accepted manifest in place: its records are recovered, and
      accepted stage files and backups of a manifest are gone. */
  ghost predicate PresentRecovered(pins: Pins, before: Files, after: Files)
    requires TrustedAt(pins, before, Manifest)
  {
    var records := Candidate(before, Manifest).value.components;
    && (forall c | c in records :: RecordRecovered(before, after, Target(c), records[c]))
    && forall p: Path | !OwnedBy(p, records.Keys) ::
         if (p.Stage? || p.Backup?) && p.of == Manifest && TrustedAt(pins, before, p) then p !in after
         else Same(before, after, p)
  }

  /** The last two loops of such a recovery. */
  lemma SweptPresent(pins: Pins, before: Files, middle: Files, late: Files, after: Files)
    requires TrustedAt(pins, before, Manifest)
    requires var records := Candidate(before, Manifest).value.components;
             RecordsRecovered(before, middle, records, records.Keys)
    requires Swept(middle, late, StagesOf(middle, Manifest), f => TrustedFile(pins, f))
    requires Swept(late, after, BackupsOf(late, Manifest), f => TrustedFile(pins, f))
    ensures PresentRecovered(pins, before, after)
  {
    var records := Candidate(before, Manifest).value.components;
    forall c | c in records ensures RecordRecovered(before, after, Target(c), records[c]) {
      assert RecordRecovered(before, middle, Target(c), records[c]);
      assert Same(middle, late, Target(c)) && Same(late, after, Target(c));
      forall p: Path | (p.Stage? || p.Backup?) && p.of == Target(c) ensures Same(middle, after, p) {
        assert Same(middle, late, p) && Same(late, after, p);
      }
    }
    forall p: Path | !OwnedBy(p, records.Keys)
      ensures if (p.Stage? || p.Backup?) && p.of == Manifest && TrustedAt(pins, before, p) then p !in after
              else Same(before, after, p)
    {
      assert Same(before, middle, p);
      if p.Stage? && p.of == Manifest && p in middle {
        assert p in StagesOf(middle, Manifest);
      }
      if p.Backup? && p.of == Manifest && p in late {
        assert p in BackupsOf(late, Manifest);
      }
    }
  }

  /** The manifest is clean, and its binary is there if it or a backup of it was. */
  lemma PresentMeans(pins: Pins, before: Files, after: Files, r: Record)
    requires TrustedAt(pins, before, Manifest) && PresentRecovered(pins, before, after)
    ensures Same(before, after, Manifest) && Clean(pins, after)
    ensures Lists(pins, before, Manifest, r) && Sound(before, r) ==> Installed(pins, after, r)
    ensures Lists(pins, before, Manifest, r) && Stuck(before, r) ==> !Installed(pins, after, r)
  {
    var records := Candidate(before, Manifest).value.components;
    assert !OwnedBy(Manifest, records.Keys);
    forall n ensures !TrustedAt(pins, after, Stage(Manifest, n)) {
      assert !OwnedBy(Stage(Manifest, n), records.Keys);
    }
    forall q ensures !TrustedAt(pins, after, Backup(Manifest, q)) {
      assert !OwnedBy(Backup(Manifest, q), records.Keys);
    }
    if Lists(pins, before, Manifest, r) {
      assert RecordRecovered(before, after, GWS, records["gws"]);
    }
  }

  /** A manifest in place that is not accepted stops everything. */
  predicate Refused(pins: Pins, files: Files) {
    Manifest in files && !TrustedAt(pins, files, Manifest)
  }

  /** Recovery with a manifest in place; one that is not accepted raises and changes nothing. */
  method RecoverPresent(vol: Volume, pins: Pins, ghost r: Record) returns (o: Fate)
    requires Manifest in vol.files
    modifies vol
    ensures Keeps(pins, old(vol.files), vol.files, r)
    ensures o.Done? ==> TrustedAt(pins, old(vol.files), Manifest) && PresentRecovered(pins, old(vol.files), vol.files)
    ensures Refused(pins, old(vol.files)) ==> o.Raised? && vol.files == old(vol.files)
    ensures vol.failures >= old(vol.failures)
    ensures o.Done? <==> vol.failures == old(vol.failures) && !Refused(pins, old(vol.files))
  {
    if !TrustedAt(pins, vol.files, Manifest) {
      return Raised;
    }
    var doc := Candidate(vol.files, Manifest).value;
    ghost var start := vol.files;
    ghost var listed := if "gws" in doc.components then doc.components["gws"] else r;
    assert Governed(pins, start, r) ==> listed == r && "gws" in doc.components;
    o := RecoverRecords(vol, pins, doc, listed);
    if !o.Done? {
      return;
    }
    ghost var middle := vol.files;
    o := RemoveIf(vol, StagesOf(vol.files, Manifest), f => TrustedFile(pins, f));
    PresentKeeps(pins, middle, vol.files, listed);
    if !o.Done? {
      return;
    }
    ghost var late := vol.files;
    o := RemoveIf(vol, BackupsOf(vol.files, Manifest), f => TrustedFile(pins, f));
    PresentKeeps(pins, late, vol.files, listed);
    if o.Done? {
      SweptPresent(pins, start, middle, late, vol.files);
    }
  }

  /** What a finished recovery has done without a manifest and without an accepted backup of one. */
  ghost predicate AbsentRecovered(pins: Pins, before: Files, after: Files) {
    if AnyAdoptable(pins, before) then
      exists middle :: ManifestAdopted(pins, before, middle) && TrustedAt(pins, middle, Manifest)
                       && PresentRecovered(pins, middle, after)
    else OrphansRemoved(pins, before, after)
  }

  /** Recovery with no manifest and no accepted backup: adopt, or clear away the pinned leftovers. */
  method RecoverAbsent(vol: Volume, pins: Pins) returns (o: Fate)
    requires Manifest !in vol.files
    modifies vol
    ensures Pending(pins, old(vol.files)) ==>
              Pending(pins, vol.files)
              || (Governed(pins, vol.files, Pinned(pins)) && Sound(vol.files, Pinned(pins)))
    ensures o.Done? ==> AbsentRecovered(pins, old(vol.files), vol.files)
    ensures vol.failures >= old(vol.failures)
    ensures o.Done? <==> vol.failures == old(vol.failures)
  {
    ghost var start := vol.files;
    var adopted;
    o, adopted := AdoptStagedManifest(vol, pins);
    ghost var middle := vol.files;
    if Pending(pins, start) && middle != start {
      AdoptedInstalled(pins, start, middle);
    }
    if !o.Done? {
      return;
    }
    if adopted {
      assert TrustedAt(pins, middle, Manifest);
      o := RecoverPresent(vol, pins, Pinned(pins));
      return;
    }
    o := RemoveOrphans(vol, pins);
    if Pending(pins, start) {
      OrphansKeepPending(pins, start, vol.files);
    }
  }

  /** A first install that did not commit is either complete after recovery or gone. */
  lemma AbsentMeans(pins: Pins, before: Files, after: Files)
    requires Pending(pins, before) && AbsentRecovered(pins, before, after)
    ensures Clean(pins, after)
    ensures if AnyAdoptable(pins, before) then Installed(pins, after, Pinned(pins)) else Absent(after)
  {
    if AnyAdoptable(pins, before) {
      var middle :| ManifestAdopted(pins, before, middle) && TrustedAt(pins, middle, Manifest)
                    && PresentRecovered(pins, middle, after);
      AdoptedInstalled(pins, before, middle);
      PresentMeans(pins, middle, after, Pinned(pins));
    } else {
      assert Same(before, after, Manifest);
      forall q ensures !TrustedAt(pins, after, Backup(Manifest, q)) {
        assert Same(before, after, Backup(Manifest, q));
      }
    }
  }

  lemma OrphansKeepPending(pins: Pins, before: Files, after: Files)
    requires Pending(pins, before)
    requires OrphansOnly(before, after)
    requires forall n :: Same(before, after, Stage(Manifest, n)) || Stage(Manifest, n) !in after
    requires Same(before, after, GWS) || GWS !in after
    ensures Pending(pins, after)
  {
    assert Same(before, after, Manifest);
    forall q ensures !TrustedAt(pins, after, Backup(Manifest, q)) {
      assert Same(before, after, Backup(Manifest, q));
      assert !TrustedAt(pins, before, Backup(Manifest, q));
    }
    forall n | TrustedAt(pins, after, Stage(Manifest, n))
      ensures Candidate(after, Stage(Manifest, n)).value.components == map["gws" := Pinned(pins)]
    {
      assert Same(before, after, Stage(Manifest, n));
      assert TrustedAt(pins, before, Stage(Manifest, n));
    }
  }

  /** What a finished recovery has done, whatever it found: brought the manifest back, if it was missing, from an
      accepted backup, or else from a complete staged one; recovered what the manifest lists; and with no
      manifest at all cleared away what is exactly the pinned release's own. */
  ghost predicate Recovered(pins: Pins, before: Files, after: Files) {
    if Manifest in before || AnyBackup(pins, before) then
      exists middle :: ManifestBack(pins, before, middle) && TrustedAt(pins, middle, Manifest)
                       && PresentRecovered(pins, middle, after)
    else AbsentRecovered(pins, before, after)
  }

  /** The recovery that precedes every install and uninstall. It finishes exactly if no operation fails and the
      manifest in place, if there is one, is accepted. */
  method RecoverInterruptedInstall(vol: Volume, pins: Pins, ghost r: Record) returns (o: Fate)
    modifies vol
    ensures Recovers(pins, old(vol.files), vol.files, r, o.Done?)
    ensures o.Done? ==> Recovered(pins, old(vol.files), vol.files)
    ensures Refused(pins, old(vol.files)) ==> o.Raised? && vol.files == old(vol.files)
    ensures vol.failures >= old(vol.failures)
    ensures o.Done? <==> vol.failures == old(vol.failures) && !Refused(pins, old(vol.files))
  {
    ghost var start := vol.files;
    o := RestoreManifestBackup(vol, pins, r);
    ghost var middle := vol.files;
    if !o.Done? {
      RestoredRecovers(pins, start, middle, r);
      return;
    }
    if Manifest !in vol.files {
      o := RecoverAbsent(vol, pins);
      AbsentRecovers(pins, start, vol.files, r, o.Done?);
      return;
    }
    o := RecoverPresent(vol, pins, r);
    PresentRecovers(pins, start, middle, vol.files, r, o.Done?);
  }

  /** Stopped after at most the first move. */
  lemma RestoredRecovers(pins: Pins, before: Files, after: Files, r: Record)
    requires after == before || ManifestBack(pins, before, after)
    requires Keeps(pins, before, after, r)
    ensures Recovers(pins, before, after, r, false)
  {
  }

  lemma AbsentRecovers(pins: Pins, before: Files, after: Files, r: Record, done: bool)
    requires Manifest !in before && !AnyBackup(pins, before)
    requires Pending(pins, before) ==>
               Pending(pins, after) || (Governed(pins, after, Pinned(pins)) && Sound(after, Pinned(pins)))
    requires done ==> AbsentRecovered(pins, before, after)
    ensures Recovers(pins, before, after, r, done)
  {
    if q :| Lists(pins, before, Backup(Manifest, q), r) {
      assert false;
    }
    if Pending(pins, before) && done {
      AbsentMeans(pins, before, after);
    }
  }

  lemma PresentRecovers(pins: Pins, before: Files, middle: Files, after: Files, r: Record, done: bool)
    requires ManifestBack(pins, before, middle) && Manifest in middle
    requires Keeps(pins, before, middle, r) && Keeps(pins, middle, after, r)
    requires done ==> TrustedAt(pins, middle, Manifest) && PresentRecovered(pins, middle, after)
    ensures Recovers(pins, before, after, r, done)
  {
    if Governed(pins, before, r) && done {
      PresentMeans(pins, middle, after, r);
    }
  }
}
