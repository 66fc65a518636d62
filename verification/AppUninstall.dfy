/** The managed-binary installer's uninstall. */
module AppUninstall {
  import opened Text
  import opened Disk
  import opened Releases
  import opened Transaction
  import opened AppRecovery
  import opened AppRetirement

  // ---------------------------------------------------------------- uninstall

  /** Replace the manifest by a new one, staged first; an exception removes the stage file again. */
  method WriteManifest(vol: Volume, doc: Doc) returns (o: Fate)
    modifies vol
    ensures forall p | p != Manifest && !(p.Stage? && p.of == Manifest) :: Same(old(vol.files), vol.files, p)
    ensures Same(old(vol.files), vol.files, Manifest)
            || (Manifest in vol.files && vol.files[Manifest] == OwnFile(ManifestText(doc)))
    ensures o.Done? ==> vol.files == old(vol.files)[Manifest := OwnFile(ManifestText(doc))]
    ensures o.Raised? && vol.failures == old(vol.failures) + 1 ==>
              forall p: Path | p.Stage? :: Same(old(vol.files), vol.files, p)
    ensures vol.failures >= old(vol.failures)
    ensures o.Done? <==> vol.failures == old(vol.failures)
  {
    var n;
    o, n := vol.StageFile(Manifest, ManifestText(doc), OWNER_ONLY);
    if !o.Done? {
      return;
    }
    o := vol.Replace(Stage(Manifest, n), Manifest);
    if o.Done? {
      o := vol.Fsync();
    }
    if o.Raised? && Stage(Manifest, n) in vol.files {
      var u := vol.Unlink(Stage(Manifest, n));
      o := if u.Killed? then Killed else Raised;
    }
  }

  function OwnFile(content: Content): File {
    File(content, OWNER_ONLY, true, true)
  }

  function ListedKeys(files: Files): set<string> {
    if Manifest in files && Candidate(files, Manifest).Some? then Candidate(files, Manifest).value.components.Keys
    else {}
  }

  /** How a finished uninstall of an accepted manifest ends: with no manifest if nothing stays on record, and else
      with one that lists exactly what does. */
  ghost predicate Uninstalled(pins: Pins, before: Files, after: Files, calm: bool, now: nat)
    requires TrustedAt(pins, before, Manifest)
  {
    var doc := Candidate(before, Manifest).value;
    var kept := ListedKeys(after);
    && kept <= doc.components.Keys
    && (forall c | c in doc.components :: DealtWith(before, after, c, doc.components[c], c in kept, calm, now))
    && (Manifest in after ==>
          kept != {}
          && after[Manifest]
             == OwnFile(ManifestText(doc.(components := map c | c in kept :: doc.components[c], partial := true))))
    && (forall p: Path | p != Manifest && !Belongs(p, doc.components.Keys) :: Same(before, after, p))
  }

  /** When no operation failed: the manifest stays exactly if some listed file could be neither removed nor moved,
      and then it lists exactly the files that are still in place. */
  lemma UninstalledMeans(pins: Pins, before: Files, after: Files, now: nat)
    requires TrustedAt(pins, before, Manifest) && Uninstalled(pins, before, after, true, now)
    ensures var records := Candidate(before, Manifest).value.components;
            && (Manifest in after <==> exists c :: c in records && Stays(before, c, records[c]))
            && (Manifest in after <==> exists c :: c in records && Target(c) in after)
            && forall c | c in records ::
                 && (c in ListedKeys(after) <==> Target(c) in after)
                 && (Target(c) in after <==> Stays(before, c, records[c]))
  {
    var records := Candidate(before, Manifest).value.components;
    forall c | c in records
      ensures (c in ListedKeys(after) <==> Target(c) in after) && (Target(c) in after <==> Stays(before, c, records[c]))
    {
      assert DealtWith(before, after, c, records[c], c in ListedKeys(after), true, now);
    }
    if Manifest in after {
      var c :| c in ListedKeys(after);
      assert c in records && Stays(before, c, records[c]) && Target(c) in after;
    }
  }

  /** Remove unchanged files, quarantine modified ones, and keep a manifest only for what could be
      neither removed nor moved. */
  method UninstallLocked(vol: Volume, pins: Pins, now: nat) returns (o: Fate)
    requires forall c :: Quarantine(c, now) !in vol.files
    modifies vol
    ensures Manifest !in old(vol.files) ==> o.Done? && vol.files == old(vol.files)
    ensures Refused(pins, old(vol.files)) ==> o.Raised? && vol.files == old(vol.files)
    ensures TrustedAt(pins, old(vol.files), Manifest) ==>
              AllConserved(old(vol.files), vol.files, Candidate(old(vol.files), Manifest).value.components)
    ensures Manifest in vol.files && TrustedAt(pins, old(vol.files), Manifest) ==> TrustedAt(pins, vol.files, Manifest)
    ensures TrustedAt(pins, old(vol.files), Manifest) && o.Done? ==>
              Uninstalled(pins, old(vol.files), vol.files, vol.failures == old(vol.failures), now)
    ensures vol.failures >= old(vol.failures)
    ensures vol.failures == old(vol.failures) ==> (o.Done? <==> !Refused(pins, old(vol.files)))
  {
    if Manifest !in vol.files {
      return Done;
    }
    if !TrustedAt(pins, vol.files, Manifest) {
      return Raised;
    }
    var doc := Candidate(vol.files, Manifest).value;
    var records := doc.components;
    ghost var start, was := vol.files, vol.failures;
    var preserved;
    o, preserved := RetireAll(vol, records, records.Keys, false, now);
    assert Same(start, vol.files, Manifest);
    if !o.Done? {
      return;
    }
    ghost var middle, calm := vol.files, vol.failures == was;
    if preserved == {} {
      o := vol.Unlink(Manifest);
      ManifestOnlyConserves(start, middle, vol.files, records);
      if !o.Done? {
        return;
      }
      o := vol.Fsync();
    } else {
      var kept := map c | c in preserved :: records[c];
      PartialTrusted(pins, doc, kept);
      o := WriteManifest(vol, doc.(components := kept, partial := true));
      ManifestOnlyConserves(start, middle, vol.files, records);
    }
    if o.Done? {
      ManifestOnlyUninstalls(pins, start, middle, vol.files, preserved, calm, now);
    }
  }

  lemma ManifestOnlyUninstalls(pins: Pins, start: Files, middle: Files, after: Files, kept: set<string>, calm: bool,
                               now: nat)
    requires TrustedAt(pins, start, Manifest)
    requires var doc := Candidate(start, Manifest).value;
             && kept <= doc.components.Keys && OnlyThose(start, middle, doc.components.Keys)
             && (forall c | c in doc.components ::
                   DealtWith(start, middle, c, doc.components[c], c in kept, calm, now))
             && after == if kept == {} then middle - {Manifest}
                         else middle[Manifest := OwnFile(ManifestText(
                                doc.(components := map c | c in kept :: doc.components[c], partial := true)))]
    ensures Uninstalled(pins, start, after, calm, now)
  {
    var doc := Candidate(start, Manifest).value;
    assert ListedKeys(after) == kept;
    forall c | c in doc.components ensures DealtWith(start, after, c, doc.components[c], c in kept, calm, now) {
      forall at ensures Same(middle, after, Quarantine(c, at)) {}
      VisitLeaves(start, middle, after, c, doc.components[c], c in kept, calm, calm, now);
    }
  }

  lemma ManifestOnlyConserves(before: Files, middle: Files, after: Files, records: map<string, Record>)
    requires AllConserved(before, middle, records)
    requires forall p | p != Manifest && !(p.Stage? && p.of == Manifest) :: Same(middle, after, p)
    ensures AllConserved(before, after, records)
    ensures forall c | c in records :: Same(middle, after, Target(c))
  {
    forall c | c in records ensures Conserved(before, after, c, records[c]) {
      assert Conserved(before, middle, c, records[c]) && Same(middle, after, Target(c));
      if Quarantined(before, middle, c) {
        var at :| HoldsBytes(before, middle, c, at);
        assert Same(middle, after, Quarantine(c, at));
        assert HoldsBytes(before, after, c, at);
      }
    }
  }
}
