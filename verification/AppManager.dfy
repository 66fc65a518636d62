/** The managed-binary installer: an install, and what it leaves wherever it dies. */
module AppManager {
  import opened Text
  import opened Disk
  import opened Releases
  import opened Transaction
  import opened AppRecovery
  import opened AppRetirement

  // ---------------------------------------------------------------- an install that dies

  /** The binary, and then the manifest that makes it count. */
  function InstallItems(pins: Pins, binary: Content): seq<Item> {
    [Item(GWS, binary, EXECUTABLE), Item(Manifest, ManifestText(NewDoc(pins)), OWNER_ONLY)]
  }

  /** Before an install, after recovery: nothing installed, or an accepted manifest with its binary. */
  ghost predicate Settled(pins: Pins, files: Files, was: Option<Record>) {
    && Clean(pins, files)
    && match was
       case None => Absent(files)
       case Some(r) => Installed(pins, files, r)
  }

  /** What a dead install, or a dead recovery after it, can leave. The last case needs a trusted
      release whose binary is not the pinned one. */
  ghost predicate Survivable(pins: Pins, files: Files, was: Option<Record>) {
    || (Governed(pins, files, Pinned(pins)) && Sound(files, Pinned(pins)))
    || (was.None? && Pending(pins, files))
    || (was.Some? && Governed(pins, files, was.value) && Sound(files, was.value))
    || (was.Some? && Governed(pins, files, was.value) && Stuck(files, was.value)
        && was.value.digest != pins.artifact.binary)
  }

  lemma InstallItemsDistinct(pins: Pins, binary: Content)
    ensures Items(InstallItems(pins, binary))
  {
  }

  lemma ListsGwsRecord(pins: Pins, files: Files, p: Path, r: Record)
    requires Lists(pins, files, p, r)
    ensures r.mode == EXECUTABLE && r.path == GWS
  {
    TrustedRecords(pins, Candidate(files, p).value, "gws");
  }

  lemma NewManifestLists(pins: Pins, files: Files, binary: Content, p: Path)
    requires ValidPins(pins) && p in files && files[p] == NewFile(InstallItems(pins, binary)[1])
    ensures Lists(pins, files, p, Pinned(pins))
  {
    NewDocTrusted(pins);
  }

  /** Killed over an existing installation: once the new manifest is in place the new installation
      governs and is sound; until then the old manifest governs, and the binary serves it unless the
      new binary is already there and is not the one that the old manifest pins. */
  lemma TornFromInstalled(pins: Pins, orig: Files, files: Files, binary: Content, pid: nat, r: Record)
    requires ValidPins(pins) && Sha256(binary) == pins.artifact.binary
    requires Clean(pins, orig) && Installed(pins, orig, r)
    requires Torn(orig, files, InstallItems(pins, binary), pid)
    ensures var items := InstallItems(pins, binary);
            if Placed(files, items[1]) then Governed(pins, files, Pinned(pins)) && Sound(files, Pinned(pins))
            else
              && Governed(pins, files, r)
              && (Sound(files, r) <==> !(Placed(files, items[0]) && r.digest != pins.artifact.binary))
              && (Stuck(files, r) <==> Placed(files, items[0]) && r.digest != pins.artifact.binary)
  {
    var items := InstallItems(pins, binary);
    ListsGwsRecord(pins, orig, Manifest, r);
    assert TornItem(orig, files, items[0], pid) && TornItem(orig, files, items[1], pid);
    assert Same(orig, files, items[1].target) || Placed(files, items[0]);
    if Placed(files, items[1]) {
      NewManifestLists(pins, files, binary, Manifest);
      if !Placed(files, items[0]) {
        assert Same(orig, files, Manifest);
        assert files[Manifest] == orig[Manifest];
      }
      TornBinary(pins, orig, files, binary, pid, r);
    } else {
      TornManifest(pins, orig, files, binary, pid, r);
      TornBinary(pins, orig, files, binary, pid, r);
    }
  }

  lemma TornManifest(pins: Pins, orig: Files, files: Files, binary: Content, pid: nat, r: Record)
    requires Clean(pins, orig) && Lists(pins, orig, Manifest, r)
    requires Torn(orig, files, InstallItems(pins, binary), pid)
    requires !Placed(files, InstallItems(pins, binary)[1])
    ensures Governed(pins, files, r)
  {
    var items := InstallItems(pins, binary);
    assert TornItem(orig, files, items[1], pid);
    if Manifest !in files {
      assert Away(orig, files, Manifest, pid);
      assert Lists(pins, files, Backup(Manifest, pid), r);
      forall q | q != pid ensures !TrustedAt(pins, files, Backup(Manifest, q)) {
        ForeignSame(orig, files, items, pid, Backup(Manifest, q));
        assert !TrustedAt(pins, orig, Backup(Manifest, q));
      }
    }
  }

  lemma ForeignSame(orig: Files, files: Files, items: seq<Item>, pid: nat, p: Path)
    requires Torn(orig, files, items, pid) && !p.Stage?
    requires forall i | 0 <= i < |items| :: p != items[i].target && p != Backup(items[i].target, pid)
    ensures Same(orig, files, p)
  {
    assert Foreign(items, pid, p);
  }

  lemma TornBinary(pins: Pins, orig: Files, files: Files, binary: Content, pid: nat, r: Record)
    requires Sha256(binary) == pins.artifact.binary && r.mode == EXECUTABLE
    requires FileMatches(orig, GWS, r)
    requires Torn(orig, files, InstallItems(pins, binary), pid)
    ensures var items := InstallItems(pins, binary);
            && (Placed(files, items[0]) ==> FileMatches(files, GWS, Pinned(pins)))
            && (Placed(files, items[0]) ==> (FileMatches(files, GWS, r) <==> r.digest == pins.artifact.binary))
            && (!Placed(files, items[0]) ==> Sound(files, r) && !Stuck(files, r))
  {
    var items := InstallItems(pins, binary);
    assert TornItem(orig, files, items[0], pid);
    if !Placed(files, items[0]) && GWS !in files {
      assert FileMatches(files, Backup(GWS, pid), r);
    }
  }

  /** Killed over nothing: the new installation governs and is sound, or it is still pending. */
  lemma TornFromAbsent(pins: Pins, orig: Files, files: Files, binary: Content, pid: nat)
    requires ValidPins(pins) && Sha256(binary) == pins.artifact.binary
    requires Clean(pins, orig) && Absent(orig)
    requires Torn(orig, files, InstallItems(pins, binary), pid)
    ensures Pending(pins, files) || (Governed(pins, files, Pinned(pins)) && Sound(files, Pinned(pins)))
  {
    var items := InstallItems(pins, binary);
    assert TornItem(orig, files, items[0], pid) && TornItem(orig, files, items[1], pid);
    assert Same(orig, files, items[1].target) || Placed(files, items[0]);
    if Placed(files, items[1]) {
      NewManifestLists(pins, files, binary, Manifest);
    } else {
      forall q ensures !TrustedAt(pins, files, Backup(Manifest, q)) {
        assert !TrustedAt(pins, orig, Backup(Manifest, q));
        if q != pid {
          ForeignSame(orig, files, items, pid, Backup(Manifest, q));
        }
      }
      forall n | TrustedAt(pins, files, Stage(Manifest, n))
        ensures Candidate(files, Stage(Manifest, n)).value.components == map["gws" := Pinned(pins)]
      {
        assert !TrustedAt(pins, orig, Stage(Manifest, n));
        assert Foreign(items, pid, Stage(Manifest, n));
        assert Staged(items, Stage(Manifest, n), files[Stage(Manifest, n)]);
      }
    }
  }

  /** Whatever a kill left over a settled state is survivable. */
  lemma TornSurvivable(pins: Pins, orig: Files, files: Files, binary: Content, pid: nat, was: Option<Record>)
    requires ValidPins(pins) && Sha256(binary) == pins.artifact.binary && Settled(pins, orig, was)
    requires Torn(orig, files, InstallItems(pins, binary), pid)
    ensures Survivable(pins, files, was)
  {
    match was
    case None => TornFromAbsent(pins, orig, files, binary, pid);
    case Some(r) => TornFromInstalled(pins, orig, files, binary, pid, r);
  }

  lemma SettledSurvivable(pins: Pins, files: Files, was: Option<Record>)
    requires Settled(pins, files, was)
    ensures Survivable(pins, files, was)
  {
    if was.None? {
      assert Pending(pins, files);
    }
  }

  /** What a finished recovery ends in: the new installation, what was there before, or, only when the
      release that was installed pins another binary, a manifest without its binary. */
  ghost predicate Outcomes(pins: Pins, files: Files, was: Option<Record>) {
    || Settled(pins, files, Some(Pinned(pins)))
    || Settled(pins, files, was)
    || (was.Some? && was.value.digest != pins.artifact.binary
        && Clean(pins, files) && Governed(pins, files, was.value) && Stuck(files, was.value))
  }

  // ---------------------------------------------------------------- install

  /** However a transaction ends, it touches no skill and no quarantine entry. */
  lemma InstallKeepsSkills(pins: Pins, orig: Files, ref: Files, files: Files, binary: Content, pid: nat, faults: Faults,
                           gone: nat)
    requires var items := InstallItems(pins, binary);
             || Committed(orig, files, items, pid)
             || (Residue(orig, ref, items, pid, faults, gone, 0)
                 && (RestoredBut(ref, files, items, pid, faults) || Torn(ref, files, items, pid)))
    ensures forall c | c != "gws" :: Same(orig, files, Target(c))
    ensures forall c, at :: Same(orig, files, Quarantine(c, at))
  {
    var items := InstallItems(pins, binary);
    forall p: Path | (p.Target? && p.component != "gws") || p.Quarantine? ensures Same(orig, files, p) {
      assert Foreign(items, pid, p);
      if !Committed(orig, files, items, pid) {
        assert Same(orig, ref, p);
      }
    }
  }

  lemma InstallConserves(before: Files, middle: Files, after: Files, records: map<string, Record>)
    requires AllConserved(before, middle, records)
    requires forall c | c != "gws" :: Same(middle, after, Target(c))
    requires forall c, at :: Same(middle, after, Quarantine(c, at))
    ensures AllConserved(before, after, records - {"gws"})
  {
    forall c | c in records && c != "gws" ensures Conserved(before, after, c, records[c]) {
      assert Conserved(before, middle, c, records[c]) && Same(middle, after, Target(c));
      if Quarantined(before, middle, c) {
        var at :| HoldsBytes(before, middle, c, at);
        assert Same(middle, after, Quarantine(c, at));
        assert HoldsBytes(before, after, c, at);
      }
    }
  }

  /** The original file is at its path, or in the install's backup of it. */
  predicate Kept(before: Files, after: Files, t: Path, pid: nat) {
    t in before ==> Same(before, after, t) || Away(before, after, t, pid)
  }

  /** What is left then: the manifest and everything else as before, without the binary. The next install
      is not refused. */
  lemma LostBinary(pins: Pins, orig: Files, files: Files, binary: Content, pid: nat, was: Option<Record>)
    requires Settled(pins, orig, was) && GWS in orig
    requires Restored(orig - {GWS, Backup(GWS, pid)}, files, InstallItems(pins, binary), pid)
    ensures was.Some? && Lists(pins, files, Manifest, was.value)
    ensures GWS !in files && Backup(GWS, pid) !in files
    ensures PreflightPasses(files, Candidate(files, Manifest).value.components)
  {
    var left, items := orig - {GWS, Backup(GWS, pid)}, InstallItems(pins, binary);
    assert Same(left, files, items[0].target) && SlotRestored(left, files, items[0].target, pid);
    assert Same(left, files, items[1].target);
  }

  /** A manifest of the old or of the new installation governs. */
  ghost predicate Manifested(pins: Pins, files: Files, was: Option<Record>) {
    Governed(pins, files, Pinned(pins)) || (was.Some? && Governed(pins, files, was.value))
  }

  /** Killed while the exception that lost the binary is handled. */
  lemma LostTorn(pins: Pins, orig: Files, files: Files, binary: Content, pid: nat, was: Option<Record>)
    requires ValidPins(pins) && Sha256(binary) == pins.artifact.binary && Settled(pins, orig, was) && GWS in orig
    requires Torn(orig - {GWS, Backup(GWS, pid)}, files, InstallItems(pins, binary), pid)
    ensures Manifested(pins, files, was) && (GWS in files ==> Matches(files[GWS], Pinned(pins)))
  {
    var left, items := orig - {GWS, Backup(GWS, pid)}, InstallItems(pins, binary);
    assert TornItem(left, files, items[0], pid) && TornItem(left, files, items[1], pid);
    forall n ensures !TrustedAt(pins, left, Stage(Manifest, n)) {
      assert !TrustedAt(pins, orig, Stage(Manifest, n));
    }
    forall q ensures !TrustedAt(pins, left, Backup(Manifest, q)) {
      assert !TrustedAt(pins, orig, Backup(Manifest, q));
    }
    if Placed(files, items[1]) {
      NewManifestLists(pins, files, binary, Manifest);
    } else {
      TornManifest(pins, left, files, binary, pid, was.value);
    }
  }

  /** The manifest is the second of the two files, and its backup the second to be removed. */
  const MANIFEST_BACKUP := Some(1)

  /** With no fault in the undo, what is left to restore is everything, or everything without the binary. */
  lemma SteadyLeft(pins: Pins, orig: Files, ref: Files, files: Files, binary: Content, pid: nat, faults: Faults,
                   cleaned: nat, o: Fate)
    requires Steady(faults, 2) && cleaned <= 1
    requires Residue(orig, ref, InstallItems(pins, binary), pid, faults, cleaned, 0)
    requires o.Raised? ==> RestoredBut(ref, files, InstallItems(pins, binary), pid, faults)
    ensures ref == if cleaned == 1 && GWS in orig then orig - {GWS, Backup(GWS, pid)} else orig
    ensures o.Raised? ==> Restored(ref, files, InstallItems(pins, binary), pid)
  {
    var items := InstallItems(pins, binary);
    assert ResidueOf(orig, ref, items[0], pid, faults.undo(0), 0 < cleaned);
    assert ResidueOf(orig, ref, items[1], pid, faults.undo(1), 1 < cleaned);
    forall p: Path | p != GWS && p != Backup(GWS, pid)
      ensures (p in ref <==> p in orig) && (p in orig ==> ref[p] == orig[p])
    {
      if p != Manifest && p != Backup(Manifest, pid) {
        assert Foreign(items, pid, p);
        assert Same(orig, ref, p);
      }
    }
  }

  /** How an install ends when no operation of its undo raises. */
  ghost predicate Ends(pins: Pins, files: Files, was: Option<Record>, o: Fate, lost: bool) {
    if lost then
      && Manifested(pins, files, was) && (GWS in files ==> Matches(files[GWS], Pinned(pins)))
      && (o.Raised? ==> was.Some? && Lists(pins, files, Manifest, was.value) && GWS !in files)
    else
      Survivable(pins, files, was) && (o.Raised? ==> Settled(pins, files, was))
  }

  lemma InstallEnds(pins: Pins, orig: Files, ref: Files, files: Files, binary: Content, pid: nat, faults: Faults,
                    cleaned: nat, o: Fate, was: Option<Record>)
    requires ValidPins(pins) && Sha256(binary) == pins.artifact.binary && Settled(pins, orig, was)
    requires Residue(orig, ref, InstallItems(pins, binary), pid, faults, cleaned, 0) && cleaned <= 1 && !o.Done?
    requires o.Raised? ==> RestoredBut(ref, files, InstallItems(pins, binary), pid, faults)
    requires o.Killed? ==> Torn(ref, files, InstallItems(pins, binary), pid)
    ensures Steady(faults, 2) ==> Ends(pins, files, was, o, cleaned == 1 && GWS in orig)
  {
    if Steady(faults, 2) {
      SteadyLeft(pins, orig, ref, files, binary, pid, faults, cleaned, o);
      if cleaned == 1 && GWS in orig {
        if o.Killed? {
          LostTorn(pins, orig, files, binary, pid, was);
        } else {
          LostBinary(pins, orig, files, binary, pid, was);
        }
      } else if o.Killed? {
        TornSurvivable(pins, orig, files, binary, pid, was);
      } else {
        RestoredSettled(pins, orig, files, binary, pid, was);
        SettledSurvivable(pins, files, was);
      }
    }
  }

  lemma RaisedKeeps(pins: Pins, orig: Files, ref: Files, files: Files, binary: Content, pid: nat, faults: Faults,
                    cleaned: nat, o: Fate)
    requires Residue(orig, ref, InstallItems(pins, binary), pid, faults, cleaned, 0) && cleaned <= 1
    requires o.Raised? ==> RestoredBut(ref, files, InstallItems(pins, binary), pid, faults)
    ensures o.Raised? && !(cleaned == 1 && GWS in orig) ==> Kept(orig, files, GWS, pid)
    ensures o.Raised? ==> Kept(orig, files, Manifest, pid)
  {
    var items := InstallItems(pins, binary);
    if o.Raised? && GWS in orig && cleaned == 0 {
      OriginalsConserved(orig, ref, files, items, pid, faults, cleaned, 0);
    }
    if o.Raised? && Manifest in orig {
      OriginalsConserved(orig, ref, files, items, pid, faults, cleaned, 1);
    }
  }

  /** The part of the install after the skills are retired. late is the file whose backup cannot be removed
      after the commit, and faults are those of an undo. lost: that file is the manifest, and the binary, whose
      backup is gone by then, could not be put back. */
  method InstallFiles(vol: Volume, pins: Pins, binary: Content, pid: nat, late: Option<nat>, faults: Faults,
                      ghost was: Option<Record>)
    returns (o: Fate, ghost lost: bool)
    requires ValidPins(pins) && Sha256(binary) == pins.artifact.binary
    modifies vol
    ensures lost ==> late == MANIFEST_BACKUP && GWS in old(vol.files) && !o.Done?
    ensures o.Done? ==> Installed(pins, vol.files, Pinned(pins)) && Fresh(pins, vol.files, binary)
    ensures Settled(pins, old(vol.files), was) ==>
              && (o.Done? ==> Settled(pins, vol.files, Some(Pinned(pins))))
              && (Steady(faults, 2) ==> Ends(pins, vol.files, was, o, lost))
    ensures o.Raised? && !lost ==> Kept(old(vol.files), vol.files, GWS, pid)
    ensures o.Raised? ==> Kept(old(vol.files), vol.files, Manifest, pid)
    ensures forall c | c != "gws" :: Same(old(vol.files), vol.files, Target(c))
    ensures forall c, at :: Same(old(vol.files), vol.files, Quarantine(c, at))
    ensures vol.failures >= old(vol.failures)
    ensures o.Done? <==> vol.failures == old(vol.failures)
  {
    ghost var orig, cleaned, ref := vol.files, 0, vol.files;
    ghost var items := InstallItems(pins, binary);
    InstallItemsDistinct(pins, binary);
    o, cleaned, ref := TransactionalInstall(vol, InstallItems(pins, binary), pid, late, faults);
    lost := cleaned == 1 && GWS in orig;
    InstallKeepsSkills(pins, orig, ref, vol.files, binary, pid, faults, cleaned);
    if o.Done? {
      CommittedInstalled(pins, orig, vol.files, binary, pid);
    } else {
      RaisedKeeps(pins, orig, ref, vol.files, binary, pid, faults, cleaned, o);
    }
    if Settled(pins, orig, was) {
      if o.Done? {
        CommittedSettled(pins, orig, vol.files, binary, pid, was);
      } else {
        InstallEnds(pins, orig, ref, vol.files, binary, pid, faults, cleaned, o, was);
      }
    }
  }

  /** A managed binary must be unmodified, and an unmanaged one must not be there. */
  predicate PreflightPasses(files: Files, records: map<string, Record>) {
    if "gws" in records then GWS in files ==> Matches(files[GWS], records["gws"]) else GWS !in files
  }

  /** What a manifest in place lists; nothing if there is none. */
  function Listed(pins: Pins, files: Files): map<string, Record> {
    if TrustedAt(pins, files, Manifest) then Candidate(files, Manifest).value.components else map[]
  }

  /** What an install does not go on over: a manifest that is not accepted, a modified managed binary, or an
      unmanaged file where the binary goes. */
  predicate Declined(pins: Pins, files: Files) {
    Refused(pins, files) || !PreflightPasses(files, Listed(pins, files))
  }

  lemma DeclinedMeans(pins: Pins, files: Files)
    ensures Declined(pins, files)
            <==> || (Manifest in files && !TrustedAt(pins, files, Manifest))
                 || (GWS in files
                     && ("gws" in Listed(pins, files) ==> !Matches(files[GWS], Listed(pins, files)["gws"])))
  {
  }

  lemma SettledPasses(pins: Pins, files: Files, was: Option<Record>)
    requires Settled(pins, files, was)
    ensures !Declined(pins, files)
  {
  }

  /** Preflight, retirement of legacy skills, and the transaction, with late and faults as there. It finishes
      exactly if no operation fails, the preflight passes and every legacy skill can be removed or moved. */
  method InstallLocked(vol: Volume, pins: Pins, binary: Content, pid: nat, now: nat, late: Option<nat>, faults: Faults,
                       ghost was: Option<Record>)
    returns (o: Fate, ghost lost: bool)
    requires ValidPins(pins) && Sha256(binary) == pins.artifact.binary
    requires forall c :: Quarantine(c, now) !in vol.files
    modifies vol
    ensures lost ==> late == MANIFEST_BACKUP && GWS in old(vol.files) && !o.Done?
    ensures Declined(pins, old(vol.files)) ==> o.Raised? && vol.files == old(vol.files)
    ensures o.Done? ==> Installed(pins, vol.files, Pinned(pins)) && Fresh(pins, vol.files, binary)
    ensures Settled(pins, old(vol.files), was) ==>
              && (o.Done? ==> Settled(pins, vol.files, Some(Pinned(pins))))
              && (Steady(faults, 2) ==> Ends(pins, vol.files, was, o, lost))
    ensures o.Raised? && !lost ==> Kept(old(vol.files), vol.files, GWS, pid)
    ensures o.Raised? ==> Kept(old(vol.files), vol.files, Manifest, pid)
    ensures AllConserved(old(vol.files), vol.files, Listed(pins, old(vol.files)) - {"gws"})
    ensures vol.failures >= old(vol.failures)
    ensures o.Done? <==>
              && vol.failures == old(vol.failures)
              && !Declined(pins, old(vol.files))
              && forall c | c in Listed(pins, old(vol.files)) && c != "gws" ::
                   !Stays(old(vol.files), c, Listed(pins, old(vol.files))[c])
  {
    lost := false;
    ghost var before := vol.files;
    if Settled(pins, before, was) {
      SettledSurvivable(pins, before, was);
    }
    if Manifest in vol.files && !TrustedAt(pins, vol.files, Manifest) {
      o := Raised;
      return;
    }
    var records := if Manifest in vol.files then Candidate(vol.files, Manifest).value.components else map[];
    assert records == Listed(pins, before);
    if !PreflightPasses(vol.files, records) {
      o := Raised;
      return;
    }
    var preserved;
    o, preserved := RetireAll(vol, records, records.Keys - {"gws"}, true, now);
    ghost var orig := vol.files;
    RetiredSettled(pins, before, orig, records.Keys - {"gws"}, was);
    if !o.Done? {
      InstallConserves(before, orig, orig, records);
      return;
    }
    o, lost := InstallFiles(vol, pins, binary, pid, late, faults, was);
    InstallConserves(before, orig, vol.files, records);
  }

  /** Only skill targets and quarantine entries may differ. */
  ghost predicate SkillsOnly(before: Files, after: Files) {
    forall p: Path | !(p.Target? && p != GWS) && !p.Quarantine? :: Same(before, after, p)
  }

  lemma SkillsOnlySettled(pins: Pins, before: Files, after: Files, was: Option<Record>)
    requires Settled(pins, before, was) && SkillsOnly(before, after)
    ensures Settled(pins, after, was)
  {
    assert Same(before, after, Manifest) && Same(before, after, GWS);
    forall n ensures !TrustedAt(pins, after, Stage(Manifest, n)) {
      assert Same(before, after, Stage(Manifest, n));
      assert !TrustedAt(pins, before, Stage(Manifest, n));
    }
    forall q ensures !TrustedAt(pins, after, Backup(Manifest, q)) {
      assert Same(before, after, Backup(Manifest, q));
      assert !TrustedAt(pins, before, Backup(Manifest, q));
    }
  }

  lemma RetiredSettled(pins: Pins, before: Files, after: Files, which: set<string>, was: Option<Record>)
    requires OnlyThose(before, after, which) && "gws" !in which
    ensures Same(before, after, GWS) && Same(before, after, Manifest)
    ensures forall q :: Same(before, after, Backup(GWS, q)) && Same(before, after, Backup(Manifest, q))
    ensures Settled(pins, before, was) ==> Settled(pins, after, was) && Survivable(pins, after, was)
  {
    assert !Belongs(GWS, which) && !Belongs(Manifest, which);
    forall q ensures Same(before, after, Backup(GWS, q)) && Same(before, after, Backup(Manifest, q)) {
      assert !Belongs(Backup(GWS, q), which) && !Belongs(Backup(Manifest, q), which);
    }
    if Settled(pins, before, was) {
      forall p: Path | !(p.Target? && p != GWS) && !p.Quarantine? ensures Same(before, after, p) {
        assert !Belongs(p, which);
      }
      SkillsOnlySettled(pins, before, after, was);
      SettledSurvivable(pins, after, was);
    }
  }

  lemma CommittedInstalled(pins: Pins, orig: Files, files: Files, binary: Content, pid: nat)
    requires ValidPins(pins) && Sha256(binary) == pins.artifact.binary
    requires Committed(orig, files, InstallItems(pins, binary), pid)
    ensures Installed(pins, files, Pinned(pins)) && Fresh(pins, files, binary)
  {
    var items := InstallItems(pins, binary);
    assert Placed(files, items[0]) && Placed(files, items[1]);
    NewManifestLists(pins, files, binary, Manifest);
  }

  /** The two files of an installation: the binary, executable, and a whole manifest of the pinned version that
      lists it alone, for the owner only. */
  predicate Fresh(pins: Pins, files: Files, binary: Content) {
    && GWS in files && files[GWS] == File(binary, 0x1ed, true, true)
    && Manifest in files && OwnerOnly(files[Manifest])
    && files[Manifest].content
       == ManifestText(Doc(true, pins.version, pins.artifact.architecture, pins.artifact.archive,
                           map["gws" := Record(Target("gws"), pins.artifact.binary, 0x1ed, pins.artifact.url)], false))
  }

  lemma RestoredSettled(pins: Pins, orig: Files, files: Files, binary: Content, pid: nat, was: Option<Record>)
    requires Settled(pins, orig, was) && Restored(orig, files, InstallItems(pins, binary), pid)
    ensures Settled(pins, files, was)
  {
    var items := InstallItems(pins, binary);
    assert Same(orig, files, items[0].target) && Same(orig, files, items[1].target);
    assert SlotRestored(orig, files, items[1].target, pid);
    forall n ensures !TrustedAt(pins, files, Stage(Manifest, n)) {
      assert Foreign(items, pid, Stage(Manifest, n));
      assert !TrustedAt(pins, orig, Stage(Manifest, n));
    }
    forall q ensures !TrustedAt(pins, files, Backup(Manifest, q)) {
      assert !TrustedAt(pins, orig, Backup(Manifest, q));
      if q != pid {
        assert Foreign(items, pid, Backup(Manifest, q));
      }
    }
  }

  lemma CommittedSettled(pins: Pins, orig: Files, files: Files, binary: Content, pid: nat, was: Option<Record>)
    requires ValidPins(pins) && Sha256(binary) == pins.artifact.binary
    requires Settled(pins, orig, was) && Committed(orig, files, InstallItems(pins, binary), pid)
    ensures Settled(pins, files, Some(Pinned(pins)))
    ensures Governed(pins, files, Pinned(pins)) && Sound(files, Pinned(pins))
  {
    var items := InstallItems(pins, binary);
    assert Placed(files, items[0]) && Placed(files, items[1]);
    NewManifestLists(pins, files, binary, Manifest);
    assert SlotRestored(orig, files, items[1].target, pid);
    forall n ensures !TrustedAt(pins, files, Stage(Manifest, n)) {
      assert Foreign(items, pid, Stage(Manifest, n));
      assert !TrustedAt(pins, orig, Stage(Manifest, n));
    }
    forall q ensures !TrustedAt(pins, files, Backup(Manifest, q)) {
      assert !TrustedAt(pins, orig, Backup(Manifest, q));
      if q != pid {
        assert Foreign(items, pid, Backup(Manifest, q));
      }
    }
  }

  /** Crash recovery: kill an install wherever it may die, kill recovery any number of times, and let
      one recovery finish. */
  method InstallDiesThenRecover(vol: Volume, pins: Pins, binary: Content, pid: nat, now: nat, deaths: nat,
                                late: Option<nat>, faults: Faults, ghost was: Option<Record>)
    returns (o: Fate, ghost lost: bool)
    requires ValidPins(pins) && Sha256(binary) == pins.artifact.binary
    requires Settled(pins, vol.files, was)
    requires forall c :: Quarantine(c, now) !in vol.files
    modifies vol
    ensures lost ==> late == MANIFEST_BACKUP && was.Some?
    ensures Steady(faults, 2) ==>
              if lost then Manifested(pins, vol.files, was)
              else Survivable(pins, vol.files, was) && (o.Done? ==> Outcomes(pins, vol.files, was))
    ensures Steady(faults, 2) && vol.failures == old(vol.failures) ==> o.Done?
  {
    o, lost := InstallLocked(vol, pins, binary, pid, now, late, faults, was);
    for k := 0 to deaths
      invariant Steady(faults, 2) ==>
                  if lost then Manifested(pins, vol.files, was) else Survivable(pins, vol.files, was)
      invariant vol.failures >= old(vol.failures)
    {
      o := RecoverSurvivable(vol, pins, was);
    }
    o := RecoverSurvivable(vol, pins, was);
  }

  /** A manifest in place over a state that an install can leave is never refused. */
  lemma SurvivableNotRefused(pins: Pins, files: Files, was: Option<Record>)
    requires Survivable(pins, files, was) || Manifested(pins, files, was)
    ensures !Refused(pins, files)
  {
  }

  /** Whatever an install can leave, a recovery during which no operation fails finishes, and one that does not
      finish leaves a state that the next one can take up. */
  method RecoverSurvivable(vol: Volume, pins: Pins, ghost was: Option<Record>) returns (o: Fate)
    modifies vol
    ensures old(Survivable(pins, vol.files, was)) ==>
              && Survivable(pins, vol.files, was)
              && (o.Done? <==> vol.failures == old(vol.failures))
              && (o.Done? ==> Outcomes(pins, vol.files, was))
    ensures old(Manifested(pins, vol.files, was)) ==>
              Manifested(pins, vol.files, was) && (o.Done? <==> vol.failures == old(vol.failures))
    ensures vol.failures >= old(vol.failures)
  {
    ghost var before := vol.files;
    o := RecoverInterruptedInstall(vol, pins, Governor(pins, before, was));
    if Survivable(pins, before, was) || Manifested(pins, before, was) {
      SurvivableNotRefused(pins, before, was);
    }
    if Survivable(pins, before, was) {
      RecoveryKeeps(pins, before, vol.files, was, o.Done?);
    }
  }

  /** The record whose manifest governs. */
  ghost function Governor(pins: Pins, files: Files, was: Option<Record>): Record {
    if was.None? || Governed(pins, files, Pinned(pins)) then Pinned(pins) else was.value
  }

  /** Recovery, finished or killed, keeps a survivable state survivable; a finished one settles it. */
  lemma RecoveryKeeps(pins: Pins, before: Files, after: Files, was: Option<Record>, done: bool)
    requires Survivable(pins, before, was)
    requires Recovers(pins, before, after, Governor(pins, before, was), done)
    ensures Survivable(pins, after, was)
    ensures done ==> Outcomes(pins, after, was)
  {
  }

  /** If every trusted release pins the same binary, an install that was present is always present
      again, and otherwise the result is the new installation or nothing at all. */
  lemma OutcomesWithOneBinary(pins: Pins, files: Files, was: Option<Record>)
    requires Outcomes(pins, files, was)
    requires was.Some? ==> was.value.digest == pins.artifact.binary
    ensures was.Some? ==> Installed(pins, files, was.value) || Installed(pins, files, Pinned(pins))
    ensures was.None? ==> Absent(files) || Installed(pins, files, Pinned(pins))
  {
  }
}
