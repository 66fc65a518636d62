/** Upgrades between releases: the files wherever the process may die, and exactly when recovery repairs them. */
module AppUpgrade {
  import opened Text
  import opened Disk
  import opened Releases
  import opened Transaction
  import opened AppRecovery
  import opened AppManager

  // ---------------------------------------------------------------- the operations of an upgrade, one by one

  datatype FileOp = Write(at: Path, f: File) | Drop(at: Path) | Move(src: Path, dst: Path)

  function Perform(files: Files, op: FileOp): Files {
    match op
    case Write(at, f) => files[at := f]
    case Drop(at) => files - {at}
    case Move(src, dst) => if src in files then (files - {src})[dst := files[src]] else files
  }

  /** What an install over an installation does: stage both files, replace each, with its original moved to a
      backup whose slot is cleared first, and remove the backups. */
  function UpgradeOps(items: seq<Item>, pid: nat, m: nat, n: nat): seq<FileOp>
    requires |items| == 2
  {
    var t0, b0, s0 := items[0].target, Backup(items[0].target, pid), Stage(items[0].target, m);
    var t1, b1, s1 := items[1].target, Backup(items[1].target, pid), Stage(items[1].target, n);
    [Write(s0, NewFile(items[0])), Write(s1, NewFile(items[1])),
     Drop(b0), Move(t0, b0), Move(s0, t0),
     Drop(b1), Move(t1, b1), Move(s1, t1),
     Drop(b0), Drop(b1)]
  }

  /** The files when the process dies after the first j operations. */
  function KilledAfter(orig: Files, ops: seq<FileOp>, j: nat): Files
    requires j <= |ops|
  {
    if j == 0 then orig else Perform(KilledAfter(orig, ops, j - 1), ops[j - 1])
  }

  /** What the binary and the manifest are at such a point, and that nothing else differs but the stage files. */
  ghost predicate Point(pins: Pins, orig: Files, files: Files, binary: Content, pid: nat, m: nat, n: nat) {
    var items := InstallItems(pins, binary);
    && TornItem(orig, files, items[0], pid) && TornItem(orig, files, items[1], pid)
    && (Same(orig, files, Manifest) || Placed(files, items[0]))
    && (Stage(GWS, m) in files ==> files[Stage(GWS, m)] == NewFile(items[0]))
    && (Stage(Manifest, n) in files ==> files[Stage(Manifest, n)] == NewFile(items[1]))
    && forall p | Foreign(items, pid, p) && p != Stage(GWS, m) && p != Stage(Manifest, n) :: Same(orig, files, p)
  }

  lemma PointTorn(pins: Pins, orig: Files, files: Files, binary: Content, pid: nat, m: nat, n: nat)
    requires Point(pins, orig, files, binary, pid, m, n)
    requires Stage(GWS, m) !in orig && Stage(Manifest, n) !in orig
    ensures Torn(orig, files, InstallItems(pins, binary), pid)
  {
    var items := InstallItems(pins, binary);
    forall p | p in files && p !in orig && Foreign(items, pid, p) ensures Staged(items, p, files[p]) {
      if p == Stage(GWS, m) {
        assert p.of == items[0].target;
      } else {
        assert p == Stage(Manifest, n) && p.of == items[1].target;
      }
    }
  }

  /** The files after each operation, written out. */
  function StateAt(pins: Pins, orig: Files, binary: Content, pid: nat, m: nat, n: nat, j: nat): Files
    requires GWS in orig && Manifest in orig
  {
    var items := InstallItems(pins, binary);
    var new0, new1, b0, b1 := NewFile(items[0]), NewFile(items[1]), Backup(GWS, pid), Backup(Manifest, pid);
    var staged := orig[Stage(GWS, m) := new0][Stage(Manifest, n) := new1];
    var half := staged - {Stage(GWS, m)};
    var first := half[b0 := orig[GWS]][GWS := new0];
    var second := (first - {Stage(Manifest, n)})[b1 := orig[Manifest]][Manifest := new1];
    match j
    case 0 => orig
    case 1 => orig[Stage(GWS, m) := new0]
    case 2 => staged
    case 3 => staged - {b0}
    case 4 => (staged - {GWS})[b0 := orig[GWS]]
    case 5 => first
    case 6 => first - {b1}
    case 7 => (first - {Manifest})[b1 := orig[Manifest]]
    case 8 => second
    case 9 => second - {b0}
    case _ => second - {b0} - {b1}
  }

  lemma {:induction false} KilledAt(pins: Pins, orig: Files, binary: Content, pid: nat, m: nat, n: nat, j: nat)
    requires GWS in orig && Manifest in orig && Stage(GWS, m) !in orig && Stage(Manifest, n) !in orig && j <= 10
    ensures KilledAfter(orig, UpgradeOps(InstallItems(pins, binary), pid, m, n), j)
            == StateAt(pins, orig, binary, pid, m, n, j)
  {
    if j > 0 {
      KilledAt(pins, orig, binary, pid, m, n, j - 1);
      StateNext(pins, orig, binary, pid, m, n, j - 1);
    }
  }

  lemma StateNext(pins: Pins, orig: Files, binary: Content, pid: nat, m: nat, n: nat, j: nat)
    requires GWS in orig && Manifest in orig && Stage(GWS, m) !in orig && Stage(Manifest, n) !in orig && j < 10
    ensures Perform(StateAt(pins, orig, binary, pid, m, n, j), UpgradeOps(InstallItems(pins, binary), pid, m, n)[j])
            == StateAt(pins, orig, binary, pid, m, n, j + 1)
  {
    var before := StateAt(pins, orig, binary, pid, m, n, j);
    var after := StateAt(pins, orig, binary, pid, m, n, j + 1);
    if j == 0 {
    } else if j == 1 {
    } else if j == 2 {
    } else if j == 3 {
    } else if j == 4 {
    } else if j == 5 {
    } else if j == 6 {
    } else if j == 7 {
    } else if j == 8 {
    } else {
    }
  }

  lemma StatePoint(pins: Pins, orig: Files, binary: Content, pid: nat, m: nat, n: nat, j: nat)
    requires GWS in orig && Manifest in orig && Stage(GWS, m) !in orig && Stage(Manifest, n) !in orig && j <= 10
    ensures Point(pins, orig, StateAt(pins, orig, binary, pid, m, n, j), binary, pid, m, n)
  {
    var files, items := StateAt(pins, orig, binary, pid, m, n, j), InstallItems(pins, binary);
    forall p | Foreign(items, pid, p) && p != Stage(GWS, m) && p != Stage(Manifest, n) ensures Same(orig, files, p) {
      assert p != items[0].target && p != items[1].target;
      assert p != Backup(items[0].target, pid) && p != Backup(items[1].target, pid);
    }
  }

  /** Wherever the upgrade dies, the files are in one of the torn states. */
  lemma KillsAreTorn(pins: Pins, orig: Files, binary: Content, pid: nat, m: nat, n: nat, j: nat)
    requires GWS in orig && Manifest in orig && Stage(GWS, m) !in orig && Stage(Manifest, n) !in orig && j <= 10
    ensures var items := InstallItems(pins, binary);
            Torn(orig, KilledAfter(orig, UpgradeOps(items, pid, m, n), j), items, pid)
  {
    KilledAt(pins, orig, binary, pid, m, n, j);
    StatePoint(pins, orig, binary, pid, m, n, j);
    PointTorn(pins, orig, StateAt(pins, orig, binary, pid, m, n, j), binary, pid, m, n);
  }

  // ---------------------------------------------------------------- where recovery does not repair

  /** A stuck state stays refused: the next install's preflight does not pass. */
  lemma StuckIsRefused(pins: Pins, files: Files, r: Record)
    requires Manifest in files && Governed(pins, files, r) && Stuck(files, r)
    ensures !PreflightPasses(files, Candidate(files, Manifest).value.components)
    ensures !Installed(pins, files, r)
  {
  }

  /** Two trusted releases with different binaries, the older one installed. */
  function TwoReleases(): Pins {
    var old_ := Artifact("x86_64", "old", "a1", Sha256(Blob([1])));
    var new_ := Artifact("x86_64", "new", "a2", Sha256(Blob([2])));
    Pins(map["1" := Release(map["x86_64" := old_], map[]), "2" := Release(map["x86_64" := new_], map[])], "2", new_)
  }

  function OlderInstalled(): Files {
    var r := Record(GWS, Sha256(Blob([1])), EXECUTABLE, "old");
    map[GWS := File(Blob([1]), EXECUTABLE, true, true),
        Manifest := File(ManifestText(Doc(true, "1", "x86_64", "a1", map["gws" := r], false)), OWNER_ONLY, true, true)]
  }

  /** Such a table and such an installation exist. */
  lemma OlderReleaseSettled()
    ensures var pins, orig := TwoReleases(), OlderInstalled();
            var r := Record(GWS, Sha256(Blob([1])), EXECUTABLE, "old");
            ValidPins(pins) && Settled(pins, orig, Some(r)) && r.digest != pins.artifact.binary
  {
    var pins, orig := TwoReleases(), OlderInstalled();
    var r := Record(GWS, Sha256(Blob([1])), EXECUTABLE, "old");
    var doc := orig[Manifest].content.doc;
    assert [1 as bv8][0] != [2 as bv8][0];
    assert pins.releases["1"].skills == map[];
    assert ExpectedRecords(pins.releases["1"].artifacts["x86_64"], pins.releases["1"]) == map["gws" := r];
    assert ValidateManifest(pins, doc) == Some(doc.components);
  }

  /** No recovery repairs a stuck state. */
  lemma StuckForGood(pins: Pins, files: Files, after: Files, r: Record, done: bool)
    requires Governed(pins, files, r) && Stuck(files, r) && Recovers(pins, files, after, r, done)
    ensures Governed(pins, after, r) && Stuck(after, r)
  {
  }

  /** After the fifth operation the new binary is in place, and the manifest is still the old one. */
  lemma FifthState(pins: Pins, orig: Files, binary: Content, pid: nat, m: nat, n: nat)
    requires GWS in orig && Manifest in orig && Stage(GWS, m) !in orig && Stage(Manifest, n) !in orig
    ensures var items := InstallItems(pins, binary);
            var files := KilledAfter(orig, UpgradeOps(items, pid, m, n), 5);
            Torn(orig, files, items, pid) && Placed(files, items[0]) && Same(orig, files, Manifest)
  {
    KillsAreTorn(pins, orig, binary, pid, m, n, 5);
    KilledAt(pins, orig, binary, pid, m, n, 5);
  }

  lemma WindowStuck(pins: Pins, orig: Files, files: Files, binary: Content, pid: nat, r: Record)
    requires ValidPins(pins) && Sha256(binary) == pins.artifact.binary
    requires Settled(pins, orig, Some(r)) && r.digest != pins.artifact.binary
    requires Torn(orig, files, InstallItems(pins, binary), pid)
    requires Placed(files, InstallItems(pins, binary)[0]) && Same(orig, files, Manifest)
    ensures Governed(pins, files, r) && Stuck(files, r)
  {
    NewManifestApart(pins, orig, binary, r);
    TornFromInstalled(pins, orig, files, binary, pid, r);
  }

  /** Every installation of a release with another binary can be killed, after the fifth operation of the
      upgrade, into a state in which its manifest governs a binary that it does not pin, and which no
      recovery repairs. */
  lemma UpgradeWindowStuck(pins: Pins, orig: Files, binary: Content, pid: nat, m: nat, n: nat, r: Record)
    requires ValidPins(pins) && Sha256(binary) == pins.artifact.binary
    requires Settled(pins, orig, Some(r)) && r.digest != pins.artifact.binary
    requires Stage(GWS, m) !in orig && Stage(Manifest, n) !in orig
    ensures var files := KilledAfter(orig, UpgradeOps(InstallItems(pins, binary), pid, m, n), 5);
            && Governed(pins, files, r) && Stuck(files, r)
            && forall after, done | Recovers(pins, files, after, r, done) :: Governed(pins, after, r) && Stuck(after, r)
  {
    var files := KilledAfter(orig, UpgradeOps(InstallItems(pins, binary), pid, m, n), 5);
    FifthState(pins, orig, binary, pid, m, n);
    WindowStuck(pins, orig, files, binary, pid, r);
    forall after, done | Recovers(pins, files, after, r, done) ensures Governed(pins, after, r) && Stuck(after, r) {
      StuckForGood(pins, files, after, r, done);
    }
  }

  /** The manifest of another binary is not the one that the install writes. */
  lemma NewManifestApart(pins: Pins, orig: Files, binary: Content, r: Record)
    requires ValidPins(pins) && Lists(pins, orig, Manifest, r) && r.digest != pins.artifact.binary
    ensures orig[Manifest] != NewFile(InstallItems(pins, binary)[1])
  {
    if orig[Manifest] == NewFile(InstallItems(pins, binary)[1]) {
      NewManifestLists(pins, orig, binary, Manifest);
    }
  }

  /** The governing manifest has its binary. */
  ghost predicate Repairable(pins: Pins, files: Files, r: Record) {
    || (Governed(pins, files, Pinned(pins)) && Sound(files, Pinned(pins)))
    || (Governed(pins, files, r) && Sound(files, r))
  }

  lemma StuckNotRepairable(pins: Pins, files: Files, r: Record)
    requires Governed(pins, files, r) && Stuck(files, r) && r != Pinned(pins)
    ensures !Repairable(pins, files, r)
  {
    if Governed(pins, files, Pinned(pins)) {
      GovernsOne(pins, files, r, Pinned(pins));
    }
  }

  /** Crash recovery holds wherever an install over an installed record dies exactly if that record pins the
      binary being installed: at each operation of the upgrade, and in every torn state, those included that
      an exception and its undo go through. */
  lemma CrashRecoveryIff(pins: Pins, orig: Files, binary: Content, pid: nat, m: nat, n: nat, r: Record)
    requires ValidPins(pins) && Sha256(binary) == pins.artifact.binary && Settled(pins, orig, Some(r))
    requires Stage(GWS, m) !in orig && Stage(Manifest, n) !in orig
    ensures var ops := UpgradeOps(InstallItems(pins, binary), pid, m, n);
            (forall j | 0 <= j <= |ops| :: Repairable(pins, KilledAfter(orig, ops, j), r))
            <==> r.digest == pins.artifact.binary
    ensures (forall files | Torn(orig, files, InstallItems(pins, binary), pid) :: Repairable(pins, files, r))
            <==> r.digest == pins.artifact.binary
  {
    var ops := UpgradeOps(InstallItems(pins, binary), pid, m, n);
    forall j | 0 <= j <= |ops| ensures Torn(orig, KilledAfter(orig, ops, j), InstallItems(pins, binary), pid) {
      KillsAreTorn(pins, orig, binary, pid, m, n, j);
    }
    if r.digest == pins.artifact.binary {
      forall files | Torn(orig, files, InstallItems(pins, binary), pid) ensures Repairable(pins, files, r) {
        TornFromInstalled(pins, orig, files, binary, pid, r);
      }
    } else {
      UpgradeWindowStuck(pins, orig, binary, pid, m, n, r);
      StuckNotRepairable(pins, KilledAfter(orig, ops, 5), r);
    }
  }

  /** One record governs at a time. */
  lemma GovernsOne(pins: Pins, files: Files, r: Record, s: Record)
    requires Governed(pins, files, r) && Governed(pins, files, s)
    ensures r == s
  {
    if Manifest !in files {
      var q :| Lists(pins, files, Backup(Manifest, q), r);
      assert Lists(pins, files, Backup(Manifest, q), s);
    }
  }
}
