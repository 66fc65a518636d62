/** The transactional install of any number of payloads: stage, swap with backups, roll back, clean up. */
module Transaction {
  import opened Disk
  import opened Text

  datatype Item = Item(target: Path, content: Content, mode: nat)

  function NewFile(it: Item): File {
    File(it.content, it.mode, true, true)
  }

  predicate Plain(p: Path) {
    p.Target? || p.Manifest?
  }

  ghost predicate Items(items: seq<Item>) {
    && (forall i | 0 <= i < |items| :: Plain(items[i].target))
    && (forall i, j | 0 <= i < j < |items| :: items[i].target != items[j].target)
  }

  predicate Same(orig: Files, files: Files, p: Path) {
    (p in files <==> p in orig) && (p in orig ==> files[p] == orig[p])
  }

  predicate Away(orig: Files, files: Files, t: Path, pid: nat) {
    t in orig && t !in files && Backup(t, pid) in files && files[Backup(t, pid)] == orig[t]
  }

  predicate Placed(files: Files, it: Item) {
    it.target in files && files[it.target] == NewFile(it)
  }

  /** The backup slot holds what it held before, or the original, or nothing. */
  predicate SlotOk(orig: Files, files: Files, t: Path, pid: nat) {
    Backup(t, pid) in files ==>
      (t in orig && files[Backup(t, pid)] == orig[t]) || Same(orig, files, Backup(t, pid))
  }

  /** A path that belongs to no item. */
  ghost predicate Foreign(items: seq<Item>, pid: nat, p: Path) {
    forall i | 0 <= i < |items| :: p != items[i].target && p != Backup(items[i].target, pid)
  }

  /** A stage file of this transaction, whole or cut short. */
  ghost predicate Staged(items: seq<Item>, p: Path, f: File) {
    p.Stage? && exists i | 0 <= i < |items| ::
                  p.of == items[i].target && (f.content.Blob? || f == NewFile(items[i]))
  }

  predicate TornItem(orig: Files, files: Files, it: Item, pid: nat) {
    && (Same(orig, files, it.target) || Away(orig, files, it.target, pid) || Placed(files, it))
    && SlotOk(orig, files, it.target, pid)
  }

  /** What a kill can leave: each target is as before, moved to its backup, or new; targets are
      replaced in order; nothing else differs but this transaction's own stage files and backups. */
  ghost predicate Torn(orig: Files, files: Files, items: seq<Item>, pid: nat) {
    && (forall i | 0 <= i < |items| :: TornItem(orig, files, items[i], pid))
    && (forall i, j | 0 <= i < j < |items| :: Same(orig, files, items[j].target) || Placed(files, items[i]))
    && (forall p | p in orig && Foreign(items, pid, p) :: p in files && files[p] == orig[p])
    && (forall p | p in files && p !in orig && Foreign(items, pid, p) :: Staged(items, p, files[p]))
  }

  /** The new file is at the target, the original in the backup, and the stage file gone. */
  predicate InPlace(orig: Files, files: Files, it: Item, temp: nat, pid: nat) {
    && Placed(files, it)
    && (if it.target in orig then Backup(it.target, pid) in files && files[Backup(it.target, pid)] == orig[it.target]
        else Same(orig, files, Backup(it.target, pid)))
    && Stage(it.target, temp) !in files
  }

  /** The target and its backup slot are untouched and the stage file is ready. */
  predicate Waiting(orig: Files, files: Files, it: Item, temp: nat, pid: nat) {
    && Same(orig, files, it.target) && Same(orig, files, Backup(it.target, pid))
    && Stage(it.target, temp) in files && files[Stage(it.target, temp)] == NewFile(it)
  }

  /** The target is untouched or restored. */
  predicate Undone(orig: Files, files: Files, it: Item, temp: nat, pid: nat) {
    && Same(orig, files, it.target)
    && SlotRestored(orig, files, it.target, pid)
    && (Stage(it.target, temp) in files ==> files[Stage(it.target, temp)] == NewFile(it))
  }

  /** The state before item i is committed: the earlier ones are in place, the later ones wait. */
  ghost predicate Committing(orig: Files, files: Files, items: seq<Item>, temps: seq<nat>, pid: nat, i: nat)
    requires |temps| == |items|
  {
    && (forall j | 0 <= j < i && j < |items| :: InPlace(orig, files, items[j], temps[j], pid))
    && (forall j | i <= j < |items| :: Waiting(orig, files, items[j], temps[j], pid))
    && Frame(orig, files, items, temps, pid)
  }

  ghost predicate Mine(items: seq<Item>, temps: seq<nat>, p: Path)
    requires |temps| == |items|
  {
    exists j | 0 <= j < |items| :: p == Stage(items[j].target, temps[j])
  }

  /** Nothing but the items' targets, backups and own stage files differs. */
  ghost predicate Frame(orig: Files, files: Files, items: seq<Item>, temps: seq<nat>, pid: nat)
    requires |temps| == |items|
  {
    && (forall j | 0 <= j < |items| :: Stage(items[j].target, temps[j]) !in orig)
    && forall p | Foreign(items, pid, p) && !Mine(items, temps, p) :: Same(orig, files, p)
  }

  lemma CommittingTorn(orig: Files, files: Files, items: seq<Item>, temps: seq<nat>, pid: nat, i: nat)
    requires |temps| == |items| && Items(items) && Committing(orig, files, items, temps, pid, i)
    ensures Torn(orig, files, items, pid)
  {
    OwnStages(orig, files, items, temps, pid);
  }

  lemma OwnStages(orig: Files, files: Files, items: seq<Item>, temps: seq<nat>, pid: nat)
    requires |temps| == |items| && Frame(orig, files, items, temps, pid)
    requires forall j | 0 <= j < |items| && Stage(items[j].target, temps[j]) in files ::
               files[Stage(items[j].target, temps[j])] == NewFile(items[j])
    ensures forall p | p in orig && Foreign(items, pid, p) :: p in files && files[p] == orig[p]
    ensures forall p | p in files && p !in orig && Foreign(items, pid, p) :: Staged(items, p, files[p])
  {
    forall p | p in orig && Foreign(items, pid, p) ensures p in files && files[p] == orig[p] {
      assert !Mine(items, temps, p);
      assert Same(orig, files, p);
    }
    forall p | p in files && p !in orig && Foreign(items, pid, p) ensures Staged(items, p, files[p]) {
      assert !Mine(items, temps, p) ==> Same(orig, files, p);
      var j :| 0 <= j < |items| && p == Stage(items[j].target, temps[j]);
      assert p.of == items[j].target && files[p] == NewFile(items[j]);
    }
  }

  /** With item i moved to its backup, or with only the stale backup gone, the state is still torn. */
  lemma HalfCommittedTorn(orig: Files, files: Files, half: Files, items: seq<Item>, temps: seq<nat>, pid: nat, i: nat)
    requires |temps| == |items| && Items(items) && i < |items| && Committing(orig, files, items, temps, pid, i)
    requires var t, b := items[i].target, Backup(items[i].target, pid);
             || half == files - {b}
             || (t in files && half == (files - {b} - {t})[b := files[t]])
    ensures Torn(orig, half, items, pid)
  {
    CommittingTorn(orig, files, items, temps, pid, i);
    assert Waiting(orig, files, items[i], temps[i], pid);
    forall j | 0 <= j < |items| && j != i
      ensures Same(files, half, items[j].target) && Same(files, half, Backup(items[j].target, pid))
    {
      assert items[j].target != items[i].target;
    }
    forall p | Foreign(items, pid, p) ensures Same(files, half, p) {}
    forall j | 0 <= j < |items| ensures TornItem(orig, half, items[j], pid) {
      assert TornItem(orig, files, items[j], pid);
    }
    forall j, k | 0 <= j < k < |items| ensures Same(orig, half, items[k].target) || Placed(half, items[j]) {
      if k <= i {
        assert InPlace(orig, files, items[j], temps[j], pid);
      } else {
        assert Waiting(orig, files, items[k], temps[k], pid);
      }
    }
  }

  lemma CommitNext(orig: Files, files: Files, next: Files, items: seq<Item>, temps: seq<nat>, pid: nat, i: nat)
    requires |temps| == |items| && Items(items) && i < |items| && Committing(orig, files, items, temps, pid, i)
    requires var t, b, s := items[i].target, Backup(items[i].target, pid), Stage(items[i].target, temps[i]);
             && s in files
             && next == (if t in files then (files - {b, t, s})[b := files[t]] else files - {s})[t := files[s]]
    ensures Committing(orig, next, items, temps, pid, i + 1)
  {
    var t, s := items[i].target, Stage(items[i].target, temps[i]);
    forall j | 0 <= j < |items| && j != i
      ensures Same(files, next, items[j].target) && Same(files, next, Backup(items[j].target, pid))
           && Same(files, next, Stage(items[j].target, temps[j]))
    {
    }
    forall p | Foreign(items, pid, p) && !Mine(items, temps, p) ensures Same(files, next, p) {
      assert p != s;
    }
  }

  /** Undoing: the first i items are still committed, the others are as before, except that a stale
      backup of an existing target may be gone. */
  ghost predicate Undoing(orig: Files, files: Files, items: seq<Item>, temps: seq<nat>, pid: nat, i: nat)
    requires |temps| == |items|
  {
    && (forall j | 0 <= j < i && j < |items| :: InPlace(orig, files, items[j], temps[j], pid))
    && (forall j | i <= j < |items| :: Undone(orig, files, items[j], temps[j], pid))
    && Frame(orig, files, items, temps, pid)
  }

  /** The backup slot is as before, or empty when a target in use made the installer clear it. */
  predicate SlotRestored(orig: Files, files: Files, t: Path, pid: nat) {
    Same(orig, files, Backup(t, pid)) || (t in orig && Backup(t, pid) !in files)
  }

  /** Every target has its exact prior file or prior absence, no stage file remains, and nothing else
      differs but stale backups that were cleared. */
  ghost predicate Restored(orig: Files, files: Files, items: seq<Item>, pid: nat) {
    && (forall i | 0 <= i < |items| ::
          Same(orig, files, items[i].target) && SlotRestored(orig, files, items[i].target, pid))
    && (forall p | Foreign(items, pid, p) :: Same(orig, files, p))
  }

  /** Every target holds its new file, its backup is gone, and nothing else differs. */
  ghost predicate Committed(orig: Files, files: Files, items: seq<Item>, pid: nat) {
    && (forall i | 0 <= i < |items| ::
          Placed(files, items[i]) && SlotRestored(orig, files, items[i].target, pid))
    && (forall p | Foreign(items, pid, p) :: Same(orig, files, p))
  }

  lemma UndoingTorn(orig: Files, files: Files, items: seq<Item>, temps: seq<nat>, pid: nat, i: nat)
    requires |temps| == |items| && Items(items) && Undoing(orig, files, items, temps, pid, i)
    ensures Torn(orig, files, items, pid)
  {
    OwnStages(orig, files, items, temps, pid);
  }

  lemma InPlaceTorn(orig: Files, files: Files, it: Item, temp: nat, pid: nat)
    requires InPlace(orig, files, it, temp, pid)
    ensures TornItem(orig, files, it, pid) && Placed(files, it)
  {
  }

  lemma UndoneTorn(orig: Files, files: Files, it: Item, temp: nat, pid: nat)
    requires Undone(orig, files, it, temp, pid)
    ensures TornItem(orig, files, it, pid) && Same(orig, files, it.target)
  {
  }

  /** The item whose new target is gone: its original, if any, is in the backup. */
  lemma HalfUndone(orig: Files, files: Files, it: Item, temp: nat, pid: nat)
    requires Plain(it.target) && InPlace(orig, files, it, temp, pid)
    ensures TornItem(orig, files - {it.target}, it, pid)
    ensures it.target !in orig ==> Undone(orig, files - {it.target}, it, temp, pid)
  {
  }

  lemma HalfItems(orig: Files, files: Files, items: seq<Item>, temps: seq<nat>, pid: nat, i: nat)
    requires |temps| == |items| && Items(items) && i < |items| && Undoing(orig, files, items, temps, pid, i + 1)
    ensures var half := files - {items[i].target};
            && (forall j | 0 <= j < |items| :: TornItem(orig, half, items[j], pid))
            && (forall j, k | 0 <= j < k < |items| :: Same(orig, half, items[k].target) || Placed(half, items[j]))
  {
    var half := files - {items[i].target};
    assert InPlace(orig, files, items[i], temps[i], pid);
    OthersInPlace(orig, files, half, items, temps, pid, i);
    forall j | 0 <= j < |items|
      ensures TornItem(orig, half, items[j], pid)
      ensures j < i ==> Placed(half, items[j])
      ensures i < j ==> Same(orig, half, items[j].target)
    {
      if j < i {
        InPlaceTorn(orig, half, items[j], temps[j], pid);
      } else if j == i {
        HalfUndone(orig, files, items[i], temps[i], pid);
      } else {
        UndoneTorn(orig, half, items[j], temps[j], pid);
      }
    }
  }

  lemma HalfFrame(orig: Files, files: Files, items: seq<Item>, temps: seq<nat>, pid: nat, i: nat)
    requires |temps| == |items| && Items(items) && i < |items| && Frame(orig, files, items, temps, pid)
    ensures Frame(orig, files - {items[i].target}, items, temps, pid)
  {
    forall p | Foreign(items, pid, p) && !Mine(items, temps, p) ensures Same(orig, files - {items[i].target}, p) {
      assert Same(orig, files, p) && p != items[i].target;
    }
  }

  lemma StagesWhole(orig: Files, files: Files, items: seq<Item>, temps: seq<nat>, pid: nat, i: nat)
    requires |temps| == |items| && Items(items) && i < |items| && Undoing(orig, files, items, temps, pid, i + 1)
    ensures forall j | 0 <= j < |items| && Stage(items[j].target, temps[j]) in files - {items[i].target} ::
              files[Stage(items[j].target, temps[j])] == NewFile(items[j])
  {
    forall j | 0 <= j <= i ensures Stage(items[j].target, temps[j]) !in files {
      assert InPlace(orig, files, items[j], temps[j], pid);
    }
    forall j | 0 <= j < |items| && Stage(items[j].target, temps[j]) in files
      ensures files[Stage(items[j].target, temps[j])] == NewFile(items[j])
    {
      assert Undone(orig, files, items[j], temps[j], pid);
    }
  }

  /** Removing the new target of item i leaves its original, if any, in the backup. */
  lemma UndoHalf(orig: Files, files: Files, items: seq<Item>, temps: seq<nat>, pid: nat, i: nat)
    requires |temps| == |items| && Items(items) && i < |items| && Undoing(orig, files, items, temps, pid, i + 1)
    ensures Torn(orig, files - {items[i].target}, items, pid)
  {
    HalfItems(orig, files, items, temps, pid, i);
    HalfFrame(orig, files, items, temps, pid, i);
    StagesWhole(orig, files, items, temps, pid, i);
    OwnStages(orig, files - {items[i].target}, items, temps, pid);
  }

  lemma UndoNew(orig: Files, files: Files, items: seq<Item>, temps: seq<nat>, pid: nat, i: nat)
    requires |temps| == |items| && Items(items) && i < |items| && Undoing(orig, files, items, temps, pid, i + 1)
    requires items[i].target !in orig
    ensures Undoing(orig, files - {items[i].target}, items, temps, pid, i)
  {
    assert InPlace(orig, files, items[i], temps[i], pid);
    OthersInPlace(orig, files, files - {items[i].target}, items, temps, pid, i);
    HalfUndone(orig, files, items[i], temps[i], pid);
    HalfFrame(orig, files, items, temps, pid, i);
  }

  lemma Untouched(files: Files, next: Files, one: Item, other: Item, temp: nat, pid: nat)
    requires Plain(one.target) && Plain(other.target) && one.target != other.target
    requires forall p | p != one.target && p != Backup(one.target, pid) :: Same(files, next, p)
    ensures Same(files, next, other.target) && Same(files, next, Backup(other.target, pid))
    ensures Same(files, next, Stage(other.target, temp))
  {
  }

  lemma OthersInPlace(orig: Files, files: Files, next: Files, items: seq<Item>, temps: seq<nat>, pid: nat, i: nat)
    requires |temps| == |items| && Items(items) && i < |items| && Undoing(orig, files, items, temps, pid, i + 1)
    requires forall p | p != items[i].target && p != Backup(items[i].target, pid) :: Same(files, next, p)
    ensures forall j | 0 <= j < i :: InPlace(orig, next, items[j], temps[j], pid)
    ensures forall j | i < j < |items| :: Undone(orig, next, items[j], temps[j], pid)
  {
    forall j | 0 <= j < i ensures InPlace(orig, next, items[j], temps[j], pid) {
      assert InPlace(orig, files, items[j], temps[j], pid);
      assert items[j].target != items[i].target;
      Untouched(files, next, items[i], items[j], temps[j], pid);
    }
    forall j | i < j < |items| ensures Undone(orig, next, items[j], temps[j], pid) {
      assert Undone(orig, files, items[j], temps[j], pid);
      assert items[j].target != items[i].target;
      Untouched(files, next, items[i], items[j], temps[j], pid);
    }
  }

  lemma UndoNext(orig: Files, files: Files, next: Files, items: seq<Item>, temps: seq<nat>, pid: nat, i: nat)
    requires |temps| == |items| && Items(items) && i < |items| && Undoing(orig, files, items, temps, pid, i + 1)
    requires var t, b := items[i].target, Backup(items[i].target, pid);
             t in orig && b in files && next == (files - {t} - {b})[t := files[b]]
    ensures Undoing(orig, next, items, temps, pid, i)
  {
    assert InPlace(orig, files, items[i], temps[i], pid);
    OthersInPlace(orig, files, next, items, temps, pid, i);
    forall p | Foreign(items, pid, p) && !Mine(items, temps, p) ensures Same(orig, next, p) {
      assert Same(orig, files, p);
    }
  }

  lemma UndoingDropStage(orig: Files, files: Files, items: seq<Item>, temps: seq<nat>, pid: nat, j: nat)
    requires |temps| == |items| && Items(items) && j < |items| && Undoing(orig, files, items, temps, pid, 0)
    ensures Undoing(orig, files - {Stage(items[j].target, temps[j])}, items, temps, pid, 0)
  {
    var s := Stage(items[j].target, temps[j]);
    forall p | Foreign(items, pid, p) && !Mine(items, temps, p) ensures Same(orig, files - {s}, p) {
      assert p != s;
    }
  }

  // ---------------------------------------------------------------- an undo whose operations raise

  /** Which operation of the undo raises for an item, if one does; the undo suppresses that and goes on. */
  datatype Fault = Fine | UnlinkRaises | RenameRaises

  /** By item: faults of its undo, and whether its stage file cannot be removed. */
  datatype Faults = Faults(undo: nat -> Fault, stuck: nat -> bool)

  /** What there is to restore is not restored where the fault matters: an original stays in its backup, or
      a new file stays where there was none. */
  function Hampered(orig: Files, it: Item, pid: nat, fault: Fault): Files {
    if it.target in orig then
      if fault == RenameRaises then (orig - {it.target})[Backup(it.target, pid) := orig[it.target]] else orig
    else if fault == UnlinkRaises then orig[it.target := NewFile(it)]
    else orig
  }

  lemma HamperedElsewhere(orig: Files, it: Item, pid: nat, fault: Fault)
    ensures forall p | p != it.target && p != Backup(it.target, pid) :: Same(orig, Hampered(orig, it, pid, fault), p)
  {
  }

  lemma ReferTo(orig: Files, ref: Files, files: Files, it: Item, temp: nat, pid: nat)
    requires Same(orig, ref, it.target) && Same(orig, ref, Backup(it.target, pid))
    ensures InPlace(orig, files, it, temp, pid) ==> InPlace(ref, files, it, temp, pid)
    ensures Undone(orig, files, it, temp, pid) ==> Undone(ref, files, it, temp, pid)
  {
  }

  /** The other items are as far as they were, seen from what is left to restore. */
  lemma OthersRefer(orig: Files, next: Files, items: seq<Item>, temps: seq<nat>, pid: nat, i: nat, fault: Fault)
    requires |temps| == |items| && Items(items) && i < |items|
    requires forall j | 0 <= j < i :: InPlace(orig, next, items[j], temps[j], pid)
    requires forall j | i < j < |items| :: Undone(orig, next, items[j], temps[j], pid)
    ensures var ref := Hampered(orig, items[i], pid, fault);
            && (forall j | 0 <= j < i :: InPlace(ref, next, items[j], temps[j], pid))
            && (forall j | i < j < |items| :: Undone(ref, next, items[j], temps[j], pid))
  {
    var ref := Hampered(orig, items[i], pid, fault);
    HamperedElsewhere(orig, items[i], pid, fault);
    forall j | 0 <= j < |items| && j != i
      ensures j < i ==> InPlace(ref, next, items[j], temps[j], pid)
      ensures i < j ==> Undone(ref, next, items[j], temps[j], pid)
    {
      assert items[j].target != items[i].target;
      Untouched(orig, ref, items[i], items[j], temps[j], pid);
      ReferTo(orig, ref, next, items[j], temps[j], pid);
    }
  }

  lemma HamperedFrame(orig: Files, files: Files, next: Files, items: seq<Item>, temps: seq<nat>, pid: nat, i: nat,
                      fault: Fault)
    requires |temps| == |items| && Items(items) && i < |items| && Frame(orig, files, items, temps, pid)
    requires forall p | p != items[i].target && p != Backup(items[i].target, pid) :: Same(files, next, p)
    ensures Frame(Hampered(orig, items[i], pid, fault), next, items, temps, pid)
  {
    var ref := Hampered(orig, items[i], pid, fault);
    HamperedElsewhere(orig, items[i], pid, fault);
    forall j | 0 <= j < |items| ensures Stage(items[j].target, temps[j]) !in ref {
      assert Same(orig, ref, Stage(items[j].target, temps[j]));
    }
    forall p | Foreign(items, pid, p) && !Mine(items, temps, p) ensures Same(ref, next, p) {
      assert Same(orig, files, p) && Same(orig, ref, p) && Same(files, next, p);
    }
  }

  /** An undo step that does not come through. */
  lemma UndoHampered(orig: Files, files: Files, items: seq<Item>, temps: seq<nat>, pid: nat, i: nat, fault: Fault)
    requires |temps| == |items| && Items(items) && i < |items| && Undoing(orig, files, items, temps, pid, i + 1)
    requires if items[i].target in orig then fault == RenameRaises else fault == UnlinkRaises
    ensures var next := if items[i].target in orig then files - {items[i].target} else files;
            Undoing(Hampered(orig, items[i], pid, fault), next, items, temps, pid, i)
  {
    var next := if items[i].target in orig then files - {items[i].target} else files;
    assert InPlace(orig, files, items[i], temps[i], pid);
    OthersInPlace(orig, files, next, items, temps, pid, i);
    OthersRefer(orig, next, items, temps, pid, i, fault);
    HamperedFrame(orig, files, next, items, temps, pid, i, fault);
    assert Undone(Hampered(orig, items[i], pid, fault), next, items[i], temps[i], pid);
  }

  // ---------------------------------------------------------------- what the faults leave

  /** What is left to restore of one item: its original, unless that stayed in the backup or is gone; and a
      new file that could not be removed. */
  predicate ResidueOf(orig: Files, ref: Files, it: Item, pid: nat, fault: Fault, gone: bool) {
    var t, b := it.target, Backup(it.target, pid);
    var left := fault == UnlinkRaises && t in ref && ref[t] == NewFile(it);
    if t !in orig then Same(orig, ref, b) && (t !in ref || left)
    else if gone then b !in ref && (t !in ref || left)
    else
      || (Same(orig, ref, t) && Same(orig, ref, b))
      || (fault == RenameRaises && t !in ref && b in ref && ref[b] == orig[t])
  }

  /** The same of all items; those before i have met with no fault yet. The backups of the first gone items
      had been removed. */
  ghost predicate Residue(orig: Files, ref: Files, items: seq<Item>, pid: nat, faults: Faults, gone: nat, i: nat) {
    && (forall j | 0 <= j < |items| ::
          ResidueOf(orig, ref, items[j], pid, if j < i then Fine else faults.undo(j), j < gone))
    && forall p | Foreign(items, pid, p) :: Same(orig, ref, p)
  }

  lemma ResidueStep(orig: Files, ref: Files, items: seq<Item>, pid: nat, faults: Faults, gone: nat, i: nat)
    requires Items(items) && i < |items| && Residue(orig, ref, items, pid, faults, gone, i + 1)
    ensures Residue(orig, Hampered(ref, items[i], pid, faults.undo(i)), items, pid, faults, gone, i)
  {
    var next := Hampered(ref, items[i], pid, faults.undo(i));
    HamperedElsewhere(ref, items[i], pid, faults.undo(i));
    forall j | 0 <= j < |items|
      ensures ResidueOf(orig, next, items[j], pid, if j < i then Fine else faults.undo(j), j < gone)
    {
      assert ResidueOf(orig, ref, items[j], pid, if j < i + 1 then Fine else faults.undo(j), j < gone);
      if j != i {
        assert items[j].target != items[i].target;
        Untouched(ref, next, items[i], items[j], 0, pid);
      }
    }
    forall p | Foreign(items, pid, p) ensures Same(orig, next, p) {
      assert Same(orig, ref, p) && Same(ref, next, p);
    }
  }

  lemma ResidueWeaker(orig: Files, ref: Files, items: seq<Item>, pid: nat, faults: Faults, gone: nat, i: nat)
    requires Residue(orig, ref, items, pid, faults, gone, i)
    ensures Residue(orig, ref, items, pid, faults, gone, 0)
  {
    forall j | 0 <= j < |items| ensures ResidueOf(orig, ref, items[j], pid, faults.undo(j), j < gone) {
      assert ResidueOf(orig, ref, items[j], pid, if j < i then Fine else faults.undo(j), j < gone);
    }
  }

  /** A stage file that could not be removed. */
  ghost predicate Leftover(items: seq<Item>, faults: Faults, p: Path, f: File) {
    p.Stage? && exists j | 0 <= j < |items| :: p.of == items[j].target && f == NewFile(items[j]) && faults.stuck(j)
  }

  /** Everything in ref is restored, and nothing else differs but stage files that could not be removed. */
  ghost predicate RestoredBut(ref: Files, files: Files, items: seq<Item>, pid: nat, faults: Faults) {
    && (forall i | 0 <= i < |items| ::
          Same(ref, files, items[i].target) && SlotRestored(ref, files, items[i].target, pid))
    && (forall p | Foreign(items, pid, p) ::
          Same(ref, files, p) || (p !in ref && p in files && Leftover(items, faults, p, files[p])))
  }

  predicate Steady(faults: Faults, n: nat) {
    forall j | 0 <= j < n :: faults.undo(j) == Fine && !faults.stuck(j)
  }

  /** Without a fault, and with all backups still there, everything is restored. */
  lemma SteadyRestores(orig: Files, ref: Files, files: Files, items: seq<Item>, pid: nat, faults: Faults)
    requires Steady(faults, |items|)
    requires Residue(orig, ref, items, pid, faults, 0, 0) && RestoredBut(ref, files, items, pid, faults)
    ensures Restored(orig, files, items, pid)
  {
    forall i | 0 <= i < |items|
      ensures Same(orig, files, items[i].target) && SlotRestored(orig, files, items[i].target, pid)
    {
      assert ResidueOf(orig, ref, items[i], pid, faults.undo(i), false);
      assert Same(ref, files, items[i].target) && SlotRestored(ref, files, items[i].target, pid);
    }
  }

  /** Whatever raises, no original is lost whose backup was still there: it is at its target, or, if the rename
      back raised, in its backup. */
  lemma OriginalsConserved(orig: Files, ref: Files, files: Files, items: seq<Item>, pid: nat, faults: Faults, gone: nat,
                           j: nat)
    requires gone <= j < |items| && items[j].target in orig
    requires Residue(orig, ref, items, pid, faults, gone, 0) && RestoredBut(ref, files, items, pid, faults)
    ensures || Same(orig, files, items[j].target)
            || (faults.undo(j) == RenameRaises && Away(orig, files, items[j].target, pid))
  {
    assert ResidueOf(orig, ref, items[j], pid, faults.undo(j), false);
    assert Same(ref, files, items[j].target) && SlotRestored(ref, files, items[j].target, pid);
  }

  /** Which of the committed items had an original. */
  predicate HadBackups(orig: Files, items: seq<Item>, hadBackup: seq<bool>) {
    |hadBackup| <= |items| && forall j | 0 <= j < |hadBackup| :: hadBackup[j] == (items[j].target in orig)
  }

  // ---------------------------------------------------------------- the except clause

  /** The except clause, first half: committed targets, last first. ref is what there is to restore. */
  method UndoCommitted(vol: Volume, ghost orig: Files, ghost was: Files, items: seq<Item>, ghost temps: seq<nat>,
                       pid: nat, hadBackup: seq<bool>, faults: Faults, ghost gone: nat)
    returns (o: Fate, ghost ref: Files)
    requires |temps| == |items| && Items(items) && HadBackups(orig, items, hadBackup)
    requires Residue(orig, was, items, pid, faults, gone, |hadBackup|)
    requires Undoing(was, vol.files, items, temps, pid, |hadBackup|)
    modifies vol
    ensures Residue(orig, ref, items, pid, faults, gone, 0)
    ensures o.Done? ==> Undoing(ref, vol.files, items, temps, pid, 0)
    ensures o.Killed? ==> Torn(ref, vol.files, items, pid)
    ensures !o.Raised?
    ensures vol.failures >= old(vol.failures)
  {
    var i := |hadBackup|;
    ref := was;
    while i > 0
      invariant 0 <= i <= |hadBackup| && vol.failures >= old(vol.failures)
      invariant Residue(orig, ref, items, pid, faults, gone, i)
      invariant Undoing(ref, vol.files, items, temps, pid, i)
    {
      i := i - 1;
      ResidueNotes(orig, ref, items, pid, faults, gone, i);
      o := UndoOne(vol, ref, items, temps, pid, i, hadBackup[i], faults.undo(i));
      if o.Killed? {
        ResidueWeaker(orig, ref, items, pid, faults, gone, i + 1);
        return;
      }
      ResidueStep(orig, ref, items, pid, faults, gone, i);
      ref := Hampered(ref, items[i], pid, faults.undo(i));
    }
    o := Done;
  }

  /** A backup was made of a target that there is to restore, and the slot of one that has gone is empty. */
  predicate NotedOne(ref: Files, t: Path, pid: nat, had: bool) {
    if t in ref then had else !had || Backup(t, pid) !in ref
  }

  lemma ResidueNotes(orig: Files, ref: Files, items: seq<Item>, pid: nat, faults: Faults, gone: nat, i: nat)
    requires i < |items| && Residue(orig, ref, items, pid, faults, gone, i + 1)
    ensures NotedOne(ref, items[i].target, pid, items[i].target in orig)
  {
    assert ResidueOf(orig, ref, items[i], pid, Fine, i < gone);
  }

  method UndoOne(vol: Volume, ghost ref: Files, items: seq<Item>, ghost temps: seq<nat>, pid: nat, i: nat, had: bool,
                 fault: Fault)
    returns (o: Fate)
    requires |temps| == |items| && Items(items) && i < |items| && NotedOne(ref, items[i].target, pid, had)
    requires Undoing(ref, vol.files, items, temps, pid, i + 1)
    modifies vol
    ensures o.Done? ==> Undoing(Hampered(ref, items[i], pid, fault), vol.files, items, temps, pid, i)
    ensures o.Killed? ==> Torn(ref, vol.files, items, pid)
    ensures !o.Raised?
    ensures vol.failures >= old(vol.failures)
  {
    var target, backup := items[i].target, Backup(items[i].target, pid);
    ghost var before := vol.files;
    assert InPlace(ref, before, items[i], temps[i], pid);
    UndoingTorn(ref, before, items, temps, pid, i + 1);
    UndoHalf(ref, before, items, temps, pid, i);
    if (target !in ref && fault == UnlinkRaises) || (target in ref && fault == RenameRaises) {
      UndoHampered(ref, before, items, temps, pid, i, fault);
    } else if target !in ref {
      UndoNew(ref, before, items, temps, pid, i);
    }
    o := Done;
    if fault != UnlinkRaises {
      o := vol.Remove(target);
    }
    if o.Done? && had && backup in vol.files && fault != RenameRaises {
      o := vol.ReplaceBack(backup, target);
      if o.Done? {
        assert vol.files == (before - {target} - {backup})[target := before[backup]];
        UndoNext(ref, before, vol.files, items, temps, pid, i);
      }
    }
  }

  /** The first k stage files are gone, or could not be removed. */
  ghost predicate Dropped(files: Files, items: seq<Item>, temps: seq<nat>, faults: Faults, k: nat)
    requires |temps| == |items|
  {
    forall j | 0 <= j < k && j < |items| :: Stage(items[j].target, temps[j]) in files ==> faults.stuck(j)
  }

  lemma DropOne(ref: Files, files: Files, items: seq<Item>, temps: seq<nat>, pid: nat, faults: Faults, k: nat)
    requires |temps| == |items| && Items(items) && k < |items| && Undoing(ref, files, items, temps, pid, 0)
    requires Dropped(files, items, temps, faults, k)
    ensures Torn(ref, files, items, pid)
    ensures var next := if faults.stuck(k) then files else files - {Stage(items[k].target, temps[k])};
            Undoing(ref, next, items, temps, pid, 0) && Dropped(next, items, temps, faults, k + 1)
  {
    UndoingTorn(ref, files, items, temps, pid, 0);
    UndoingDropStage(ref, files, items, temps, pid, k);
  }

  /** The second half: the stage files that are still there. */
  method DropStages(vol: Volume, ghost ref: Files, items: seq<Item>, temps: seq<nat>, ghost pid: nat, faults: Faults)
    returns (o: Fate)
    requires |temps| == |items| && Items(items)
    requires Undoing(ref, vol.files, items, temps, pid, 0)
    modifies vol
    ensures o.Done? ==> RestoredBut(ref, vol.files, items, pid, faults)
    ensures o.Killed? ==> Torn(ref, vol.files, items, pid)
    ensures !o.Raised?
    ensures vol.failures >= old(vol.failures)
  {
    var k := 0;
    while k < |items|
      invariant 0 <= k <= |items| && vol.failures >= old(vol.failures)
      invariant Undoing(ref, vol.files, items, temps, pid, 0)
      invariant Dropped(vol.files, items, temps, faults, k)
    {
      DropOne(ref, vol.files, items, temps, pid, faults, k);
      if !faults.stuck(k) {
        o := vol.Remove(Stage(items[k].target, temps[k]));
        if o.Killed? {
          return;
        }
      }
      k := k + 1;
    }
    UndoneRestored(ref, vol.files, items, temps, pid, faults);
    return Done;
  }

  lemma UndoneRestored(ref: Files, files: Files, items: seq<Item>, temps: seq<nat>, pid: nat, faults: Faults)
    requires |temps| == |items| && Undoing(ref, files, items, temps, pid, 0)
    requires Dropped(files, items, temps, faults, |items|)
    ensures RestoredBut(ref, files, items, pid, faults)
  {
    forall i | 0 <= i < |items|
      ensures Same(ref, files, items[i].target) && SlotRestored(ref, files, items[i].target, pid)
    {
      assert Undone(ref, files, items[i], temps[i], pid);
    }
    forall p | Foreign(items, pid, p)
      ensures Same(ref, files, p) || (p !in ref && p in files && Leftover(items, faults, p, files[p]))
    {
      if Mine(items, temps, p) {
        var j :| 0 <= j < |items| && p == Stage(items[j].target, temps[j]);
        assert Undone(ref, files, items[j], temps[j], pid);
        assert p.of == items[j].target;
      }
    }
  }

  method Rollback(vol: Volume, ghost orig: Files, ghost was: Files, items: seq<Item>, temps: seq<nat>, pid: nat,
                  hadBackup: seq<bool>, faults: Faults, ghost gone: nat)
    returns (o: Fate, ghost ref: Files)
    requires |temps| == |items| && Items(items) && HadBackups(orig, items, hadBackup)
    requires Residue(orig, was, items, pid, faults, gone, |hadBackup|)
    requires Undoing(was, vol.files, items, temps, pid, |hadBackup|)
    modifies vol
    ensures Residue(orig, ref, items, pid, faults, gone, 0)
    ensures o.Done? ==> RestoredBut(ref, vol.files, items, pid, faults)
    ensures o.Killed? ==> Torn(ref, vol.files, items, pid)
    ensures !o.Raised?
    ensures vol.failures >= old(vol.failures)
  {
    o, ref := UndoCommitted(vol, orig, was, items, temps, pid, hadBackup, faults, gone);
    if o.Done? {
      o := DropStages(vol, ref, items, temps, pid, faults);
    }
  }

  // ---------------------------------------------------------------- the forward path

  lemma UndoingOfCommitting(orig: Files, files: Files, items: seq<Item>, temps: seq<nat>, pid: nat, i: nat)
    requires |temps| == |items| && Committing(orig, files, items, temps, pid, i)
    ensures Undoing(orig, files, items, temps, pid, i)
  {
    forall j | i <= j < |items| ensures Undone(orig, files, items[j], temps[j], pid) {
      assert Waiting(orig, files, items[j], temps[j], pid);
    }
  }

  /** Staging one more item, whole or cut short, changes nothing else. */
  lemma StageNext(orig: Files, files: Files, items: seq<Item>, temps: seq<nat>, pid: nat, n: nat)
    requires |temps| < |items| && Items(items)
    requires Committing(orig, files, items[..|temps|], temps, pid, 0)
    requires Stage(items[|temps|].target, n) !in files
    ensures var k := |temps|;
            Committing(orig, files[Stage(items[k].target, n) := NewFile(items[k])], items[..k + 1], temps + [n], pid, 0)
  {
    var k := |temps|;
    var s := Stage(items[k].target, n);
    var some, more, temps' := items[..k], items[..k + 1], temps + [n];
    var next := files[s := NewFile(items[k])];
    assert more[..k] == some && more[k] == items[k];
    assert Foreign(some, pid, items[k].target);
    assert Foreign(some, pid, Backup(items[k].target, pid));
    assert Foreign(some, pid, s);
    assert !Mine(some, temps, items[k].target) && !Mine(some, temps, Backup(items[k].target, pid));
    forall j | 0 <= j < |more| ensures Waiting(orig, next, more[j], temps'[j], pid) {
      if j < k {
        assert Waiting(orig, files, some[j], temps[j], pid);
      } else {
        assert Same(orig, files, items[k].target) && Same(orig, files, Backup(items[k].target, pid));
      }
    }
    forall j | 0 <= j < |some| ensures s != Stage(some[j].target, temps[j]) {
      assert Waiting(orig, files, some[j], temps[j], pid);
    }
    assert !Mine(some, temps, s) && Same(orig, files, s);
    forall j | 0 <= j < |more| ensures Stage(more[j].target, temps'[j]) !in orig {
      if j < k {
        assert Stage(some[j].target, temps[j]) !in orig;
      }
    }
    forall p | Foreign(more, pid, p) && !Mine(more, temps', p) ensures Same(orig, next, p) {
      assert p != s by { assert more[k].target == items[k].target && temps'[k] == n; }
      assert Foreign(some, pid, p) by {
        forall j | 0 <= j < |some| ensures p != some[j].target && p != Backup(some[j].target, pid) {
          assert more[j] == some[j];
        }
      }
      forall j | 0 <= j < |some| ensures p != Stage(some[j].target, temps[j]) {
        assert more[j] == some[j] && temps'[j] == temps[j];
      }
    }
  }

  /** A torn state of the first items, possibly with one more stage file, is a torn state of all. */
  lemma TornPrefix(orig: Files, files: Files, items: seq<Item>, pid: nat, k: nat)
    requires k <= |items| && Items(items) && Torn(orig, files, items[..k], pid)
    ensures Torn(orig, files, items, pid)
  {
    var some := items[..k];
    forall i | k <= i < |items|
      ensures Same(orig, files, items[i].target) && Same(orig, files, Backup(items[i].target, pid))
    {
      assert Foreign(some, pid, items[i].target) && Foreign(some, pid, Backup(items[i].target, pid));
    }
    forall i | 0 <= i < |items| ensures TornItem(orig, files, items[i], pid) {
      if i < k {
        assert TornItem(orig, files, some[i], pid);
      }
    }
    forall i, j | 0 <= i < j < |items| ensures Same(orig, files, items[j].target) || Placed(files, items[i]) {
      if j < k {
        assert Same(orig, files, some[j].target) || Placed(files, some[i]);
      }
    }
    forall p | Foreign(items, pid, p) ensures Foreign(some, pid, p) {
      forall j | 0 <= j < |some| ensures p != some[j].target && p != Backup(some[j].target, pid) {
        assert some[j] == items[j];
      }
    }
    forall p | p in files && p !in orig && Foreign(items, pid, p) ensures Staged(items, p, files[p]) {
      assert Staged(some, p, files[p]);
      var i :| 0 <= i < |some| && p.of == some[i].target && (files[p].content.Blob? || files[p] == NewFile(some[i]));
      assert some[i] == items[i];
    }
  }

  lemma TornWithCut(orig: Files, files: Files, items: seq<Item>, pid: nat, k: nat, n: nat, cut: File)
    requires k < |items| && Items(items) && Torn(orig, files, items, pid)
    requires Stage(items[k].target, n) !in files
    requires cut.content.Blob? || cut == NewFile(items[k])
    ensures Torn(orig, files[Stage(items[k].target, n) := cut], items, pid)
  {
    var s := Stage(items[k].target, n);
    var next := files[s := cut];
    assert Foreign(items, pid, s);
    assert s !in orig;
    forall i | 0 <= i < |items| ensures TornItem(orig, next, items[i], pid) {
      assert TornItem(orig, files, items[i], pid);
    }
  }

  /** Stage every item; on an exception the caller still has to remove what was staged. */
  method StageAll(vol: Volume, items: seq<Item>, ghost pid: nat) returns (o: Fate, temps: seq<nat>)
    requires Items(items)
    modifies vol
    ensures |temps| <= |items|
    ensures o.Done? ==> |temps| == |items| && Committing(old(vol.files), vol.files, items, temps, pid, 0)
    ensures o.Raised? ==> Committing(old(vol.files), vol.files, items[..|temps|], temps, pid, 0)
    ensures o.Killed? ==> Torn(old(vol.files), vol.files, items, pid)
    ensures vol.failures >= old(vol.failures)
    ensures o.Done? <==> vol.failures == old(vol.failures)
  {
    temps := [];
    ghost var orig := vol.files;
    while |temps| < |items|
      invariant |temps| <= |items| && vol.failures == old(vol.failures)
      invariant Committing(orig, vol.files, items[..|temps|], temps, pid, 0)
    {
      var it := items[|temps|];
      var n;
      ghost var before := vol.files;
      o, n := vol.StageFile(it.target, it.content, it.mode);
      if o.Raised? {
        return;
      }
      if o.Killed? {
        CommittingTorn(orig, before, items[..|temps|], temps, pid, 0);
        TornPrefix(orig, before, items, pid, |temps|);
        if vol.files != before {
          TornWithCut(orig, before, items, pid, |temps|, n, vol.files[Stage(it.target, n)]);
          assert vol.files == before[Stage(it.target, n) := vol.files[Stage(it.target, n)]];
        }
        return;
      }
      StageNext(orig, before, items, temps, pid, n);
      temps := temps + [n];
    }
    assert items[..|items|] == items;
    return Done, temps;
  }

  lemma GaveUpAfter(orig: Files, files: Files, items: seq<Item>, temps: seq<nat>, pid: nat, i: nat)
    requires |temps| == |items| && Items(items) && Committing(orig, files, items, temps, pid, i)
    ensures Torn(orig, files, items, pid) && Undoing(orig, files, items, temps, pid, i)
  {
    CommittingTorn(orig, files, items, temps, pid, i);
    UndoingOfCommitting(orig, files, items, temps, pid, i);
  }

  /** The directory is flushed after the first i swaps; nothing changes if that fails. */
  method SyncSwapped(vol: Volume, ghost orig: Files, ghost items: seq<Item>, ghost temps: seq<nat>, ghost pid: nat,
                     ghost i: nat)
    returns (o: Fate)
    requires |temps| == |items| && Items(items) && Committing(orig, vol.files, items, temps, pid, i)
    modifies vol`failures
    ensures o.Raised? ==> Undoing(orig, vol.files, items, temps, pid, i)
    ensures o.Killed? ==> Torn(orig, vol.files, items, pid)
    ensures vol.failures >= old(vol.failures)
    ensures o.Done? <==> vol.failures == old(vol.failures)
  {
    GaveUpAfter(orig, vol.files, items, temps, pid, i);
    o := vol.Fsync();
  }

  /** What there is to restore when a swap was given up: with the rename back of item n raising, its original
      stays in the backup. */
  predicate GivesUp(orig: Files, ref: Files, items: seq<Item>, pid: nat, faults: Faults, n: nat) {
    ref == orig
    || (n < |items| && faults.undo(n) == RenameRaises && ref == Hampered(orig, items[n], pid, RenameRaises))
  }

  /** One turn of the commit loop: the swap is noted before its directory is flushed. */
  method CommitItem(vol: Volume, ghost orig: Files, items: seq<Item>, temps: seq<nat>, pid: nat, i: nat, faults: Faults)
    returns (o: Fate, noted: seq<bool>, ghost ref: Files)
    requires |temps| == |items| && Items(items) && i < |items| && Committing(orig, vol.files, items, temps, pid, i)
    modifies vol
    ensures noted == [] || noted == [items[i].target in orig]
    ensures o.Done? ==> noted != [] && Committing(orig, vol.files, items, temps, pid, i + 1)
    ensures o.Raised? ==> GivesUp(orig, ref, items, pid, faults, i + |noted|)
    ensures o.Raised? ==> Undoing(ref, vol.files, items, temps, pid, i + |noted|)
    ensures o.Killed? ==> Torn(orig, vol.files, items, pid)
    ensures vol.failures >= old(vol.failures)
    ensures o.Done? <==> vol.failures == old(vol.failures)
  {
    var had;
    noted := [];
    o, had, ref := CommitOne(vol, orig, items, temps, pid, i, faults);
    if !o.Done? {
      return;
    }
    ref := orig;
    o := SyncSwapped(vol, orig, items, temps, pid, i + 1);
    noted := [had];
  }

  /** Swap the staged files in, one target after the other. An exception inside one swap puts that
      target back before it is passed on. */
  method CommitAll(vol: Volume, ghost orig: Files, items: seq<Item>, temps: seq<nat>, pid: nat, faults: Faults)
    returns (o: Fate, hadBackup: seq<bool>, ghost ref: Files)
    requires |temps| == |items| && Items(items) && Committing(orig, vol.files, items, temps, pid, 0)
    modifies vol
    ensures HadBackups(orig, items, hadBackup)
    ensures o.Done? ==> |hadBackup| == |items| && Committing(orig, vol.files, items, temps, pid, |items|)
    ensures o.Raised? ==> GivesUp(orig, ref, items, pid, faults, |hadBackup|)
    ensures o.Raised? ==> Undoing(ref, vol.files, items, temps, pid, |hadBackup|)
    ensures o.Killed? ==> Torn(orig, vol.files, items, pid)
    ensures vol.failures >= old(vol.failures)
    ensures o.Done? <==> vol.failures == old(vol.failures)
  {
    hadBackup, ref := [], orig;
    for i := 0 to |items|
      invariant |hadBackup| == i && HadBackups(orig, items, hadBackup) && vol.failures == old(vol.failures)
      invariant Committing(orig, vol.files, items, temps, pid, i)
    {
      var noted;
      o, noted, ref := CommitItem(vol, orig, items, temps, pid, i, faults);
      hadBackup := hadBackup + noted;
      if !o.Done? {
        return;
      }
    }
    o := Done;
  }

  /** What is left when a swap is given up: item i as before, with its stale backup possibly gone. */
  lemma GivenUp(orig: Files, files: Files, next: Files, items: seq<Item>, temps: seq<nat>, pid: nat, i: nat)
    requires |temps| == |items| && Items(items) && i < |items| && Committing(orig, files, items, temps, pid, i)
    requires next == files || (items[i].target in files && next == files - {Backup(items[i].target, pid)})
    ensures Undoing(orig, next, items, temps, pid, i)
  {
    UndoingOfCommitting(orig, files, items, temps, pid, i);
    if next != files {
      assert Waiting(orig, files, items[i], temps[i], pid);
      forall j | 0 <= j < |items| && j != i
        ensures Same(files, next, items[j].target) && Same(files, next, Backup(items[j].target, pid))
             && Same(files, next, Stage(items[j].target, temps[j]))
      {
        assert items[j].target != items[i].target;
      }
      forall j | 0 <= j < i ensures InPlace(orig, next, items[j], temps[j], pid) {
        assert InPlace(orig, files, items[j], temps[j], pid);
      }
      forall j | i <= j < |items| ensures Undone(orig, next, items[j], temps[j], pid) {
        assert Waiting(orig, files, items[j], temps[j], pid);
      }
      forall p | Foreign(items, pid, p) && !Mine(items, temps, p) ensures Same(orig, next, p) {
        assert Same(orig, files, p);
      }
    }
  }

  /** Item i's target, if there is one, moved to its backup; a stale backup is removed first. */
  function MovedAway(files: Files, t: Path, pid: nat): Files {
    if t in files then (files - {Backup(t, pid)} - {t})[Backup(t, pid) := files[t]] else files
  }

  method MoveAway(vol: Volume, ghost orig: Files, items: seq<Item>, ghost temps: seq<nat>, pid: nat, i: nat)
    returns (o: Fate, had: bool)
    requires |temps| == |items| && Items(items) && i < |items| && Committing(orig, vol.files, items, temps, pid, i)
    modifies vol
    ensures had == (items[i].target in old(vol.files))
    ensures o.Done? ==> vol.files == MovedAway(old(vol.files), items[i].target, pid)
    ensures o.Raised? ==> Undoing(orig, vol.files, items, temps, pid, i)
    ensures o.Killed? ==> Torn(orig, vol.files, items, pid)
    ensures vol.failures >= old(vol.failures)
    ensures o.Done? <==> vol.failures == old(vol.failures)
  {
    var target, backup := items[i].target, Backup(items[i].target, pid);
    ghost var before := vol.files;
    had := target in vol.files;
    if !had {
      return Done, had;
    }
    CommittingTorn(orig, before, items, temps, pid, i);
    HalfCommittedTorn(orig, before, before - {backup}, items, temps, pid, i);
    o := vol.Unlink(backup);
    if !o.Done? {
      GivenUp(orig, before, before, items, temps, pid, i);
      return;
    }
    o := vol.Replace(target, backup);
    if !o.Done? {
      GivenUp(orig, before, vol.files, items, temps, pid, i);
    }
  }

  /** The swap is given up with the original still in its backup. */
  lemma GivenUpAway(orig: Files, files: Files, items: seq<Item>, temps: seq<nat>, pid: nat, i: nat)
    requires |temps| == |items| && Items(items) && i < |items| && Committing(orig, files, items, temps, pid, i)
    requires items[i].target in files
    ensures var ref := Hampered(orig, items[i], pid, RenameRaises);
            Undoing(ref, MovedAway(files, items[i].target, pid), items, temps, pid, i)
  {
    var next, ref := MovedAway(files, items[i].target, pid), Hampered(orig, items[i], pid, RenameRaises);
    assert Waiting(orig, files, items[i], temps[i], pid);
    forall j | 0 <= j < |items| && j != i
      ensures j < i ==> InPlace(orig, next, items[j], temps[j], pid)
      ensures i < j ==> Undone(orig, next, items[j], temps[j], pid)
    {
      assert items[j].target != items[i].target;
      Untouched(files, next, items[i], items[j], temps[j], pid);
      assert j < i ==> InPlace(orig, files, items[j], temps[j], pid);
      assert i < j ==> Waiting(orig, files, items[j], temps[j], pid);
    }
    OthersRefer(orig, next, items, temps, pid, i, RenameRaises);
    HamperedFrame(orig, files, next, items, temps, pid, i, RenameRaises);
    assert Undone(ref, next, items[i], temps[i], pid);
  }

  method CommitOne(vol: Volume, ghost orig: Files, items: seq<Item>, temps: seq<nat>, pid: nat, i: nat, faults: Faults)
    returns (o: Fate, had: bool, ghost ref: Files)
    requires |temps| == |items| && Items(items) && i < |items| && Committing(orig, vol.files, items, temps, pid, i)
    modifies vol
    ensures had == (items[i].target in orig)
    ensures o.Done? ==> Committing(orig, vol.files, items, temps, pid, i + 1)
    ensures o.Raised? ==> GivesUp(orig, ref, items, pid, faults, i) && Undoing(ref, vol.files, items, temps, pid, i)
    ensures o.Killed? ==> Torn(orig, vol.files, items, pid)
    ensures vol.failures >= old(vol.failures)
    ensures o.Done? <==> vol.failures == old(vol.failures)
  {
    var target, temporary := items[i].target, Stage(items[i].target, temps[i]);
    ghost var before := vol.files;
    ref := orig;
    assert Waiting(orig, before, items[i], temps[i], pid);
    o, had := MoveAway(vol, orig, items, temps, pid, i);
    if !o.Done? {
      return;
    }
    o := vol.Replace(temporary, target);
    if o.Done? {
      ghost var backup := Backup(target, pid);
      assert vol.files == (if had then (before - {backup, target, temporary})[backup := before[target]]
                           else before - {temporary})[target := before[temporary]];
      CommitNext(orig, before, vol.files, items, temps, pid, i);
      return;
    }
    HalfTorn(orig, before, items, temps, pid, i);
    if o.Raised? {
      o, ref := PutBack(vol, orig, before, items, temps, pid, i, had, faults);
    }
  }

  /** The inner except clause: the target goes back from its backup, unless that raises as well. */
  method PutBack(vol: Volume, ghost orig: Files, ghost before: Files, items: seq<Item>, ghost temps: seq<nat>, pid: nat,
                 i: nat, had: bool, faults: Faults)
    returns (o: Fate, ghost ref: Files)
    requires |temps| == |items| && Items(items) && i < |items| && Committing(orig, before, items, temps, pid, i)
    requires vol.files == MovedAway(before, items[i].target, pid) && had == (items[i].target in before)
    modifies vol
    ensures !o.Done?
    ensures o.Raised? ==> GivesUp(orig, ref, items, pid, faults, i) && Undoing(ref, vol.files, items, temps, pid, i)
    ensures o.Killed? ==> Torn(orig, vol.files, items, pid)
    ensures vol.failures >= old(vol.failures)
  {
    var target := items[i].target;
    HalfTorn(orig, before, items, temps, pid, i);
    ref := orig;
    if had && faults.undo(i) == RenameRaises {
      GivenUpAway(orig, before, items, temps, pid, i);
      ref := Hampered(orig, items[i], pid, RenameRaises);
      o := Raised;
      return;
    }
    if had {
      o := vol.ReplaceBack(Backup(target, pid), target);
      if o.Killed? {
        return;
      }
      assert vol.files == before - {Backup(target, pid)};
    }
    GivenUp(orig, before, vol.files, items, temps, pid, i);
    o := Raised;
  }

  lemma HalfTorn(orig: Files, files: Files, items: seq<Item>, temps: seq<nat>, pid: nat, i: nat)
    requires |temps| == |items| && Items(items) && i < |items| && Committing(orig, files, items, temps, pid, i)
    ensures Torn(orig, MovedAway(files, items[i].target, pid), items, pid)
  {
    if items[i].target in files {
      HalfCommittedTorn(orig, files, MovedAway(files, items[i].target, pid), items, temps, pid, i);
    } else {
      CommittingTorn(orig, files, items, temps, pid, i);
    }
  }

  // ---------------------------------------------------------------- the clean-up after the commit

  /** The originals that are left to restore once the backups of the first k items are gone. */
  function Forgotten(orig: Files, items: seq<Item>, pid: nat, k: nat): Files
    requires k <= |items|
  {
    if k == 0 then orig
    else
      var t, rest := items[k - 1].target, Forgotten(orig, items, pid, k - 1);
      if t in orig then rest - {t, Backup(t, pid)} else rest
  }

  lemma {:induction false} ForgottenMeans(orig: Files, items: seq<Item>, pid: nat, k: nat, p: Path)
    requires Items(items) && k <= |items|
    ensures var left := Forgotten(orig, items, pid, k);
            if exists j | 0 <= j < k ::
                 items[j].target in orig && (p == items[j].target || p == Backup(items[j].target, pid))
            then p !in left
            else Same(orig, left, p)
  {
    if k > 0 {
      ForgottenMeans(orig, items, pid, k - 1, p);
    }
  }

  /** Everything is in place, and the backups of the first k items are gone. */
  ghost predicate Cleaning(orig: Files, files: Files, items: seq<Item>, temps: seq<nat>, pid: nat, k: nat)
    requires |temps| == |items| && k <= |items|
  {
    Committing(Forgotten(orig, items, pid, k), files, items, temps, pid, |items|)
  }

  lemma CleaningNext(orig: Files, files: Files, items: seq<Item>, temps: seq<nat>, pid: nat, i: nat)
    requires |temps| == |items| && Items(items) && i < |items| && Cleaning(orig, files, items, temps, pid, i)
    ensures var next := if items[i].target in orig then files - {Backup(items[i].target, pid)} else files;
            Cleaning(orig, next, items, temps, pid, i + 1)
  {
    var t, b := items[i].target, Backup(items[i].target, pid);
    if t in orig {
      var left, next := Forgotten(orig, items, pid, i), files - {b};
      var left' := left - {t, b};
      forall j | 0 <= j < |items| ensures InPlace(left', next, items[j], temps[j], pid) {
        assert InPlace(left, files, items[j], temps[j], pid);
        assert j != i ==> items[j].target != t;
      }
      forall j | 0 <= j < |items| ensures Stage(items[j].target, temps[j]) !in left' {
        assert Stage(items[j].target, temps[j]) !in left;
      }
      forall p | Foreign(items, pid, p) && !Mine(items, temps, p) ensures Same(left', next, p) {
        assert Same(left, files, p) && p != t && p != b;
      }
    }
  }

  lemma CleaningTorn(orig: Files, files: Files, items: seq<Item>, temps: seq<nat>, pid: nat, k: nat)
    requires |temps| == |items| && Items(items) && k <= |items| && Cleaning(orig, files, items, temps, pid, k)
    requires forall j | 0 <= j < |items| :: Stage(items[j].target, temps[j]) !in orig
    ensures Torn(orig, files, items, pid)
    ensures k == |items| ==> Committed(orig, files, items, pid)
  {
    var left := Forgotten(orig, items, pid, k);
    forall j | 0 <= j < |items|
      ensures Placed(files, items[j]) && SlotOk(orig, files, items[j].target, pid)
      ensures j < k ==> SlotRestored(orig, files, items[j].target, pid)
    {
      assert InPlace(left, files, items[j], temps[j], pid);
      ForgottenMeans(orig, items, pid, k, items[j].target);
      ForgottenMeans(orig, items, pid, k, Backup(items[j].target, pid));
    }
    forall p | Foreign(items, pid, p) ensures Same(orig, files, p) {
      ForgottenMeans(orig, items, pid, k, p);
      if Mine(items, temps, p) {
        var j :| 0 <= j < |items| && p == Stage(items[j].target, temps[j]);
        assert InPlace(left, files, items[j], temps[j], pid);
      }
    }
  }

  /** One turn of the clean-up. late is the item, if there is one, whose backup cannot be removed. */
  method CleanOne(vol: Volume, ghost orig: Files, items: seq<Item>, ghost temps: seq<nat>, pid: nat, i: nat,
                  had: bool, late: Option<nat>)
    returns (o: Fate)
    requires |temps| == |items| && Items(items) && i < |items| && had == (items[i].target in orig)
    requires Cleaning(orig, vol.files, items, temps, pid, i)
    requires forall j | 0 <= j < |items| :: Stage(items[j].target, temps[j]) !in orig
    modifies vol
    ensures o.Done? ==> Cleaning(orig, vol.files, items, temps, pid, i + 1)
    ensures o.Raised? ==> late == Some(i) && had && vol.files == old(vol.files)
    ensures o.Killed? ==> Torn(orig, vol.files, items, pid)
    ensures vol.failures >= old(vol.failures)
    ensures o.Done? <==> vol.failures == old(vol.failures)
  {
    CleaningTorn(orig, vol.files, items, temps, pid, i);
    CleaningNext(orig, vol.files, items, temps, pid, i);
    if !had {
      return Done;
    }
    if late == Some(i) {
      o := vol.Fail();
      return;
    }
    o := vol.Remove(Backup(items[i].target, pid));
  }

  /** Remove the backups. If that raises, the backups of the items before it, as many as cleaned says, are
      gone already. */
  method CleanBackups(vol: Volume, ghost orig: Files, items: seq<Item>, ghost temps: seq<nat>, pid: nat,
                      hadBackup: seq<bool>, late: Option<nat>)
    returns (o: Fate, ghost cleaned: nat)
    requires |temps| == |items| == |hadBackup| && Items(items) && HadBackups(orig, items, hadBackup)
    requires Committing(orig, vol.files, items, temps, pid, |items|)
    modifies vol
    ensures cleaned <= |items|
    ensures o.Done? ==> Committed(orig, vol.files, items, pid)
    ensures o.Raised? ==> late == Some(cleaned) && cleaned < |items| && items[cleaned].target in orig
    ensures o.Raised? ==> Cleaning(orig, vol.files, items, temps, pid, cleaned)
    ensures o.Killed? ==> Torn(orig, vol.files, items, pid)
    ensures vol.failures >= old(vol.failures)
    ensures o.Done? <==> vol.failures == old(vol.failures)
  {
    cleaned := 0;
    for i := 0 to |items|
      invariant cleaned == i && vol.failures == old(vol.failures)
      invariant Cleaning(orig, vol.files, items, temps, pid, i)
    {
      o := CleanOne(vol, orig, items, temps, pid, i, hadBackup[i], late);
      if !o.Done? {
        return;
      }
      cleaned := i + 1;
    }
    CleaningTorn(orig, vol.files, items, temps, pid, |items|);
    return Done, 0;
  }

  /** What is left to restore when the clean-up raises. */
  lemma ForgottenResidue(orig: Files, items: seq<Item>, pid: nat, faults: Faults, k: nat)
    requires Items(items) && k <= |items|
    ensures Residue(orig, Forgotten(orig, items, pid, k), items, pid, faults, k, |items|)
  {
    forall j | 0 <= j < |items|
      ensures ResidueOf(orig, Forgotten(orig, items, pid, k), items[j], pid, Fine, j < k)
    {
      ForgottenMeans(orig, items, pid, k, items[j].target);
      ForgottenMeans(orig, items, pid, k, Backup(items[j].target, pid));
    }
    forall p | Foreign(items, pid, p) ensures Same(orig, Forgotten(orig, items, pid, k), p) {
      ForgottenMeans(orig, items, pid, k, p);
    }
  }

  lemma GivesUpResidue(orig: Files, ref: Files, items: seq<Item>, pid: nat, faults: Faults, n: nat)
    requires Items(items) && GivesUp(orig, ref, items, pid, faults, n)
    ensures Residue(orig, ref, items, pid, faults, 0, n)
  {
    if ref != orig {
      ResidueStep(orig, orig, items, pid, faults, 0, n);
    }
  }

  /** What an exception leaves that comes when the backups of the first k items are gone, and no operation of
      the undo raises: those originals are lost, the new files are not kept either, and every other target is
      as before. So everything is restored exactly if none of those items had an original. */
  lemma RestoredIff(orig: Files, ref: Files, files: Files, items: seq<Item>, pid: nat, faults: Faults, k: nat)
    requires Items(items) && k <= |items| && Steady(faults, |items|)
    requires Residue(orig, ref, items, pid, faults, k, 0) && RestoredBut(ref, files, items, pid, faults)
    ensures Restored(orig, files, items, pid) <==> forall j | 0 <= j < k :: items[j].target !in orig
    ensures forall j | 0 <= j < k && items[j].target in orig ::
              items[j].target !in files && Backup(items[j].target, pid) !in files
    ensures forall j | 0 <= j < |items| && (k <= j || items[j].target !in orig) :: Same(orig, files, items[j].target)
  {
    forall j | 0 <= j < |items|
      ensures if j < k && items[j].target in orig
              then items[j].target !in files && Backup(items[j].target, pid) !in files
              else Same(orig, files, items[j].target) && SlotRestored(orig, files, items[j].target, pid)
    {
      assert ResidueOf(orig, ref, items[j], pid, faults.undo(j), j < k);
      assert Same(ref, files, items[j].target) && SlotRestored(ref, files, items[j].target, pid);
    }
  }

  // ---------------------------------------------------------------- the whole transaction

  /** Done, or raised with everything put back that can be, or killed in a torn state of that. late is the item
      whose backup cannot be removed, and faults are those of the undo. cleaned says of how many items the
      backup was gone when the clean-up raised, and ref is what was left to restore. */
  method TransactionalInstall(vol: Volume, items: seq<Item>, pid: nat, late: Option<nat>, faults: Faults)
    returns (o: Fate, ghost cleaned: nat, ghost ref: Files)
    requires Items(items)
    modifies vol
    ensures cleaned > 0 ==> late == Some(cleaned) && cleaned < |items| && items[cleaned].target in old(vol.files)
    ensures Residue(old(vol.files), ref, items, pid, faults, cleaned, 0)
    ensures o.Done? ==> cleaned == 0 && Committed(old(vol.files), vol.files, items, pid)
    ensures o.Raised? ==> RestoredBut(ref, vol.files, items, pid, faults)
    ensures o.Raised? && cleaned == 0 && Steady(faults, |items|) ==> Restored(old(vol.files), vol.files, items, pid)
    ensures o.Killed? ==> Torn(ref, vol.files, items, pid)
    ensures o.Killed? && cleaned == 0 && Steady(faults, |items|) ==> Torn(old(vol.files), vol.files, items, pid)
    ensures vol.failures >= old(vol.failures)
    ensures o.Done? <==> vol.failures == old(vol.failures)
  {
    cleaned := 0;
    ghost var orig := vol.files;
    ref := orig;
    var temps;
    o, temps := StageAll(vol, items, pid);
    if o.Killed? {
      return;
    }
    if o.Raised? {
      o, ref := UnstageAll(vol, orig, items, temps, pid, faults);
      SteadyEnds(orig, ref, vol.files, items, pid, faults, o);
      return;
    }
    var hadBackup;
    ghost var was;
    o, hadBackup, was := CommitAll(vol, orig, items, temps, pid, faults);
    if o.Killed? {
      return;
    }
    if o.Done? {
      o, cleaned := CleanBackups(vol, orig, items, temps, pid, hadBackup, late);
      if !o.Raised? {
        cleaned := 0;
        return;
      }
      was := Forgotten(orig, items, pid, cleaned);
      UndoingOfCommitting(was, vol.files, items, temps, pid, |items|);
      ForgottenResidue(orig, items, pid, faults, cleaned);
    } else {
      GivesUpResidue(orig, was, items, pid, faults, |hadBackup|);
    }
    o, ref := Rollback(vol, orig, was, items, temps, pid, hadBackup, faults, cleaned);
    o := if o.Killed? then Killed else Raised;
    if cleaned == 0 {
      SteadyEnds(orig, ref, vol.files, items, pid, faults, o);
    }
  }

  /** With no fault there is everything to restore. */
  lemma SteadyEnds(orig: Files, ref: Files, files: Files, items: seq<Item>, pid: nat, faults: Faults, o: Fate)
    requires Residue(orig, ref, items, pid, faults, 0, 0)
    requires o.Raised? ==> RestoredBut(ref, files, items, pid, faults)
    ensures Steady(faults, |items|) ==> ref == orig
    ensures Steady(faults, |items|) && o.Raised? ==> Restored(orig, files, items, pid)
  {
    if Steady(faults, |items|) {
      forall p: Path ensures (p in ref <==> p in orig) && (p in orig ==> ref[p] == orig[p]) {
        if Foreign(items, pid, p) {
          assert Same(orig, ref, p);
        } else {
          var j :| 0 <= j < |items| && (p == items[j].target || p == Backup(items[j].target, pid));
          assert ResidueOf(orig, ref, items[j], pid, faults.undo(j), false);
        }
      }
      if o.Raised? {
        SteadyRestores(orig, ref, files, items, pid, faults);
      }
    }
  }

  /** The except clause when staging raised: only stage files have to go. */
  method UnstageAll(vol: Volume, ghost orig: Files, items: seq<Item>, temps: seq<nat>, pid: nat, faults: Faults)
    returns (o: Fate, ghost ref: Files)
    requires Items(items) && |temps| <= |items|
    requires Committing(orig, vol.files, items[..|temps|], temps, pid, 0)
    modifies vol
    ensures !o.Done? && ref == orig && Residue(orig, ref, items, pid, faults, 0, 0)
    ensures o.Raised? ==> RestoredBut(orig, vol.files, items, pid, faults)
    ensures o.Killed? ==> Torn(orig, vol.files, items, pid)
    ensures vol.failures >= old(vol.failures)
  {
    var some := items[..|temps|];
    ref := orig;
    UndoingOfCommitting(orig, vol.files, some, temps, pid, 0);
    o := DropStages(vol, orig, some, temps, pid, faults);
    if o.Killed? {
      TornPrefix(orig, vol.files, items, pid, |temps|);
      return;
    }
    RestoredPrefix(orig, vol.files, items, pid, |temps|, faults);
    o := Raised;
  }

  lemma RestoredPrefix(orig: Files, files: Files, items: seq<Item>, pid: nat, k: nat, faults: Faults)
    requires k <= |items| && Items(items) && RestoredBut(orig, files, items[..k], pid, faults)
    ensures RestoredBut(orig, files, items, pid, faults)
  {
    var some := items[..k];
    forall i | 0 <= i < |items|
      ensures Same(orig, files, items[i].target) && SlotRestored(orig, files, items[i].target, pid)
    {
      if i < k {
        assert some[i] == items[i];
      } else {
        assert Foreign(some, pid, items[i].target) && Foreign(some, pid, Backup(items[i].target, pid));
      }
    }
    forall p | Foreign(items, pid, p)
      ensures Same(orig, files, p) || (p !in orig && p in files && Leftover(items, faults, p, files[p]))
    {
      assert Foreign(some, pid, p) by {
        forall j | 0 <= j < |some| ensures p != some[j].target && p != Backup(some[j].target, pid) {
          assert some[j] == items[j];
        }
      }
      if !Same(orig, files, p) {
        var j :| 0 <= j < |some| && p.of == some[j].target && files[p] == NewFile(some[j]) && faults.stuck(j);
        assert some[j] == items[j];
      }
    }
  }

  // ---------------------------------------------------------------- why targets must differ

  /** One swap of a new file into a target, with its backup, as values. */
  function Swapped(files: Files, it: Item, pid: nat): Files {
    var b := Backup(it.target, pid);
    (if it.target in files then (files - {it.target})[b := files[it.target]] else files)[it.target := NewFile(it)]
  }

  /** One step of the undo, as values. */
  function Unswapped(files: Files, t: Path, pid: nat): Files {
    var b := Backup(t, pid);
    if b in files then (files - {t} - {b})[t := files[b]] else files - {t}
  }

  /** With the same target listed twice, the second swap overwrites the first one's backup, and
      undoing both leaves neither the original file nor a copy of it. */
  lemma DuplicateTargetsLoseOriginal(t: Path, orig: Files, a: Item, b: Item, pid: nat)
    requires Plain(t) && t in orig && Backup(t, pid) !in orig && a.target == b.target == t
    ensures var after := Unswapped(Unswapped(Swapped(Swapped(orig, a, pid), b, pid), t, pid), t, pid);
            t !in after && Backup(t, pid) !in after
  {
  }
}
