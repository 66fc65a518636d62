/** Installing a Hat's skills: stage, swap one target at a time with backups, roll back, drop stale. */
module SkillInstaller {

  /** An entry of the skills root; a removal that fails half-way leaves a damaged tree. */
  datatype Node = Tree(content: string) | Link | Damaged

  type Root = map<string, Node>

  /** The packages to install, in the order in which the loops visit them. */
  datatype Wanted = Wanted(order: seq<string>, content: map<string, string>)

  predicate Distinct(s: seq<string>) {
    s == [] || (s[|s| - 1] !in s[..|s| - 1] && Distinct(s[..|s| - 1]))
  }

  lemma {:induction false} DistinctAt(s: seq<string>, i: nat)
    requires Distinct(s) && i < |s|
    ensures s[i] !in s[..i] && s[..i + 1] == s[..i] + [s[i]] && s[i] in s
  {
    if i < |s| - 1 {
      DistinctAt(s[..|s| - 1], i);
      assert s[..|s| - 1][..i] == s[..i] && s[..|s| - 1][..i + 1] == s[..i + 1];
    }
  }

  predicate Packaged(w: Wanted) {
    Distinct(w.order) && forall n | n in w.order :: n in w.content
  }

  ghost predicate WellFormed(w: Wanted, prefix: string) {
    Packaged(w) && forall n | n in w.order :: Owned(n, prefix)
  }

  /** The names that belong to one Hat. */
  predicate Owned(name: string, prefix: string) {
    prefix + "-" <= name
  }

  /** A recorded name is only removed when it is a direct child of the root. */
  predicate DirectChild(name: string) {
    forall i | 0 <= i < |name| :: name[i] != '/'
  }

  // ---------------------------------------------------------------- the swap, as values

  /** The root after the first i targets were replaced. */
  function SwapRoot(orig: Root, w: Wanted, i: nat): Root
    requires Packaged(w) && i <= |w.order|
  {
    if i == 0 then orig else SwapRoot(orig, w, i - 1)[w.order[i - 1] := Tree(w.content[w.order[i - 1]])]
  }

  /** What the backups hold once the first i targets were moved away. */
  function Backups(orig: Root, w: Wanted, i: nat): Root
    requires i <= |w.order|
  {
    if i == 0 then map[]
    else if w.order[i - 1] in orig then Backups(orig, w, i - 1)[w.order[i - 1] := orig[w.order[i - 1]]]
    else Backups(orig, w, i - 1)
  }

  lemma {:induction false} SwapRootShape(orig: Root, w: Wanted, i: nat)
    requires Packaged(w) && i <= |w.order|
    ensures var root := SwapRoot(orig, w, i);
            && (forall n | n in w.order[..i] :: n in root && n in w.content && root[n] == Tree(w.content[n]))
            && (forall n | n !in w.order[..i] :: (n in root <==> n in orig) && (n in orig ==> root[n] == orig[n]))
  {
    if i > 0 {
      SwapRootShape(orig, w, i - 1);
      DistinctAt(w.order, i - 1);
    }
  }

  lemma {:induction false} BackupsShape(orig: Root, w: Wanted, i: nat)
    requires Packaged(w) && i <= |w.order|
    ensures var held := Backups(orig, w, i);
            && (forall n :: n in held <==> n in orig && n in w.order[..i])
            && (forall n | n in held :: held[n] == orig[n])
  {
    if i > 0 {
      BackupsShape(orig, w, i - 1);
      DistinctAt(w.order, i - 1);
    }
  }

  lemma SwapShape(orig: Root, w: Wanted, i: nat)
    requires Packaged(w) && i <= |w.order|
    ensures var root := SwapRoot(orig, w, i);
            && (forall n | n in w.order[..i] :: n in root && n in w.content && root[n] == Tree(w.content[n]))
            && (forall n | n !in w.order[..i] :: (n in root <==> n in orig) && (n in orig ==> root[n] == orig[n]))
    ensures var held := Backups(orig, w, i);
            && (forall n :: n in held <==> n in orig && n in w.order[..i])
            && (forall n | n in held :: held[n] == orig[n])
  {
    SwapRootShape(orig, w, i);
    BackupsShape(orig, w, i);
  }

  /** Where the swap is interrupted: before target i is touched, or with it moved away and not yet
      replaced. */
  datatype Point = Never | Staging(i: nat) | BackingUp(i: nat) | Installing(i: nat)

  predicate InRange(w: Wanted, p: Point) {
    !p.Never? ==> p.i < |w.order|
  }

  function RootAt(orig: Root, w: Wanted, p: Point): Root
    requires Packaged(w) && InRange(w, p)
  {
    match p
    case Never => SwapRoot(orig, w, |w.order|)
    case Staging(_) => orig
    case BackingUp(i) => SwapRoot(orig, w, i)
    case Installing(i) => SwapRoot(orig, w, i) - {w.order[i]}
  }

  function BackupsAt(orig: Root, w: Wanted, p: Point): Root
    requires InRange(w, p)
  {
    match p
    case Never => Backups(orig, w, |w.order|)
    case Staging(_) => map[]
    case BackingUp(i) => Backups(orig, w, i)
    case Installing(i) => Backups(orig, w, i + 1)
  }

  /** Every original tree is at its target or in the backups. */
  ghost predicate Conserved(orig: Root, root: Root, backups: Root) {
    forall n | n in orig :: (n in root && root[n] == orig[n]) || (n in backups && backups[n] == orig[n])
  }

  /** How many targets hold the new tree at a point. */
  function Done(w: Wanted, p: Point): nat {
    match p
    case Never => |w.order|
    case Staging(_) => 0
    case BackingUp(i) => i
    case Installing(i) => i
  }

  lemma PointShape(orig: Root, w: Wanted, p: Point)
    requires Packaged(w) && InRange(w, p)
    ensures var root, held, done := RootAt(orig, w, p), BackupsAt(orig, w, p), w.order[..Done(w, p)];
            && (forall n | n in held :: n in orig && held[n] == orig[n] && n in w.order)
            && (forall n | n in orig && n !in held :: n in root && root[n] == orig[n] && n !in done)
            && (forall n | n in done :: n in root && n in w.content && root[n] == Tree(w.content[n]) && n in w.order)
            && (forall n | n in root && n !in done :: n in orig && n !in held && root[n] == orig[n])
            && (p.Installing? && w.order[p.i] in orig ==> w.order[p.i] in held && w.order[p.i] !in root)
  {
    if !p.Staging? {
      SwapShape(orig, w, Done(w, p));
      if !p.Never? {
        DistinctAt(w.order, p.i);
      }
      if p.Installing? {
        SwapShape(orig, w, p.i + 1);
      }
    }
  }

  /** At every point of the swap nothing is lost as long as the backups are kept. */
  lemma BackupsConserve(orig: Root, w: Wanted, p: Point)
    requires Packaged(w) && InRange(w, p)
    ensures Conserved(orig, RootAt(orig, w, p), BackupsAt(orig, w, p))
  {
    PointShape(orig, w, p);
  }

  /** Without the backups the originals survive exactly when each target that was moved away already
      holds again the very tree it held before. */
  lemma WithoutBackups(orig: Root, w: Wanted, p: Point)
    requires Packaged(w) && InRange(w, p)
    ensures var held := BackupsAt(orig, w, p);
            Conserved(orig, RootAt(orig, w, p), map[])
            <==> forall n | n in held :: n in w.order[..Done(w, p)] && held[n] == Tree(w.content[n])
  {
    PointShape(orig, w, p);
    var held, root := BackupsAt(orig, w, p), RootAt(orig, w, p);
    if Conserved(orig, root, map[]) {
      forall n | n in held ensures n in w.order[..Done(w, p)] && held[n] == Tree(w.content[n]) {
        assert n in orig;
      }
    }
  }

  // ---------------------------------------------------------------- the installer

  /** An ordinary exception is caught and undone; an interrupt, such as KeyboardInterrupt, is not. */
  datatype Kind = Error | Interrupt

  /** How the undo ends: well, or failing while removing or restoring the target with that index. */
  datatype Undo = Undone | RemoveFails(i: nat) | RestoreFails(i: nat)

  /** How removing a stale tree fails, if it does: at once, or half-way. */
  datatype Fault = Untouched | HalfRemoved

  /** Where and how the run stops, and where and how the undo does. */
  datatype Plan = Plan(at: Point, kind: Kind, undo: Undo, undoKind: Kind, stale: map<string, Fault>, stateFails: bool)

  datatype Outcome = Installed | StateNotWritten | Raised | RollbackFailed | Interrupted

  /** The first point at which the run stops: the planned one, or the first target that is a link. */
  function FirstLink(orig: Root, w: Wanted, i: nat): Point
    requires i <= |w.order|
    decreases |w.order| - i
  {
    if i == |w.order| then Never
    else if w.order[i] in orig && orig[w.order[i]] == Link then BackingUp(i)
    else FirstLink(orig, w, i + 1)
  }

  function StopsAt(orig: Root, w: Wanted, plan: Plan): (Point, Kind)
    requires InRange(w, plan.at)
  {
    var link := FirstLink(orig, w, 0);
    if plan.at.Staging? || link.Never? then (plan.at, plan.kind)
    else if plan.at.Never? || link.i < plan.at.i || (link.i == plan.at.i && plan.at.Installing?) then (link, Error)
    else (plan.at, plan.kind)
  }

  lemma {:induction false} FirstLinkMeans(orig: Root, w: Wanted, i: nat)
    requires i <= |w.order|
    ensures var p := FirstLink(orig, w, i);
            && (p.Never? || (p.BackingUp? && i <= p.i < |w.order|
                             && w.order[p.i] in orig && orig[w.order[p.i]] == Link))
            && forall j | i <= j < (if p.Never? then |w.order| else p.i) ::
                 w.order[j] in orig ==> orig[w.order[j]] != Link
    decreases |w.order| - i
  {
    if i < |w.order| && !(w.order[i] in orig && orig[w.order[i]] == Link) {
      FirstLinkMeans(orig, w, i + 1);
    }
  }

  /** Some target is a link, which the installer refuses to replace. */
  ghost predicate HasLink(orig: Root, w: Wanted) {
    exists n | n in w.order :: n in orig && orig[n] == Link
  }

  /** Whatever stops the run stops it before the first link is touched. */
  lemma StopsBeforeLinks(orig: Root, w: Wanted, plan: Plan)
    requires Packaged(w) && InRange(w, plan.at)
    ensures var (stop, _) := StopsAt(orig, w, plan);
            && InRange(w, stop)
            && (stop.Never? <==> plan.at.Never? && !HasLink(orig, w))
            && (plan.at.Staging? ==> StopsAt(orig, w, plan) == (plan.at, plan.kind))
            && (forall n | n in BackupsAt(orig, w, stop) :: n in orig && orig[n] != Link)
            && (forall n | n in w.order[..Done(w, stop)] && n in orig :: orig[n] != Link)
  {
    FirstLinkMeans(orig, w, 0);
    var link, stop := FirstLink(orig, w, 0), StopsAt(orig, w, plan).0;
    if link.Never? {
      forall n | n in w.order && n in orig ensures orig[n] != Link {
        var i :| 0 <= i < |w.order| && w.order[i] == n;
      }
    } else {
      assert w.order[link.i] in w.order;
    }
    PointShape(orig, w, stop);
    if !stop.Staging? && !stop.Never? {
      SwapShape(orig, w, Done(w, stop));
      if stop.Installing? {
        SwapShape(orig, w, stop.i + 1);
      }
      forall n | n in w.order[..Done(w, stop)] && n in orig ensures orig[n] != Link {
        var i :| 0 <= i < Done(w, stop) && w.order[i] == n;
      }
      forall n | n in BackupsAt(orig, w, stop) ensures n in orig && orig[n] != Link {
        var i :| 0 <= i < (if stop.Installing? then stop.i + 1 else stop.i) && w.order[i] == n;
      }
    }
  }

  ghost predicate LinksStay(orig: Root, root: Root) {
    forall n | n in orig && orig[n] == Link :: n in root && root[n] == Link
  }

  lemma LinksAtPoint(orig: Root, w: Wanted, plan: Plan)
    requires Packaged(w) && InRange(w, plan.at)
    ensures InRange(w, StopsAt(orig, w, plan).0) && LinksStay(orig, RootAt(orig, w, StopsAt(orig, w, plan).0))
  {
    StopsBeforeLinks(orig, w, plan);
    PointShape(orig, w, StopsAt(orig, w, plan).0);
  }

  lemma LinksUnwound(orig: Root, w: Wanted, root: Root, held: Root, plan: Plan)
    requires Packaged(w) && InRange(w, plan.at) && Unwinding(orig, w, root, held)
    requires InRange(w, StopsAt(orig, w, plan).0) && held.Keys <= BackupsAt(orig, w, StopsAt(orig, w, plan).0).Keys
    ensures LinksStay(orig, root)
  {
    StopsBeforeLinks(orig, w, plan);
    forall n | n in orig && orig[n] == Link ensures n in root && root[n] == Link {
      assert n !in BackupsAt(orig, w, StopsAt(orig, w, plan).0).Keys;
    }
  }

  lemma LinksNotStale(orig: Root, root: Root, previous: set<string>, w: Wanted, prefix: string,
                      faults: map<string, Fault>)
    requires LinksStay(orig, root)
    ensures LinksStay(orig, WithoutStale(root, previous, w, prefix, faults))
  {
  }

  /** A recorded name that is no longer wanted and may be removed. */
  predicate IsStale(previous: set<string>, w: Wanted, prefix: string, n: string) {
    n in previous && n !in w.order && DirectChild(n) && Owned(n, prefix)
  }

  /** A link is refused, and other failures are suppressed; a tree that is gone already stays gone. */
  function RemoveTree(root: Root, n: string, faults: map<string, Fault>): Root {
    if n !in root || root[n] == Link then root
    else if n !in faults then root - {n}
    else if faults[n] == Untouched then root
    else root[n := Damaged]
  }

  /** The root after the removal of the stale names, in any order. */
  function WithoutStale(root: Root, previous: set<string>, w: Wanted, prefix: string, faults: map<string, Fault>): Root
  {
    map n | n in root && (IsStale(previous, w, prefix, n) ==> n in RemoveTree(root, n, faults)) ::
      if IsStale(previous, w, prefix, n) then RemoveTree(root, n, faults)[n] else root[n]
  }

  /** The names that the swap moved away, in order. */
  function Moved(orig: Root, w: Wanted, i: nat): seq<string>
    requires i <= |w.order|
  {
    if i == 0 then []
    else Moved(orig, w, i - 1) + if w.order[i - 1] in orig then [w.order[i - 1]] else []
  }

  function MovedAt(orig: Root, w: Wanted, p: Point): seq<string>
    requires InRange(w, p)
  {
    match p
    case Never => Moved(orig, w, |w.order|)
    case Staging(_) => []
    case BackingUp(i) => Moved(orig, w, i)
    case Installing(i) => Moved(orig, w, i + 1)
  }

  lemma {:induction false} MovedMembers(orig: Root, w: Wanted, i: nat)
    requires i <= |w.order|
    ensures forall n :: n in Moved(orig, w, i) <==> n in Backups(orig, w, i)
  {
    if i > 0 {
      MovedMembers(orig, w, i - 1);
    }
  }

  lemma {:induction false} MovedFrom(orig: Root, w: Wanted, i: nat, n: string)
    requires i <= |w.order| && n in Moved(orig, w, i)
    ensures n in w.order[..i]
  {
    if n != w.order[i - 1] {
      MovedFrom(orig, w, i - 1, n);
    }
  }

  lemma DistinctOn(s: seq<string>, name: string)
    requires Distinct(s) && name !in s
    ensures Distinct(s + [name])
  {
    assert (s + [name])[..|s|] == s;
  }

  lemma {:induction false} MovedDistinct(orig: Root, w: Wanted, i: nat)
    requires i <= |w.order| && Distinct(w.order)
    ensures Distinct(Moved(orig, w, i))
  {
    if i > 0 {
      var init, name := Moved(orig, w, i - 1), w.order[i - 1];
      MovedDistinct(orig, w, i - 1);
      if name in orig {
        DistinctAt(w.order, i - 1);
        if name in init {
          MovedFrom(orig, w, i - 1, name);
        }
        DistinctOn(init, name);
      } else {
        assert init + [] == init;
      }
    }
  }

  lemma MovedMeans(orig: Root, w: Wanted, i: nat)
    requires i <= |w.order| && Packaged(w)
    ensures forall n :: n in Moved(orig, w, i) <==> n in Backups(orig, w, i)
    ensures Distinct(Moved(orig, w, i))
  {
    MovedMembers(orig, w, i);
    MovedDistinct(orig, w, i);
  }

  /** In the middle of the undo: whatever is not in the backups is at its target. */
  ghost predicate Unwinding(orig: Root, w: Wanted, root: Root, backups: Root) {
    && (forall n | n in backups :: n in orig && backups[n] == orig[n] && n in w.order)
    && (forall n | n in orig && n !in backups :: n in root && root[n] == orig[n])
    && (forall n | n in root && n !in w.order :: n in orig)
  }

  lemma UnwindingConserves(orig: Root, w: Wanted, root: Root, backups: Root)
    requires Unwinding(orig, w, root, backups)
    ensures Conserved(orig, root, backups) && OnlyTouches(orig, root, w)
  {
  }

  lemma UnwindingStarts(orig: Root, w: Wanted, p: Point)
    requires Packaged(w) && InRange(w, p)
    ensures Unwinding(orig, w, RootAt(orig, w, p), BackupsAt(orig, w, p))
    ensures forall n | n in RootAt(orig, w, p) && n !in w.order[..Done(w, p)] ::
              n in orig && n !in BackupsAt(orig, w, p)
    ensures forall n | n in w.order[..Done(w, p)] :: n in w.order && (n in orig ==> n in BackupsAt(orig, w, p))
    ensures Distinct(w.order[..Done(w, p)])
  {
    PointShape(orig, w, p);
    DistinctPrefix(w.order, Done(w, p));
  }

  lemma {:induction false} DistinctPrefix(s: seq<string>, i: nat)
    requires Distinct(s) && i <= |s|
    ensures Distinct(s[..i])
  {
    if i == |s| {
      assert s[..i] == s;
    } else {
      DistinctPrefix(s[..|s| - 1], i);
      assert s[..|s| - 1][..i] == s[..i];
    }
  }

  /** One round of the swap loop. */
  lemma SwapNext(orig: Root, w: Wanted, i: nat)
    requires Packaged(w) && i < |w.order|
    ensures var name, root := w.order[i], SwapRoot(orig, w, i);
            && SwapRoot(orig, w, i + 1) == (if name in root then root - {name} else root)[name := Tree(w.content[name])]
            && Backups(orig, w, i + 1)
               == (if name in root then Backups(orig, w, i)[name := root[name]] else Backups(orig, w, i))
            && Moved(orig, w, i + 1) == Moved(orig, w, i) + (if name in root then [name] else [])
            && w.order[..i + 1] == w.order[..i] + [name]
  {
    SwapShape(orig, w, i);
    DistinctAt(w.order, i);
  }

  /** Putting one backup back. */
  lemma RestoreNext(orig: Root, w: Wanted, root: Root, backups: Root, name: string)
    requires Unwinding(orig, w, root, backups) && name in backups && name !in root
    requires forall n | n in root :: n in orig && n !in backups
    ensures var back, left := root[name := backups[name]], backups - {name};
            Unwinding(orig, w, back, left) && forall n | n in back :: n in orig && n !in left
  {
  }

  class SkillsRoot {
    var root: Root
    var backups: Root
    var transaction: bool
    var recorded: set<string>

    /** The swap loop: how far it got is reported by the two lists it appends to. */
    method Swap(w: Wanted, stop: Point) returns (installed: seq<string>, backedUp: seq<string>)
      requires Packaged(w) && InRange(w, stop) && !stop.Staging? && backups == map[]
      modifies this`root, this`backups
      ensures root == RootAt(old(root), w, stop) && backups == BackupsAt(old(root), w, stop)
      ensures installed == w.order[..Done(w, stop)]
      ensures backedUp == MovedAt(old(root), w, stop)
    {
      installed, backedUp := [], [];
      ghost var orig := root;
      for i := 0 to |w.order|
        invariant !stop.Never? ==> i <= stop.i
        invariant root == SwapRoot(orig, w, i) && backups == Backups(orig, w, i)
        invariant installed == w.order[..i] && backedUp == Moved(orig, w, i)
      {
        SwapNext(orig, w, i);
        var name := w.order[i];
        if stop == BackingUp(i) {
          return;
        }
        if name in root {
          backups := backups[name := root[name]];
          root := root - {name};
          backedUp := backedUp + [name];
        }
        if stop == Installing(i) {
          return;
        }
        root := root[name := Tree(w.content[name])];
        installed := installed + [name];
      }
    }

    /** The first half of the undo: remove what was installed, last first. */
    method RemoveInstalled(ghost orig: Root, w: Wanted, installed: seq<string>, undo: Undo) returns (ok: bool)
      requires Unwinding(orig, w, root, backups) && Distinct(installed)
      requires forall n | n in root && n !in installed :: n in orig && n !in backups
      requires forall n | n in installed :: n in w.order && (n in orig ==> n in backups)
      modifies this`root
      ensures Unwinding(orig, w, root, backups)
      ensures ok ==> forall n | n in root :: n in orig && n !in backups
      ensures !ok ==> undo.RemoveFails?
    {
      var i := |installed|;
      while i > 0
        invariant 0 <= i <= |installed|
        invariant Unwinding(orig, w, root, backups)
        invariant forall n | n in root && n !in installed[..i] :: n in orig && n !in backups
      {
        i := i - 1;
        var name := installed[i];
        DistinctAt(installed, i);
        if undo == RemoveFails(i) {
          if name in root {
            root := root[name := Damaged];
          }
          return false;
        }
        root := root - {name};
      }
      return true;
    }

    /** The second half: put every backup back, last first. */
    method RestoreBackups(ghost orig: Root, w: Wanted, backedUp: seq<string>, undo: Undo) returns (ok: bool)
      requires Unwinding(orig, w, root, backups) && Distinct(backedUp)
      requires forall n | n in root :: n in orig && n !in backups
      requires forall n :: n in backedUp <==> n in backups
      modifies this`root, this`backups
      ensures Unwinding(orig, w, root, backups) && forall n | n in backups :: n in old(backups)
      ensures ok ==> root == orig
      ensures !ok ==> undo.RestoreFails?
    {
      var i := |backedUp|;
      while i > 0
        invariant 0 <= i <= |backedUp|
        invariant Unwinding(orig, w, root, backups)
        invariant forall n | n in root :: n in orig && n !in backups
        invariant forall n :: n in backedUp[..i] <==> n in backups
        invariant forall n | n in backups :: n in old(backups)
      {
        i := i - 1;
        var name := backedUp[i];
        DistinctAt(backedUp, i);
        if undo == RestoreFails(i) {
          return false;
        }
        if name in backups && name !in root {
          RestoreNext(orig, w, root, backups, name);
          root := root[name := backups[name]];
          backups := backups - {name};
        }
      }
      return true;
    }

    /** The rollback of the except clause. */
    method Undo(ghost orig: Root, w: Wanted, ghost stop: Point, installed: seq<string>, backedUp: seq<string>,
                undo: Undo)
      returns (ok: bool)
      requires Packaged(w) && InRange(w, stop) && !stop.Staging? && !stop.Never?
      requires root == RootAt(orig, w, stop) && backups == BackupsAt(orig, w, stop)
      requires installed == w.order[..Done(w, stop)] && backedUp == MovedAt(orig, w, stop)
      modifies this`root, this`backups
      ensures Unwinding(orig, w, root, backups) && Conserved(orig, root, backups) && OnlyTouches(orig, root, w)
      ensures forall n | n in backups :: n in old(backups)
      ensures if ok then root == orig else undo != Undone
    {
      UnwindingStarts(orig, w, stop);
      MovedMeans(orig, w, if stop.Installing? then stop.i + 1 else stop.i);
      ok := RemoveInstalled(orig, w, installed, undo);
      if ok {
        ok := RestoreBackups(orig, w, backedUp, undo);
      }
      UnwindingConserves(orig, w, root, backups);
    }

    /** The except clause and the clean-up. What an exception keeps from being undone stays in the transaction
        directory; an interrupt of the undo deletes it. held is what it held when the undo stopped. */
    method RollBack(ghost orig: Root, w: Wanted, stop: Point, installed: seq<string>, backedUp: seq<string>,
                    undo: Undo, kind: Kind)
      returns (r: Outcome, ghost held: Root)
      requires Packaged(w) && InRange(w, stop) && !stop.Staging? && !stop.Never? && transaction
      requires root == RootAt(orig, w, stop) && backups == BackupsAt(orig, w, stop)
      requires installed == w.order[..Done(w, stop)] && backedUp == MovedAt(orig, w, stop)
      modifies this`root, this`backups, this`transaction
      ensures r in {Raised, RollbackFailed, Interrupted} && (transaction <==> r == RollbackFailed)
      ensures r == Raised ==> root == orig
      ensures r != Raised ==> undo != Undone && Unwinding(orig, w, root, held)
      ensures forall n | n in held :: n in old(backups)
      ensures r == RollbackFailed ==> kind == Error && backups == held
      ensures r == Interrupted ==> kind == Interrupt && backups == map[]
    {
      var ok := Undo(orig, w, stop, installed, backedUp, undo);
      held := backups;
      if !ok && kind == Error {
        r := RollbackFailed;
        return;
      }
      transaction, backups := false, map[];
      r := if ok then Raised else Interrupted;
    }

    /** The loop over the recorded names that were not installed. */
    method RemoveStale(w: Wanted, previous: set<string>, prefix: string, faults: map<string, Fault>)
      modifies this`root
      ensures root == WithoutStale(old(root), previous, w, prefix, faults)
    {
      var rest := previous - set n | n in w.order;
      while rest != {}
        invariant rest <= previous - set n | n in w.order
        invariant forall n | n in rest || !IsStale(previous, w, prefix, n) ::
                    (n in root <==> n in old(root)) && (n in root ==> root[n] == old(root)[n])
        invariant forall n | n !in rest && IsStale(previous, w, prefix, n) ::
                    && (n in root <==> n in RemoveTree(old(root), n, faults))
                    && (n in root ==> root[n] == RemoveTree(old(root), n, faults)[n])
        decreases rest
      {
        var name :| name in rest;
        rest := rest - {name};
        if DirectChild(name) && Owned(name, prefix) {
          root := RemoveTree(root, name, faults);
        }
      }
    }

    /** The whole installation under the Hat's lock. held is what the transaction directory held when the swap
        or the undo stopped. */
    method InstallHatSkills(w: Wanted, previous: set<string>, prefix: string, plan: Plan)
      returns (r: Outcome, ghost held: Root)
      requires Packaged(w) && InRange(w, plan.at)
      modifies this
      ensures var (stop, kind) := StopsAt(old(root), w, plan);
              && (r == Installed <==> stop.Never? && !plan.stateFails)
              && (r == StateNotWritten <==> stop.Never? && plan.stateFails)
              && (r in {Raised, RollbackFailed} ==> !stop.Never? && kind == Error)
              && (!stop.Never? && kind == Interrupt ==> r == Interrupted)
              && (!stop.Never? && kind == Error && plan.undo == Undone ==> r == Raised)
              && (r == Interrupted && kind == Interrupt ==>
                    root == RootAt(old(root), w, stop) && held == BackupsAt(old(root), w, stop))
              && (r == Interrupted && kind == Error ==>
                    plan.undoKind == Interrupt && plan.undo != Undone && Unwinding(old(root), w, root, held))
      ensures r in {Installed, StateNotWritten} <==> plan.at.Never? && !HasLink(old(root), w)
      ensures LinksStay(old(root), root)
      ensures r == Interrupted ==> backups == map[]
      ensures transaction <==> r == RollbackFailed
      ensures r == Raised ==> root == old(root)
      ensures r == RollbackFailed ==>
                && plan.undoKind == Error && plan.undo != Undone
                && backups == held && Conserved(old(root), root, backups) && OnlyTouches(old(root), root, w)
      ensures r in {Installed, StateNotWritten} ==>
                root == WithoutStale(SwapRoot(old(root), w, |w.order|), previous, w, prefix, plan.stale)
      ensures recorded == if r == Installed then (set n | n in w.order) else old(recorded)
    {
      transaction, backups, held := true, map[], map[];
      var (stop, kind) := StopsAt(root, w, plan);
      StopsBeforeLinks(root, w, plan);
      LinksAtPoint(root, w, plan);
      if stop.Staging? {
        transaction := false;
        r := if kind == Interrupt then Interrupted else Raised;
        return;
      }
      ghost var orig := root;
      var installed, backedUp := Swap(w, stop);
      if !stop.Never? && kind == Error {
        r, held := RollBack(orig, w, stop, installed, backedUp, plan.undo, plan.undoKind);
        if r != Raised {
          UnwindingConserves(orig, w, root, held);
          LinksUnwound(orig, w, root, held, plan);
        }
        return;
      }
      held := backups;
      transaction, backups := false, map[];
      if !stop.Never? {
        r := Interrupted;
        return;
      }
      LinksNotStale(orig, root, previous, w, prefix, plan.stale);
      RemoveStale(w, previous, prefix, plan.stale);
      r := if plan.stateFails then StateNotWritten else Installed;
      if !plan.stateFails {
        recorded := set n | n in w.order;
      }
    }
  }

  /** An interrupt during the undo deletes what was still in the backups; the originals survive exactly if
      each of those is at its target as well. */
  lemma InterruptedUndo(orig: Root, w: Wanted, root: Root, held: Root)
    requires Unwinding(orig, w, root, held)
    ensures Conserved(orig, root, map[]) <==> forall n | n in held :: n in root && root[n] == held[n]
    ensures OnlyTouches(orig, root, w)
  {
    if Conserved(orig, root, map[]) {
      forall n | n in held ensures n in root && root[n] == held[n] {
        assert n in orig;
      }
    }
  }

  /** No name outside the desired ones differs. */
  ghost predicate OnlyTouches(orig: Root, root: Root, w: Wanted) {
    forall n | n !in w.order :: (n in root <==> n in orig) && (n in orig ==> root[n] == orig[n])
  }

  /** No name outside the Hat's prefix differs. */
  ghost predicate KeepsOthers(orig: Root, root: Root, prefix: string) {
    forall n | !Owned(n, prefix) :: (n in root <==> n in orig) && (n in orig ==> root[n] == orig[n])
  }

  /** Whatever state the installer can leave, no name outside the Hat's prefix has changed. */
  lemma OthersKept(orig: Root, root: Root, w: Wanted, p: Point, previous: set<string>, prefix: string,
                   faults: map<string, Fault>)
    requires WellFormed(w, prefix) && InRange(w, p)
    requires || root == orig
             || root == RootAt(orig, w, p)
             || OnlyTouches(orig, root, w)
             || root == WithoutStale(SwapRoot(orig, w, |w.order|), previous, w, prefix, faults)
    ensures KeepsOthers(orig, root, prefix)
  {
    PointShape(orig, w, p);
    SwapShape(orig, w, |w.order|);
    assert w.order[..|w.order|] == w.order;
  }

  /** On success the root holds exactly the desired trees under their names; a removable recorded name that
      is not desired is there exactly if it is a link or its removal failed; everything else is as it was. */
  lemma InstalledMeans(orig: Root, w: Wanted, previous: set<string>, prefix: string, faults: map<string, Fault>,
                       name: string)
    requires WellFormed(w, prefix)
    ensures var root := WithoutStale(SwapRoot(orig, w, |w.order|), previous, w, prefix, faults);
            if name in w.order then name in root && root[name] == Tree(w.content[name])
            else if name in previous && '/' !in name && |name| > |prefix| && name[..|prefix| + 1] == prefix + "-" then
              && (name in root <==> name in orig && (orig[name] == Link || name in faults))
              && (name in root ==>
                    root[name] == if orig[name] != Link && faults[name] == HalfRemoved then Damaged else orig[name])
            else (name in root <==> name in orig) && (name in orig ==> root[name] == orig[name])
  {
    SwapShape(orig, w, |w.order|);
    assert w.order[..|w.order|] == w.order;
  }

  /** An interrupt with one target moved away deletes the only copy of the original tree. */
  lemma InterruptLosesOriginal()
    ensures var w := Wanted(["hat-0-a"], map["hat-0-a" := "new"]);
            var orig: Root := map["hat-0-a" := Tree("old")];
            && WellFormed(w, "hat-0")
            && StopsAt(orig, w, Plan(Installing(0), Interrupt, Undone, Error, map[], false))
               == (Installing(0), Interrupt)
            && !Conserved(orig, RootAt(orig, w, Installing(0)), map[])
  {
    var w := Wanted(["hat-0-a"], map["hat-0-a" := "new"]);
    var orig: Root := map["hat-0-a" := Tree("old")];
    assert FirstLink(orig, w, 1) == Never;
    assert FirstLink(orig, w, 0) == Never;
    assert "hat-0-a" in orig;
  }
}
