/** Retiring managed files: unlinking what is unchanged, quarantining what was modified. */
module AppRetirement {
  import opened Disk
  import opened Releases
  import opened Transaction

  // ---------------------------------------------------------------- retirement

  /** A managed file that was there is there still, was the pinned one, or is in quarantine. */
  ghost predicate Conserved(before: Files, after: Files, c: string, r: Record) {
    Target(c) in before ==>
      || Same(before, after, Target(c))
      || (Target(c) !in after && (Matches(before[Target(c)], r) || Quarantined(before, after, c)))
  }

  ghost predicate Quarantined(before: Files, after: Files, c: string) {
    Target(c) in before && exists at :: HoldsBytes(before, after, c, at)
  }

  /** The quarantine entry is new and holds the bytes that were at the target. */
  predicate HoldsBytes(before: Files, after: Files, c: string, at: nat) {
    && Target(c) in before && Quarantine(c, at) !in before && Quarantine(c, at) in after
    && after[Quarantine(c, at)].content == before[Target(c)].content
  }

  ghost predicate AllConserved(before: Files, after: Files, records: map<string, Record>) {
    forall c | c in records :: Conserved(before, after, c, records[c])
  }

  /** Nothing that belongs to the component differs. */
  ghost predicate Unvisited(before: Files, after: Files, c: string) {
    Same(before, after, Target(c)) && forall at :: Same(before, after, Quarantine(c, at))
  }

  /** Only the component's target and its quarantine entries may differ. */
  ghost predicate OnlyComponent(before: Files, after: Files, c: string) {
    forall p | p != Target(c) && !(p.Quarantine? && p.component == c) :: Same(before, after, p)
  }

  lemma VisitOne(before: Files, middle: Files, after: Files, records: map<string, Record>, c: string)
    requires c in records && AllConserved(before, middle, records) && Unvisited(before, middle, c)
    requires OnlyComponent(middle, after, c) && Conserved(middle, after, c, records[c])
    ensures AllConserved(before, after, records)
    ensures forall d | d != c && Unvisited(before, middle, d) :: Unvisited(before, after, d)
  {
    forall d | d in records ensures Conserved(before, after, d, records[d]) {
      assert Conserved(before, middle, d, records[d]);
      if d != c {
        assert Same(middle, after, Target(d));
        if Quarantined(before, middle, d) {
          var at :| HoldsBytes(before, middle, d, at);
          assert Same(middle, after, Quarantine(d, at));
          assert HoldsBytes(before, after, d, at);
        }
      } else if Quarantined(middle, after, c) {
        var at :| HoldsBytes(middle, after, c, at);
        assert Same(before, middle, Quarantine(c, at));
        assert HoldsBytes(before, after, c, at);
      }
    }
    forall d | d != c && Unvisited(before, middle, d) ensures Unvisited(before, after, d) {
      assert Same(middle, after, Target(d));
      forall at ensures Same(before, after, Quarantine(d, at)) {
        assert Same(middle, after, Quarantine(d, at)) && Same(before, middle, Quarantine(d, at));
      }
    }
  }

  /** A modified file that is not this user's alone: it can be neither removed nor moved. */
  predicate Stays(files: Files, c: string, r: Record) {
    Target(c) in files && !FileMatches(files, Target(c), r) && !files[Target(c)].sole
  }

  /** What becomes of one component when no operation fails: nothing where there is nothing to do or where it
      stays, removed when it is the pinned file, and otherwise in quarantine under the current time. */
  ghost predicate Retired(before: Files, after: Files, c: string, r: Record, now: nat) {
    if Target(c) !in before || Stays(before, c, r) then Unvisited(before, after, c)
    else
      && Target(c) !in after
      && (!FileMatches(before, Target(c), r) ==> HoldsBytes(before, after, c, now))
      && forall at | at != now || FileMatches(before, Target(c), r) :: Same(before, after, Quarantine(c, at))
  }

  /** Move a modified file to a quarantine entry named by the current time, which is taken to be new.
      A failure after the move is reported as no move. */
  method QuarantineModified(vol: Volume, c: string, now: nat) returns (o: Fate, moved: bool)
    requires Target(c) in vol.files && Quarantine(c, now) !in vol.files
    modifies vol
    ensures forall p | p != Target(c) && p != Quarantine(c, now) :: Same(old(vol.files), vol.files, p)
    ensures vol.files == old(vol.files) || (Target(c) !in vol.files && HoldsBytes(old(vol.files), vol.files, c, now))
    ensures moved ==> Target(c) !in vol.files && vol.failures == old(vol.failures)
    ensures !o.Raised? && vol.failures >= old(vol.failures)
    ensures o.Killed? ==> vol.failures > old(vol.failures)
    ensures vol.failures == old(vol.failures) ==> (moved <==> old(vol.files[Target(c)].sole))
    ensures !old(vol.files[Target(c)].sole) ==> o.Done? && vol.files == old(vol.files)
  {
    if !vol.files[Target(c)].sole {
      return Done, false;
    }
    o := vol.Replace(Target(c), Quarantine(c, now));
    if !o.Done? {
      return if o.Killed? then Killed else Done, false;
    }
    var restricted: bool := *;
    if restricted {
      vol.files := vol.files[Quarantine(c, now) := vol.files[Quarantine(c, now)].(mode := OWNER_ONLY)];
    }
    o := vol.Fsync();
    return if o.Killed? then Killed else Done, o.Done?;
  }

  /** One component: unlink it when it is the pinned file, otherwise quarantine it. */
  method RetireComponent(vol: Volume, c: string, record: Record, now: nat) returns (o: Fate, gone: bool)
    requires Quarantine(c, now) !in vol.files
    modifies vol
    ensures OnlyComponent(old(vol.files), vol.files, c)
    ensures Conserved(old(vol.files), vol.files, c, record)
    ensures o.Done? && gone ==> Target(c) !in vol.files && vol.failures == old(vol.failures)
    ensures vol.failures == old(vol.failures) ==>
              o.Done? && Retired(old(vol.files), vol.files, c, record, now)
              && (gone <==> !Stays(old(vol.files), c, record))
    ensures o.Done? && !gone ==> Target(c) in vol.files || Quarantined(old(vol.files), vol.files, c)
    ensures vol.failures >= old(vol.failures)
  {
    if Target(c) !in vol.files {
      return Done, true;
    }
    if FileMatches(vol.files, Target(c), record) {
      o := vol.Unlink(Target(c));
      return o, o.Done?;
    }
    o, gone := QuarantineModified(vol, c, now);
  }

  /** A target or quarantine entry of one of the components. */
  predicate Belongs(p: Path, which: set<string>) {
    (p.Target? || p.Quarantine?) && p.component in which
  }

  /** Nothing differs but targets and quarantine entries of the components. */
  ghost predicate OnlyThose(before: Files, after: Files, which: set<string>) {
    forall p | !Belongs(p, which) :: Same(before, after, p)
  }

  /** The component is dealt with: it is gone, or kept on record because it is still there, or because
      flushing its move to quarantine failed. */
  ghost predicate DealtWith(start: Files, files: Files, c: string, r: Record, kept: bool, calm: bool, now: nat) {
    && (!kept ==> Target(c) !in files)
    && (kept ==> Target(c) in files || (!calm && Quarantined(start, files, c)))
    && (calm ==> Retired(start, files, c, r, now) && (kept <==> Stays(start, c, r)))
  }

  lemma VisitSettles(start: Files, middle: Files, files: Files, c: string, r: Record, kept: bool, calm: bool, now: nat)
    requires Unvisited(start, middle, c)
    requires !kept ==> Target(c) !in files
    requires kept ==> Target(c) in files || (!calm && Quarantined(middle, files, c))
    requires calm ==> Retired(middle, files, c, r, now) && (kept <==> Stays(middle, c, r))
    ensures DealtWith(start, files, c, r, kept, calm, now)
  {
    assert Same(start, middle, Target(c));
    if Quarantined(middle, files, c) {
      var at :| HoldsBytes(middle, files, c, at);
      assert Same(start, middle, Quarantine(c, at));
      assert HoldsBytes(start, files, c, at);
    }
    if calm {
      forall at ensures Same(middle, files, Quarantine(c, at)) ==> Same(start, files, Quarantine(c, at)) {
        assert Same(start, middle, Quarantine(c, at));
      }
    }
  }

  lemma VisitLeaves(start: Files, middle: Files, files: Files, d: string, r: Record, kept: bool, calm: bool,
                    still: bool, now: nat)
    requires DealtWith(start, middle, d, r, kept, calm, now) && Unvisited(middle, files, d) && (still ==> calm)
    ensures DealtWith(start, files, d, r, kept, still, now)
  {
    assert Same(middle, files, Target(d));
    if Quarantined(start, middle, d) {
      var at :| HoldsBytes(start, middle, d, at);
      assert Same(middle, files, Quarantine(d, at));
      assert HoldsBytes(start, files, d, at);
    }
    if still {
      forall at ensures Same(start, middle, Quarantine(d, at)) ==> Same(start, files, Quarantine(d, at)) {
        assert Same(middle, files, Quarantine(d, at));
      }
      assert Same(middle, files, Quarantine(d, now));
    }
  }

  /** One turn of the loop over components; one that cannot be preserved raises when it must not go on. */
  method RetireOne(vol: Volume, ghost start: Files, records: map<string, Record>, ghost which: set<string>, c: string,
                   strict: bool, now: nat)
    returns (o: Fate, gone: bool)
    requires c in records && c in which && Quarantine(c, now) !in start
    requires AllConserved(start, vol.files, records) && Unvisited(start, vol.files, c)
    requires OnlyThose(start, vol.files, which)
    modifies vol
    ensures AllConserved(start, vol.files, records) && OnlyThose(start, vol.files, which)
    ensures forall d | d != c :: Unvisited(old(vol.files), vol.files, d)
    ensures forall d | d != c && Unvisited(start, old(vol.files), d) :: Unvisited(start, vol.files, d)
    ensures o.Done? ==> DealtWith(start, vol.files, c, records[c], !gone, vol.failures == old(vol.failures), now)
    ensures vol.failures >= old(vol.failures)
    ensures if strict then o.Done? <==> vol.failures == old(vol.failures) && !Stays(start, c, records[c])
            else vol.failures == old(vol.failures) ==> o.Done?
    ensures o.Done? && strict ==> gone
  {
    ghost var middle, sofar := vol.files, vol.failures;
    assert Same(start, middle, Quarantine(c, now)) && Same(start, middle, Target(c));
    o, gone := RetireComponent(vol, c, records[c], now);
    VisitOne(start, middle, vol.files, records, c);
    if o.Done? {
      VisitSettles(start, middle, vol.files, c, records[c], !gone, vol.failures == sofar, now);
    }
    if o.Done? && !gone && strict {
      o := Raised;
    }
  }

  /** The loop over components. The records it could not remove are returned. It does not finish if a component
      has to stay and must not; other failures stop it too, or leave the component on record. */
  method RetireAll(vol: Volume, records: map<string, Record>, which: set<string>, strict: bool, now: nat)
    returns (o: Fate, preserved: set<string>)
    requires which <= records.Keys
    requires forall c | c in which :: Quarantine(c, now) !in vol.files
    modifies vol
    ensures AllConserved(old(vol.files), vol.files, records)
    ensures OnlyThose(old(vol.files), vol.files, which)
    ensures preserved <= which
    ensures o.Done? ==> forall c | c in which ::
              DealtWith(old(vol.files), vol.files, c, records[c], c in preserved,
                        vol.failures == old(vol.failures), now)
    ensures vol.failures >= old(vol.failures)
    ensures if strict then
              o.Done? <==> vol.failures == old(vol.failures)
                           && forall c | c in which :: !Stays(old(vol.files), c, records[c])
            else vol.failures == old(vol.failures) ==> o.Done?
    ensures o.Done? && strict ==> preserved == {}
  {
    var rest := which;
    preserved := {};
    ghost var start, was := vol.files, vol.failures;
    while rest != {}
      invariant rest <= which && preserved <= which - rest && vol.failures >= was
      invariant AllConserved(start, vol.files, records)
      invariant OnlyThose(start, vol.files, which)
      invariant forall c | c in rest :: Unvisited(start, vol.files, c)
      invariant forall c | c in which - rest ::
                  DealtWith(start, vol.files, c, records[c], c in preserved, vol.failures == was, now)
      invariant strict ==> preserved == {} && vol.failures == was
      invariant strict ==> forall c | c in which - rest :: !Stays(start, c, records[c])
      decreases rest
    {
      var c :| c in rest;
      rest := rest - {c};
      ghost var middle, sofar := vol.files, vol.failures;
      var gone;
      o, gone := RetireOne(vol, start, records, which, c, strict, now);
      if !o.Done? {
        return;
      }
      ghost var before := preserved;
      if !gone {
        preserved := preserved + {c};
      }
      NextSettled(start, middle, vol.files, records, which - rest, c, before, preserved, sofar == was,
                  vol.failures == sofar, now);
    }
    return Done, preserved;
  }

  lemma NextSettled(start: Files, middle: Files, files: Files, records: map<string, Record>, so: set<string>, c: string,
                    before: set<string>, preserved: set<string>, calm: bool, still: bool, now: nat)
    requires so <= records.Keys && c in so && c !in before && preserved - {c} == before
    requires forall d | d in so && d != c :: DealtWith(start, middle, d, records[d], d in before, calm, now)
    requires forall d | d != c :: Unvisited(middle, files, d)
    requires DealtWith(start, files, c, records[c], c in preserved, still, now)
    ensures forall d | d in so :: DealtWith(start, files, d, records[d], d in preserved, calm && still, now)
  {
    forall d | d in so ensures DealtWith(start, files, d, records[d], d in preserved, calm && still, now) {
      if d != c {
        VisitLeaves(start, middle, files, d, records[d], d in before, calm, calm && still, now);
      }
    }
  }
}
