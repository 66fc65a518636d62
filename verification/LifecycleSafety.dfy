/** What holds over every run of the account lifecycle, with any crashes and any number of workers. */
module LifecycleSafety {
  import opened Text
  import opened AccountStore
  import opened Lifecycle
  import opened LifecycleInvariant

  // ---------------------------------------------------------------- the store

  /** The operation that a step performs on the account store. */
  ghost function StoreOp(s: State, t: Step): Option<Op>
    requires Enabled(s, t)
  {
    match t
    case Env(e) => if e.Wipe? && e.store_ then Some(DeleteAll) else None
    case Install(p, x) =>
      var q := s.procs[p];
      if x.Save? then
        Some(if q.h in s.w.handoffs && !s.w.handoffs[q.h].adds then Replace(q.c.connection, q.c) else Add(q.c))
      else if x.AckCheck? && q.h in s.w.receipts && Holds(s.w.store, s.w.receipts[q.h])
              && s.w.receipts[q.h].binding != s.w.binding then Some(DeleteAll)
      else None
    case Renew(p, r) =>
      var expected := s.procs[p].expected;
      Some(match r
           case Persist(accessToken, expiresAt, rotated) => Refresh(expected, accessToken, expiresAt, rotated)
           case MarkRenewalNeeded(note) => MarkRenewal(expected, note))
    case Disconnect(p, d) =>
      if d.RemoveCredential? then Some(Delete(s.w.intents[s.procs[p].i].target)) else None
    case _ => None
  }

  ghost predicate FollowsOp(a: Accounts, op: Option<Op>, b: Accounts) {
    if op.Some? then Guarded(a, op.value) && b == AfterOp(a, op.value) else b == a
  }

  lemma EnvFollows(w: World, e: EnvStep)
    requires EnvReady(w, e) && ValidAccounts(w.store)
    ensures FollowsOp(w.store, if e.Wipe? && e.store_ then Some(DeleteAll) else None, AfterEnv(w, e).store)
  {
    GuardsSuffice(w.store, DeleteAll);
  }

  lemma SaveFollows(s: State, p: Pid)
    requires Inv(s) && Enabled(s, Install(p, Save))
    ensures FollowsOp(s.w.store, StoreOp(s, Install(p, Save)), InstallEffect(s.w, s.procs[p], Save).w.store)
  {
    PlacedAt(s, p, false);
    GuardsSuffice(s.w.store, StoreOp(s, Install(p, Save)).value);
  }

  lemma InstallFollows(s: State, p: Pid, x: InstallStep)
    requires Inv(s) && Enabled(s, Install(p, x))
    ensures FollowsOp(s.w.store, StoreOp(s, Install(p, x)), InstallEffect(s.w, s.procs[p], x).w.store)
  {
    if x.Save? {
      SaveFollows(s, p);
    } else if x.AckCheck? {
      GuardsSuffice(s.w.store, DeleteAll);
    } else {
      InstallLeavesStore(s.w, s.procs[p], x);
    }
  }

  lemma InstallLeavesStore(w: World, q: Proc, x: InstallStep)
    requires InstallReady(w, q, x) && !x.Save? && !x.AckCheck?
    ensures InstallEffect(w, q, x).w.store == w.store
  {
  }

  lemma RenewFollows(s: State, p: Pid, r: RefreshStep)
    requires Inv(s) && Enabled(s, Renew(p, r))
    ensures FollowsOp(s.w.store, StoreOp(s, Renew(p, r)), RefreshEffect(s.w, s.procs[p], r).w.store)
  {
    GuardsSuffice(s.w.store, StoreOp(s, Renew(p, r)).value);
  }

  lemma DropsCredential(w: World, q: Proc, d: DisconnectStep)
    requires DisconnectReady(w, q, d)
    ensures DisconnectPlan(w, q, d).write.DropCredential? <==> d.RemoveCredential?
  {
  }

  lemma RemovalFollows(s: State, p: Pid)
    requires Inv(s) && Enabled(s, Disconnect(p, RemoveCredential))
    ensures var target := s.w.intents[s.procs[p].i].target;
            FollowsOp(s.w.store, Some(Delete(target)), s.w.store - {target})
  {
    PlacedAt(s, p, false);
    GuardsSuffice(s.w.store, Delete(s.w.intents[s.procs[p].i].target));
  }

  lemma DisconnectFollows(s: State, p: Pid, d: DisconnectStep)
    requires Inv(s) && Enabled(s, Disconnect(p, d))
    ensures FollowsOp(s.w.store, StoreOp(s, Disconnect(p, d)), DisconnectEffect(s.w, s.procs[p], d).w.store)
  {
    var q := s.procs[p];
    DropsCredential(s.w, q, d);
    WriteFrame(s.w, q.i, DisconnectPlan(s.w, q, d).write);
    if d.RemoveCredential? {
      RemovalFollows(s, p);
    }
  }

  lemma LaunchLeavesStore(w: World, l: LaunchStep)
    requires LaunchReady(w, l)
    ensures LaunchEffect(w, l).w.store == w.store
  {
  }

  /** The store changes only by its own operations, each with its guard satisfied. */
  lemma StoreChangesAreGuarded(s: State, t: Step)
    requires Inv(s) && Enabled(s, t)
    ensures FollowsOp(s.w.store, StoreOp(s, t), EffectOf(s, t).w.store)
    ensures Apply(s, t).w == EffectOf(s, t).w
  {
    match t
    case Env(e) => EnvFollows(s.w, e);
    case Crash(_) =>
    case Launch(_, l) => LaunchLeavesStore(s.w, l);
    case Install(p, x) => InstallFollows(s, p, x);
    case Renew(p, r) => RenewFollows(s, p, r);
    case Disconnect(p, d) => DisconnectFollows(s, p, d);
  }

  /** Ids and Google accounts are unique in every store that a run can reach. */
  lemma StoresStayUnique(run: seq<Step>)
    requires IsRun(INITIAL, run)
    ensures ValidAccounts(After(INITIAL, run).w.store)
  {
    InitialInv();
    RunKeeps(INITIAL, run);
  }

  /** New tokens are saved only for the very account that was read, and only under the current assignment; a
      renewal mark likewise, under any. */
  lemma RefreshIsCurrent(s: State, p: Pid, r: RefreshStep)
    requires Enabled(s, Renew(p, r))
    ensures var read := s.procs[p].expected;
            && s.lock.None? && read.connection in s.w.store
            && SameLineage(s.w.store[read.connection], read)
            && s.w.store[read.connection].refreshToken == read.refreshToken
            && (r.Persist? ==> s.w.store[read.connection].binding == s.w.binding)
  {
    FingerprintsMean(s.w.store[s.procs[p].expected.connection], s.procs[p].expected);
  }

  /** A handoff saves only under the lock, a grant that it may install into the store as it is, with its receipt for
      exactly that credential on disk and no credential like it anywhere; and begins only as the active one,
      with a grant of the current assignment. */
  lemma InstallIsDisciplined(run: seq<Step>, p: Pid, x: InstallStep)
    requires IsRun(INITIAL, run) && Enabled(After(INITIAL, run), Install(p, x)) && (x.Save? || x.Begin?)
    ensures var s := After(INITIAL, run);
            var h, c := s.procs[p].h, if x.Begin? then x.c else s.procs[p].c;
            && h in s.w.handoffs && c.connection == s.w.handoffs[h].target
            && (if s.w.handoffs[h].adds
                then c.connection !in s.w.store && forall id | id in s.w.store :: s.w.store[id].subject != c.subject
                else c.connection in s.w.store && s.w.store[c.connection].subject == c.subject)
            && (x.Save? ==>
                  && s.lock == Some(p) && h in s.w.receipts && s.w.receipts[h] == InstallGeneration(c)
                  && forall id | id in s.w.store :: s.w.store[id].connectedAt != c.connectedAt)
            && (x.Begin? ==> s.lock.None? && s.w.handoffMarker == Some(h) && c.binding == s.w.binding)
  {
    InitialInv();
    RunKeeps(INITIAL, run);
    PlacedAt(After(INITIAL, run), p, false);
  }

  // ---------------------------------------------------------------- lock sections

  ghost function Mover(t: Step): Option<Pid> {
    if t.Env? then None else Some(t.p)
  }

  /** Nobody else disturbs a lock section. */
  lemma SectionsAreIsolated(s: State, t: Step, p: Pid)
    requires Inv(s) && Enabled(s, t) && s.lock == Some(p) && Mover(t) != Some(p)
    ensures var z := Apply(s, t);
            z.lock == Some(p) && p in z.procs && z.procs[p] == s.procs[p] && Quiet(s.w, z.w)
  {
    assert HoldsLock(s.procs[p]);
    match t
    case Env(e) => EnvQuiet(s.w, e);
    case Crash(o) => assert !HoldsLock(s.procs[o]);
    case Launch(o, l) => LaunchNext(s.w, l);
    case Install(o, x) =>
      PlacedAt(s, o, InstallLocks(x));
      InstallNext(s.w, Holder(s), s.procs[o], x);
    case Renew(_, _) =>
    case Disconnect(o, d) =>
      PlacedAt(s, o, DisconnectLocks(d));
      PlanNext(s.w, s.procs[o], d);
      PlanInOrder(s.w, Holder(s), s.procs[o], d);
      WriteQuiet(s.w, s.procs[o].i, DisconnectPlan(s.w, s.procs[o], d).write);
  }

  // ---------------------------------------------------------------- disconnects

  /** The lock section goes on to delete exactly if the marker, the generation and the assignment match;
      with the credential already absent it goes on without a deletion. */
  lemma MatchedMeans(s: State, p: Pid)
    requires Enabled(s, Disconnect(p, DeleteBegin))
    ensures var i := s.procs[p].i;
            var z := Apply(s, Disconnect(p, DeleteBegin));
            && (z.procs[p] == Matched(i, true) <==> s.w.disconnectMarker == Some(i) && Targeted(s.w, i))
            && (z.procs[p] == Matched(i, false)
                <==> s.w.disconnectMarker == Some(i) && s.w.intents[i].target !in s.w.store)
            && (HoldsLock(z.procs[p]) <==> z.procs[p].Matched?)
  {
  }

  /** What the lock section has established when it removes the credential. */
  predicate Disciplined(s: State, p: Pid)
    requires p in s.procs && IsDisconnectProc(s.procs[p]) && s.procs[p].i in s.w.intents
  {
    var i := s.procs[p].i;
    var t := s.w.intents[i];
    && s.lock == Some(p)
    && s.w.disconnectMarker == Some(i)
    && t.target in s.w.store && DisconnectGeneration(s.w.store[t.target]) == t.generation
    && i in s.w.aimed && s.w.store[t.target].binding == s.w.aimed[i]
    && i in s.w.recorded && t.claimed && s.w.handoffMarker.None?
  }

  lemma HolderIsDisciplined(s: State, p: Pid)
    requires Inv(s) && Enabled(s, Disconnect(p, RemoveCredential))
    ensures Disciplined(s, p)
  {
    PlacedAt(s, p, false);
  }

  lemma RemovesOneOnly(w: World, q: Proc)
    requires DisconnectReady(w, q, RemoveCredential)
    ensures DisconnectEffect(w, q, RemoveCredential).w.store == w.store - {w.intents[q.i].target}
  {
  }

  /** A disconnect deletes only under the lock, with its marker in place, the credential of its own
      generation in the store, delete_pending recorded, the deletion claimed and the handoffs cancelled;
      and it deletes nothing else. */
  lemma DeletionIsDisciplined(run: seq<Step>, p: Pid)
    requires IsRun(INITIAL, run) && Enabled(After(INITIAL, run), Disconnect(p, RemoveCredential))
    ensures var s := After(INITIAL, run);
            && Disciplined(s, p)
            && EffectOf(s, Disconnect(p, RemoveCredential)).w.store
               == s.w.store - {s.w.intents[s.procs[p].i].target}
  {
    InitialInv();
    RunKeeps(INITIAL, run);
    HolderIsDisciplined(After(INITIAL, run), p);
    RemovesOneOnly(After(INITIAL, run).w, After(INITIAL, run).procs[p]);
  }

  /** Once the platform has an intent as disconnected, the deletion was claimed, the credential that the
      intent was prepared for is not in the store, and neither ever changes. */
  lemma NoFalseCompletion(run: seq<Step>, later: seq<Step>, i: IntentId)
    requires IsRun(INITIAL, run) && IsRun(After(INITIAL, run), later)
    requires i in After(INITIAL, run).w.intents && After(INITIAL, run).w.intents[i].status == Disconnected
    ensures var s, z := After(INITIAL, run), After(After(INITIAL, run), later);
            && i in z.w.intents && z.w.intents[i].status == Disconnected && z.w.intents[i].claimed
            && (s.w.intents[i].target in z.w.store ==>
                  DisconnectGeneration(z.w.store[s.w.intents[i].target]) != s.w.intents[i].generation)
  {
    InitialInv();
    RunKeeps(INITIAL, run);
    RunKeeps(After(INITIAL, run), later);
    var s, z := After(INITIAL, run), After(After(INITIAL, run), later);
    assert IntentGrows(s.w, z.w, i);
    assert IntentOk(z.w, Holder(z), i);
  }

  lemma {:induction false} DeletedStaysOut(v: State, i: IntentId, later: seq<Step>)
    requires Inv(v) && i in v.w.deleted && IsRun(v, later)
    ensures var z := After(v, later);
            && Inv(z) && v.w.cancelled <= z.w.cancelled
            && i in v.w.intents && v.w.intents[i].target !in z.w.store
  {
    RunKeeps(v, later);
    var z := After(v, later);
    assert IntentGrows(v.w, z.w, i);
    assert IntentOk(z.w, Holder(z), i);
  }

  lemma RemovalTakesEffect(w: World, q: Proc)
    requires DisconnectReady(w, q, RemoveCredential)
    ensures var v := DisconnectEffect(w, q, RemoveCredential).w;
            && q.i in v.deleted && w.handoffs.Keys <= v.cancelled
            && q.i in v.intents && v.intents[q.i] == w.intents[q.i]
  {
  }

  lemma CancelledAreDone(z: State, o: Pid, x: InstallStep)
    requires Inv(z) && Enabled(z, Install(o, x)) && (x.Begin? || x.Save?)
    ensures z.procs[o].h !in z.w.cancelled
  {
    assert Installing(z.w, Holder(z), z.procs[o].h) by {
      if x.Save? {
        assert HoldsLock(z.procs[o]);
      }
    }
  }

  /** After a disconnect has removed a credential, no install, token refresh or renewal mark, begun before
      or after, brings its connection back. */
  lemma NoResurrection(run: seq<Step>, p: Pid, later: seq<Step>)
    requires IsRun(INITIAL, run) && Enabled(After(INITIAL, run), Disconnect(p, RemoveCredential))
    requires IsRun(Apply(After(INITIAL, run), Disconnect(p, RemoveCredential)), later)
    ensures var s := After(INITIAL, run);
            s.w.intents[s.procs[p].i].target !in After(Apply(s, Disconnect(p, RemoveCredential)), later).w.store
  {
    InitialInv();
    RunKeeps(INITIAL, run);
    var s := After(INITIAL, run);
    StepKeeps(s, Disconnect(p, RemoveCredential));
    RemovalTakesEffect(s.w, s.procs[p]);
    DeletedStaysOut(Apply(s, Disconnect(p, RemoveCredential)), s.procs[p].i, later);
  }

  /** After a disconnect has removed a credential, only a handoff that was started later can install one. */
  lemma OnlyLaterHandoffsInstall(run: seq<Step>, p: Pid, later: seq<Step>, o: Pid, x: InstallStep)
    requires IsRun(INITIAL, run) && Enabled(After(INITIAL, run), Disconnect(p, RemoveCredential))
    requires IsRun(Apply(After(INITIAL, run), Disconnect(p, RemoveCredential)), later)
    requires x.Begin? || x.Save?
    requires Enabled(After(Apply(After(INITIAL, run), Disconnect(p, RemoveCredential)), later), Install(o, x))
    ensures var s := After(INITIAL, run);
            After(Apply(s, Disconnect(p, RemoveCredential)), later).procs[o].h !in s.w.handoffs
  {
    InitialInv();
    RunKeeps(INITIAL, run);
    var s := After(INITIAL, run);
    StepKeeps(s, Disconnect(p, RemoveCredential));
    RemovalTakesEffect(s.w, s.procs[p]);
    DeletedStaysOut(Apply(s, Disconnect(p, RemoveCredential)), s.procs[p].i, later);
    CancelledAreDone(After(Apply(s, Disconnect(p, RemoveCredential)), later), o, x);
  }
}
