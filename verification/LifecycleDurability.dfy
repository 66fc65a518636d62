/** Durable completion: while the platform has not settled an intent whose credential is gone, the
    worker's directory and receipt stay on disk, so that the completion can be resumed. */
module LifecycleDurability {
  import opened Text
  import opened AccountStore
  import opened Lifecycle
  import opened LifecycleInvariant

  /** The worker removed the credential, and the platform has not settled the intent. */
  predicate Owed(w: World, i: IntentId) {
    i in w.deleted && i in w.intents && !IsTerminal(w.intents[i].status)
  }

  predicate DirOk(w: World, i: IntentId) {
    i in w.dirs && w.dirs[i].intentFile
  }

  /** The completion can be resumed: the intent file and a receipt with outcome disconnected are there. */
  predicate Kept(w: World, i: IntentId) {
    DirOk(w, i) && (w.dirs[i].receipt == Some(DeletePending) || w.dirs[i].receipt == Some(CompletionPending))
  }

  ghost predicate Durable(w: World) {
    forall i | i in w.deleted :: Owed(w, i) ==> Kept(w, i)
  }

  /** The worker's step takes from its own intent what the completion is resumed from. */
  predicate LosesOwn(w: World, q: Proc, d: DisconnectStep)
    requires IsDisconnectProc(q)
  {
    || (d.Exit? && q.Exiting? && Removes(w, q) && Owed(w, q.i))
    || (d.ExpireWrite? && Owed(w, q.i))
    || (d.RemoveCredential? && q.i in w.intents && !IsTerminal(w.intents[q.i].status) && !Kept(w, q.i))
  }

  /** The steps that lose a completion. */
  predicate LosesCompletion(s: State, t: Step) {
    t.Disconnect? && t.p in s.procs && IsDisconnectProc(s.procs[t.p]) && LosesOwn(s.w, s.procs[t.p], t.d)
  }

  // ---------------------------------------------------------------- every step, with any number of workers

  /** Only cleaning up touches a directory: after a start that failed, or without a receipt. */
  lemma EnvDirs(w: World, e: EnvStep, i: IntentId)
    requires EnvReady(w, e) && Kept(w, i) && i in w.intents && w.intents[i].status != Created
    ensures Kept(AfterEnv(w, e), i)
  {
  }

  lemma EnvDurable(w: World, holder: Option<Proc>, e: EnvStep, i: IntentId)
    requires WorldOk(w, holder) && EnvReady(w, e)
    requires i in w.deleted && (Owed(w, i) ==> Kept(w, i))
    ensures Owed(AfterEnv(w, e), i) ==> Kept(AfterEnv(w, e), i)
  {
    assert IntentOk(w, holder, i);
    EnvRest(w, e);
    EnvGrowsIntent(w, e, i);
    if Owed(w, i) {
      EnvDirs(w, e, i);
    }
  }

  /** What a write does to what is owed. */
  lemma WriteDurable(w: World, i: IntentId, x: Write, j: IntentId)
    requires i in w.intents && j in w.intents && (x.Settle? ==> IsTerminal(x.t))
    requires x == PutReceipt(DeletePending) ==> MayWrite(ReceiptOf(w.dirs, i), DeletePending)
    requires Owed(w, j) ==> Kept(w, j)
    ensures var z := AfterWrite(w, i, x);
            (Owed(z, j) ==> Kept(z, j))
            <==> !(j == i && ((x.DropDir? && Owed(w, i)) || (x == PutReceipt(ExpiredPending) && Owed(w, i))
                              || (x.DropCredential? && !IsTerminal(w.intents[i].status) && !Kept(w, i))))
  {
  }

  /** Which steps make which write. */
  ghost predicate WritesAre(w: World, q: Proc, d: DisconnectStep)
    requires DisconnectReady(w, q, d)
  {
    var x := DisconnectPlan(w, q, d).write;
    && (x.DropDir? <==> d.Exit? && Removes(w, q))
    && (x == PutReceipt(ExpiredPending) <==> d.ExpireWrite?)
    && (x.DropCredential? <==> d.RemoveCredential?)
    && (x.PutReceipt? && !x.r.ExpiredPending? ==> MayWrite(ReceiptOf(w.dirs, q.i), x.r))
    && (x.Settle? ==> IsTerminal(x.t))
  }

  lemma DeletionWrites(w: World, q: Proc, d: DisconnectStep)
    requires DisconnectReady(w, q, d) && IsDeletion(d)
    ensures WritesAre(w, q, d)
  {
  }

  lemma PlanWrites(w: World, q: Proc, d: DisconnectStep)
    requires DisconnectReady(w, q, d)
    ensures WritesAre(w, q, d)
  {
    if IsDeletion(d) {
      DeletionWrites(w, q, d);
    }
  }

  lemma DisconnectDurable(w: World, q: Proc, d: DisconnectStep, j: IntentId)
    requires DisconnectReady(w, q, d) && j in w.intents && (Owed(w, j) ==> Kept(w, j))
    ensures var z := DisconnectEffect(w, q, d).w;
            (Owed(z, j) ==> Kept(z, j)) <==> !(j == q.i && LosesOwn(w, q, d))
  {
    PlanWrites(w, q, d);
    WriteDurable(w, q.i, DisconnectPlan(w, q, d).write, j);
  }

  lemma InstallDurable(w: World, q: Proc, x: InstallStep)
    requires InstallReady(w, q, x) && q.h in w.handoffs
    ensures Durable(InstallEffect(w, q, x).w) <==> Durable(w)
  {
    InstallFrame(w, q, x);
  }

  lemma LaunchDurable(w: World, l: LaunchStep)
    requires LaunchReady(w, l) && Durable(w) && w.deleted <= w.intents.Keys
    ensures Durable(LaunchEffect(w, l).w)
  {
  }

  lemma LosesRecorded(w: World, q: Proc, d: DisconnectStep)
    requires DisconnectReady(w, q, d)
    ensures q.i in DisconnectEffect(w, q, d).w.deleted <==> q.i in w.deleted || d.RemoveCredential?
  {
    PlanWrites(w, q, d);
    WriteHistory(w, q.i, DisconnectPlan(w, q, d).write);
  }

  lemma DisconnectDurableIff(w: World, q: Proc, d: DisconnectStep)
    requires DisconnectReady(w, q, d) && w.deleted <= w.intents.Keys && Durable(w)
    ensures Durable(DisconnectEffect(w, q, d).w) <==> !LosesOwn(w, q, d)
  {
    var z := DisconnectEffect(w, q, d).w;
    WriteHistory(w, q.i, DisconnectPlan(w, q, d).write);
    LosesRecorded(w, q, d);
    DisconnectDurable(w, q, d, q.i);
    forall j | j in z.deleted && j != q.i ensures Owed(z, j) ==> Kept(z, j) {
      DisconnectDurable(w, q, d, j);
    }
  }

  /** A step loses a completion exactly if it is one of three: a worker of the intent that removes the
      directory, one that records an expiry over the receipt, or a removal without its receipt on disk. */
  lemma DurableIff(s: State, t: Step)
    requires Inv(s) && Enabled(s, t) && Durable(s.w)
    ensures Durable(Apply(s, t).w) <==> !LosesCompletion(s, t)
  {
    match t
    case Env(e) =>
      var z := AfterEnv(s.w, e);
      EnvRest(s.w, e);
      forall i | i in z.deleted ensures Owed(z, i) ==> Kept(z, i) {
        EnvDurable(s.w, Holder(s), e, i);
      }
    case Crash(_) =>
    case Launch(_, l) => LaunchDurable(s.w, l);
    case Install(p, x) => InstallDurable(s.w, s.procs[p], x);
    case Renew(p, r) => RefreshRest(s.w, s.procs[p], r);
    case Disconnect(p, d) => DisconnectDurableIff(s.w, s.procs[p], d);
  }

  // ---------------------------------------------------------------- one worker for each intent

  /** No two processes work on one intent. */
  ghost predicate Alone(s: State) {
    forall p, o | p in s.procs && o in s.procs && p != o
                  && IsDisconnectProc(s.procs[p]) && IsDisconnectProc(s.procs[o]) ::
      s.procs[p].i != s.procs[o].i
  }

  /** The step starts no second worker. */
  ghost predicate AloneStep(s: State, t: Step) {
    t.Launch? && t.l.SpawnWorker? ==>
      forall o | o in s.procs && IsDisconnectProc(s.procs[o]) :: s.procs[o].i != t.l.i
  }

  ghost predicate AloneRun(s: State, steps: seq<Step>)
    requires IsRun(s, steps)
    decreases steps
  {
    steps == [] || (AloneStep(s, steps[0]) && AloneRun(Apply(s, steps[0]), steps[1..]))
  }

  /** While the marker points at the intent its directory is there. */
  predicate Tethered(w: World, i: IntentId) {
    DirOk(w, i) || w.disconnectMarker != Some(i)
  }

  /** What a worker that is alone may rely on. */
  predicate SoloOk(w: World, q: Proc) {
    match q
    case Polling(i) => !Owed(w, i) && Tethered(w, i)
    case Deleting(i) => !Owed(w, i) && Tethered(w, i)
    case Resuming(i) => Tethered(w, i)
    case Reclaimed(i) => Tethered(w, i)
    case Matched(i, _) => !Owed(w, i) && DirOk(w, i)
    case Recorded(i, _) => !Owed(w, i) && Kept(w, i)
    case Claimed(i, _) => !Owed(w, i) && Kept(w, i)
    case Cancelled(i) => !Owed(w, i) && Kept(w, i)
    case Expiring(i) => !Owed(w, i) && ReceiptOf(w.dirs, i).None?
    case CompletingExpired(i, _) => !Owed(w, i)
    case Unmarking(i, verdict) => verdict == Discard ==> !Owed(w, i)
    case Exiting(i, verdict) => verdict == Discard ==> !Owed(w, i)
    case _ => true
  }

  /** The step takes nothing from a worker of intent i; with the lock that includes its directory. */
  predicate Leaves(v: World, w: World, i: IntentId, locked: bool) {
    && (Owed(w, i) ==> Owed(v, i))
    && (Tethered(v, i) ==> Tethered(w, i))
    && (ReceiptOf(v.dirs, i).None? ==> ReceiptOf(w.dirs, i).None?)
    && (locked ==> (DirOk(v, i) ==> DirOk(w, i)) && (Kept(v, i) ==> Kept(w, i)))
  }

  lemma LeavesSolo(v: World, w: World, q: Proc)
    requires IsDisconnectProc(q) && SoloOk(v, q) && Leaves(v, w, q.i, HoldsLock(q))
    ensures SoloOk(w, q)
  {
  }

  lemma EnvLeaves(w: World, e: EnvStep, i: IntentId)
    requires EnvReady(w, e)
    ensures Leaves(w, AfterEnv(w, e), i, !EnvLocks(e))
  {
  }

  lemma LaunchLeaves(w: World, l: LaunchStep, i: IntentId)
    requires LaunchReady(w, l) && i in w.intents
    ensures Leaves(w, LaunchEffect(w, l).w, i, true)
  {
  }

  lemma InstallLeaves(w: World, q: Proc, x: InstallStep, i: IntentId)
    requires InstallReady(w, q, x) && q.h in w.handoffs
    ensures Leaves(w, InstallEffect(w, q, x).w, i, true)
  {
    InstallFrame(w, q, x);
    var z := InstallEffect(w, q, x).w;
    assert z.disconnectMarker.None? || z.disconnectMarker == w.disconnectMarker;
  }

  lemma WriteLeaves(w: World, i: IntentId, x: Write, j: IntentId)
    requires i in w.intents && i != j
    ensures Leaves(w, AfterWrite(w, i, x), j, true)
  {
  }

  /** The point where the worker goes on finds what it relies on. */
  predicate SoloNextOk(w: World, q: Proc, d: DisconnectStep)
    requires DisconnectReady(w, q, d)
  {
    var f := DisconnectEffect(w, q, d);
    f.next.Some? ==> SoloOk(f.w, f.next.value)
  }

  lemma BeginSolo(w: World, q: Proc)
    requires DisconnectReady(w, q, DeleteBegin) && SoloOk(w, q)
    ensures SoloNextOk(w, q, DeleteBegin)
  {
    var i, t := q.i, w.intents[q.i];
    if w.disconnectMarker != Some(i) {
    } else if t.target !in w.store {
      assert DisconnectPlan(w, q, DeleteBegin) == GoOn(Matched(i, false));
    } else if !Targeted(w, i) {
    } else {
      assert DisconnectPlan(w, q, DeleteBegin) == Plan(Aim, Some(Matched(i, true)));
    }
  }

  lemma RecordSolo(w: World, q: Proc)
    requires DisconnectReady(w, q, Record) && SoloOk(w, q)
    ensures SoloNextOk(w, q, Record)
  {
  }

  lemma ClaimSolo(w: World, q: Proc)
    requires DisconnectReady(w, q, ClaimDeletion) && SoloOk(w, q)
    ensures SoloNextOk(w, q, ClaimDeletion)
  {
  }

  lemma LostSolo(w: World, q: Proc, reached: bool)
    requires DisconnectReady(w, q, ClaimLost(reached)) && SoloOk(w, q)
    ensures SoloNextOk(w, q, ClaimLost(reached))
  {
  }

  lemma RemovalSolo(w: World, q: Proc, d: DisconnectStep)
    requires d.CancelHandoffs? || d.DeleteFails?
    requires DisconnectReady(w, q, d) && SoloOk(w, q)
    ensures SoloNextOk(w, q, d)
  {
  }

  lemma RemovedSolo(w: World, q: Proc, d: DisconnectStep)
    requires d.RemoveCredential? || d.Promote? || d.FinishDelete?
    requires DisconnectReady(w, q, d)
    ensures SoloNextOk(w, q, d)
  {
  }

  lemma DeletionSolo(w: World, q: Proc, d: DisconnectStep)
    requires DisconnectReady(w, q, d) && IsDeletion(d) && SoloOk(w, q)
    ensures SoloNextOk(w, q, d)
  {
    if d.DeleteBegin? {
      BeginSolo(w, q);
    } else if d.Record? {
      RecordSolo(w, q);
    } else if d.ClaimDeletion? {
      ClaimSolo(w, q);
    } else if d.ClaimLost? {
      LostSolo(w, q, d.reached);
    } else if d.CancelHandoffs? || d.DeleteFails? {
      RemovalSolo(w, q, d);
    } else {
      RemovedSolo(w, q, d);
    }
  }

  lemma LoadSolo(w: World, q: Proc, d: DisconnectStep)
    requires d.Load? || d.ExpireCheck? || d.ExpireWrite?
    requires DisconnectReady(w, q, d) && SoloOk(w, q) && (Owed(w, q.i) ==> Kept(w, q.i))
    ensures SoloNextOk(w, q, d)
  {
  }

  lemma ReclaimSolo(w: World, holder: Option<Proc>, q: Proc)
    requires DisconnectReady(w, q, ResumeClaim) && IntentOk(w, holder, q.i) && SoloOk(w, q)
    ensures SoloNextOk(w, q, ResumeClaim)
  {
    assert w.intents[q.i].status != Confirmed ==> !Owed(w, q.i);
  }

  lemma ResumeSolo(w: World, holder: Option<Proc>, q: Proc)
    requires DisconnectReady(w, q, ResumeCheck) && IntentOk(w, holder, q.i) && SoloOk(w, q)
    ensures SoloNextOk(w, q, ResumeCheck)
  {
    assert w.intents[q.i].target in w.store ==> !Owed(w, q.i);
  }

  lemma CompleteSolo(w: World, q: Proc, heard: bool)
    requires DisconnectReady(w, q, Complete(heard))
    ensures SoloNextOk(w, q, Complete(heard))
  {
  }

  lemma ExpiredSolo(w: World, q: Proc, ended: bool)
    requires DisconnectReady(w, q, CompleteExpired(ended)) && SoloOk(w, q)
    ensures SoloNextOk(w, q, CompleteExpired(ended))
  {
  }

  lemma LastSolo(w: World, q: Proc, d: DisconnectStep)
    requires d.PrepareMark? || d.Exit? || d.ResumeFinish?
    requires DisconnectReady(w, q, d)
    ensures SoloNextOk(w, q, d)
  {
  }

  lemma UnmarkSolo(w: World, q: Proc)
    requires DisconnectReady(w, q, UnmarkSelf) && SoloOk(w, q)
    ensures SoloNextOk(w, q, UnmarkSelf)
  {
  }

  lemma GiveUpSolo(w: World, q: Proc)
    requires DisconnectReady(w, q, GiveUp) && SoloOk(w, q)
    ensures SoloNextOk(w, q, GiveUp)
  {
  }

  lemma PollSolo(w: World, q: Proc, d: DisconnectStep)
    requires d.Raise? || d.PollMarkerGone? || d.PollConfirmed? || d.PollTerminal?
    requires DisconnectReady(w, q, d) && SoloOk(w, q)
    ensures SoloNextOk(w, q, d)
  {
  }

  /** The worker's own next point. */
  lemma OwnSolo(w: World, holder: Option<Proc>, q: Proc, d: DisconnectStep)
    requires DisconnectReady(w, q, d) && Placed(w, holder, q, DisconnectLocks(d)) && IntentOk(w, holder, q.i)
    requires SoloOk(w, q) && (Owed(w, q.i) ==> Kept(w, q.i))
    ensures SoloNextOk(w, q, d)
  {
    if IsDeletion(d) {
      DeletionSolo(w, q, d);
    } else if d.Load? || d.ExpireCheck? || d.ExpireWrite? {
      LoadSolo(w, q, d);
    } else if d.ResumeClaim? {
      ReclaimSolo(w, holder, q);
    } else if d.ResumeCheck? {
      ResumeSolo(w, holder, q);
    } else if d.Complete? {
      CompleteSolo(w, q, d.heard);
    } else if d.CompleteExpired? {
      ExpiredSolo(w, q, d.ended);
    } else if d.Raise? || d.PollMarkerGone? || d.PollConfirmed? || d.PollTerminal? {
      PollSolo(w, q, d);
    } else if d.UnmarkSelf? {
      UnmarkSolo(w, q);
    } else if d.GiveUp? {
      GiveUpSolo(w, q);
    } else {
      LastSolo(w, q, d);
    }
  }

  lemma SoloLosesNothing(s: State, p: Pid, d: DisconnectStep)
    requires Inv(s) && Enabled(s, Disconnect(p, d)) && Durable(s.w) && SoloOk(s.w, s.procs[p])
    ensures !LosesCompletion(s, Disconnect(p, d))
  {
  }

  ghost predicate AllSolo(s: State) {
    forall p | p in s.procs && IsDisconnectProc(s.procs[p]) :: SoloOk(s.w, s.procs[p])
  }

  ghost predicate SoloInv(s: State) {
    Inv(s) && Alone(s) && AllSolo(s) && Durable(s.w)
  }

  /** The effect leaves the workers of the other intents alone; those with the lock, if nobody took it. */
  lemma MoveSolo(s: State, p: Pid, f: Effect)
    requires Inv(s) && Alone(s) && AllSolo(s)
    requires f.next.Some? && IsDisconnectProc(f.next.value) ==>
               && SoloOk(f.w, f.next.value)
               && forall o | o in s.procs && o != p && IsDisconnectProc(s.procs[o]) :: s.procs[o].i != f.next.value.i
    requires forall o | o in s.procs && o != p && IsDisconnectProc(s.procs[o]) ::
               Leaves(s.w, f.w, s.procs[o].i, HoldsLock(s.procs[o]))
    ensures Alone(Move(s, p, f)) && AllSolo(Move(s, p, f))
  {
    var z := Move(s, p, f);
    forall o | o in z.procs && IsDisconnectProc(z.procs[o]) ensures SoloOk(z.w, z.procs[o]) {
      if o != p {
        LeavesSolo(s.w, f.w, s.procs[o]);
      }
    }
  }

  lemma EnvSolo(s: State, e: EnvStep)
    requires SoloInv(s) && Enabled(s, Env(e))
    ensures AllSolo(Apply(s, Env(e)))
  {
    var z := Apply(s, Env(e));
    forall o | o in z.procs && IsDisconnectProc(z.procs[o]) ensures SoloOk(z.w, z.procs[o]) {
      EnvLeaves(s.w, e, s.procs[o].i);
      LeavesSolo(s.w, z.w, s.procs[o]);
    }
  }

  lemma LaunchSolo(s: State, p: Pid, l: LaunchStep)
    requires SoloInv(s) && Enabled(s, Launch(p, l)) && AloneStep(s, Launch(p, l))
    ensures Alone(Apply(s, Launch(p, l))) && AllSolo(Apply(s, Launch(p, l)))
  {
    forall o | o in s.procs && IsDisconnectProc(s.procs[o])
      ensures Leaves(s.w, LaunchEffect(s.w, l).w, s.procs[o].i, true) && s.procs[o].i in s.w.intents
    {
      assert ProcOk(s.w, s.procs[o]);
      LaunchLeaves(s.w, l, s.procs[o].i);
    }
    MoveSolo(s, p, LaunchEffect(s.w, l));
  }

  lemma InstallSolo(s: State, p: Pid, x: InstallStep)
    requires SoloInv(s) && Enabled(s, Install(p, x))
    ensures Alone(Apply(s, Install(p, x))) && AllSolo(Apply(s, Install(p, x)))
  {
    var q := s.procs[p];
    PlacedAt(s, p, InstallLocks(x));
    forall o | o in s.procs && IsDisconnectProc(s.procs[o])
      ensures Leaves(s.w, InstallEffect(s.w, q, x).w, s.procs[o].i, true)
    {
      InstallLeaves(s.w, q, x, s.procs[o].i);
    }
    InstallStaysInstall(s.w, q, x);
    MoveSolo(s, p, InstallEffect(s.w, q, x));
  }

  lemma InstallStaysInstall(w: World, q: Proc, x: InstallStep)
    requires InstallReady(w, q, x)
    ensures var f := InstallEffect(w, q, x); f.next.Some? ==> IsHandoffProc(f.next.value)
  {
  }

  lemma RenewSolo(s: State, p: Pid, r: RefreshStep)
    requires SoloInv(s) && Enabled(s, Renew(p, r))
    ensures Alone(Apply(s, Renew(p, r))) && AllSolo(Apply(s, Renew(p, r)))
  {
    RefreshRest(s.w, s.procs[p], r);
    assert RefreshEffect(s.w, s.procs[p], r).w.disconnectMarker == s.w.disconnectMarker;
    MoveSolo(s, p, RefreshEffect(s.w, s.procs[p], r));
  }

  lemma DisconnectSolo(s: State, p: Pid, d: DisconnectStep)
    requires SoloInv(s) && Enabled(s, Disconnect(p, d))
    ensures Alone(Apply(s, Disconnect(p, d))) && AllSolo(Apply(s, Disconnect(p, d)))
  {
    var q := s.procs[p];
    PlacedAt(s, p, DisconnectLocks(d));
    assert IntentOk(s.w, Holder(s), q.i);
    OwnSolo(s.w, Holder(s), q, d);
    PlanNext(s.w, q, d);
    forall o | o in s.procs && o != p && IsDisconnectProc(s.procs[o])
      ensures Leaves(s.w, DisconnectEffect(s.w, q, d).w, s.procs[o].i, true)
    {
      WriteLeaves(s.w, q.i, DisconnectPlan(s.w, q, d).write, s.procs[o].i);
    }
    MoveSolo(s, p, DisconnectEffect(s.w, q, d));
  }

  lemma SoloStep(s: State, t: Step)
    requires SoloInv(s) && Enabled(s, t) && AloneStep(s, t)
    ensures SoloInv(Apply(s, t)) && !LosesCompletion(s, t)
  {
    StepKeeps(s, t);
    DurableIff(s, t);
    match t
    case Env(e) => EnvSolo(s, e);
    case Crash(p) => MoveSolo(s, p, Done(s.w));
    case Launch(p, l) => LaunchSolo(s, p, l);
    case Install(p, x) => InstallSolo(s, p, x);
    case Renew(p, r) => RenewSolo(s, p, r);
    case Disconnect(p, d) =>
      DisconnectSolo(s, p, d);
      SoloLosesNothing(s, p, d);
  }

  lemma {:induction false} SoloRun(s: State, steps: seq<Step>)
    requires SoloInv(s) && IsRun(s, steps) && AloneRun(s, steps)
    ensures SoloInv(After(s, steps))
    decreases steps
  {
    if steps != [] {
      SoloStep(s, steps[0]);
      SoloRun(Apply(s, steps[0]), steps[1..]);
    }
  }

  // ---------------------------------------------------------------- whole runs

  /** Every state of the run is durable. */
  ghost predicate DurableThroughout(s: State, steps: seq<Step>)
    requires IsRun(s, steps)
    decreases steps
  {
    Durable(s.w) && (steps == [] || DurableThroughout(Apply(s, steps[0]), steps[1..]))
  }

  ghost predicate NeverLoses(s: State, steps: seq<Step>)
    requires IsRun(s, steps)
    decreases steps
  {
    steps == [] || (!LosesCompletion(s, steps[0]) && NeverLoses(Apply(s, steps[0]), steps[1..]))
  }

  lemma {:induction false} DurableRunIff(s: State, steps: seq<Step>)
    requires Inv(s) && Durable(s.w) && IsRun(s, steps)
    ensures DurableThroughout(s, steps) <==> NeverLoses(s, steps)
    decreases steps
  {
    if steps != [] {
      StepKeeps(s, steps[0]);
      DurableIff(s, steps[0]);
      if !LosesCompletion(s, steps[0]) {
        DurableRunIff(Apply(s, steps[0]), steps[1..]);
      }
    }
  }

  /** Durable completion, with crashes anywhere and any number of workers: throughout a run every removed
      credential whose intent the platform has not settled has its intent file and a receipt with outcome
      disconnected on disk, exactly if no step of the run is one of the three that lose a completion. */
  lemma DurableCompletion(run: seq<Step>)
    requires IsRun(INITIAL, run)
    ensures DurableThroughout(INITIAL, run) <==> NeverLoses(INITIAL, run)
  {
    InitialInv();
    DurableRunIff(INITIAL, run);
  }

  /** One worker at a time for each intent is enough, wherever the workers die: no step that can follow
      such a run loses a completion or writes an expiry over another receipt. */
  lemma OneWorkerIsEnough(run: seq<Step>, t: Step)
    requires IsRun(INITIAL, run) && AloneRun(INITIAL, run)
    requires Enabled(After(INITIAL, run), t) && AloneStep(After(INITIAL, run), t)
    ensures Durable(After(INITIAL, run).w)
    ensures !LosesCompletion(After(INITIAL, run), t) && !OverwritesReceipt(After(INITIAL, run), t)
  {
    InitialInv();
    SoloRun(INITIAL, run);
    SoloStep(After(INITIAL, run), t);
    SoloOverwritesNothing(After(INITIAL, run), t);
  }

  lemma SoloOverwritesNothing(s: State, t: Step)
    requires AllSolo(s) && Enabled(s, t)
    ensures !OverwritesReceipt(s, t)
  {
    if t.Disconnect? && t.d.ExpireWrite? {
      assert SoloOk(s.w, s.procs[t.p]);
    }
  }

  // ---------------------------------------------------------------- receipts

  /** A receipt keeps its outcome, and its phase goes from delete_pending to completion_pending. */
  predicate Forward(a: Receipt, b: Receipt) {
    a == b || (a == DeletePending && b == CompletionPending)
  }

  /** The step writes an expiry over the receipt of a removal. */
  predicate OverwritesReceipt(s: State, t: Step) {
    t.Disconnect? && t.d.ExpireWrite? && t.p in s.procs && IsDisconnectProc(s.procs[t.p])
    && var r := ReceiptOf(s.w.dirs, s.procs[t.p].i); r.Some? && !r.value.ExpiredPending?
  }

  lemma WriteForward(w: World, i: IntentId, x: Write, j: IntentId)
    requires i in w.intents && ReceiptOf(w.dirs, j).Some? && ReceiptOf(AfterWrite(w, i, x).dirs, j).Some?
    requires x.PutReceipt? && !x.r.ExpiredPending? ==> MayWrite(ReceiptOf(w.dirs, i), x.r)
    ensures Forward(ReceiptOf(w.dirs, j).value, ReceiptOf(AfterWrite(w, i, x).dirs, j).value)
            <==> !(x == PutReceipt(ExpiredPending) && i == j && !ReceiptOf(w.dirs, j).value.ExpiredPending?)
  {
  }

  lemma EnvForward(w: World, e: EnvStep, i: IntentId)
    requires EnvReady(w, e) && ReceiptOf(AfterEnv(w, e).dirs, i).Some?
    ensures ReceiptOf(AfterEnv(w, e).dirs, i) == ReceiptOf(w.dirs, i)
  {
  }

  lemma LaunchForward(w: World, l: LaunchStep, i: IntentId)
    requires LaunchReady(w, l) && i in w.intents
    ensures ReceiptOf(LaunchEffect(w, l).w.dirs, i) == ReceiptOf(w.dirs, i)
  {
  }

  /** As long as a receipt is there it only moves forward, unless an expiry is written over it. */
  lemma ReceiptsForwardIff(s: State, t: Step, i: IntentId)
    requires Inv(s) && Enabled(s, t)
    requires ReceiptOf(s.w.dirs, i).Some? && ReceiptOf(EffectOf(s, t).w.dirs, i).Some?
    ensures Forward(ReceiptOf(s.w.dirs, i).value, ReceiptOf(EffectOf(s, t).w.dirs, i).value)
            <==> !(OverwritesReceipt(s, t) && s.procs[t.p].i == i)
  {
    match t
    case Env(e) => EnvForward(s.w, e, i);
    case Crash(_) =>
    case Launch(_, l) => LaunchForward(s.w, l, i);
    case Install(p, x) => InstallFrame(s.w, s.procs[p], x);
    case Renew(p, r) => RefreshRest(s.w, s.procs[p], r);
    case Disconnect(p, d) =>
      PlanWrites(s.w, s.procs[p], d);
      WriteForward(s.w, s.procs[p].i, DisconnectPlan(s.w, s.procs[p], d).write, i);
  }
}
