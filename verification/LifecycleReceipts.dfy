/** Install receipts: a credential that the platform has not acknowledged keeps its receipt. */
module LifecycleReceipts {
  import opened Text
  import opened AccountStore
  import opened Lifecycle
  import opened LifecycleInvariant
  import opened LifecycleSafety
  import opened LifecycleSuperseded

  /** The handoff that decrypted the credential is acknowledged, or has a receipt for this credential. */
  predicate Accounted(w: World, id: string)
    requires id in w.store && w.store[id].connectedAt in w.origin
  {
    var h := w.origin[w.store[id].connectedAt];
    h in w.acked || (h in w.receipts && w.receipts[h] == InstallGeneration(w.store[id]))
  }

  ghost predicate Covered(w: World) {
    forall id | id in w.store :: w.store[id].connectedAt in w.origin && Accounted(w, id)
  }

  /** Every receipt is for a credential that its own handoff decrypted. */
  ghost predicate ReceiptsOk(w: World) {
    forall h | h in w.receipts ::
      && h in w.begun && w.receipts[h].connectedAt in w.origin && w.origin[w.receipts[h].connectedAt] == h
  }

  lemma InstallReceiptsOk(w: World, q: Proc, x: InstallStep)
    requires InstallReady(w, q, x) && ReceiptsOk(w)
    ensures ReceiptsOk(InstallEffect(w, q, x).w)
  {
  }

  /** What the steps outside a handoff leave alone. */
  predicate SameInstalls(v: World, w: World) {
    && w.receipts == v.receipts && w.origin == v.origin && w.acked == v.acked && w.begun == v.begun
    && w.notices == v.notices
  }

  lemma LaunchSame(w: World, l: LaunchStep)
    requires LaunchReady(w, l)
    ensures SameInstalls(w, LaunchEffect(w, l).w) && LaunchEffect(w, l).w.store == w.store
  {
  }

  lemma RefreshSame(w: World, q: Proc, r: RefreshStep)
    requires RefreshReady(w, q, r)
    ensures SameInstalls(w, RefreshEffect(w, q, r).w)
  {
  }

  lemma WriteSame(w: World, i: IntentId, x: Write)
    requires i in w.intents
    ensures SameInstalls(w, AfterWrite(w, i, x))
  {
  }

  lemma EnvReceiptsOk(w: World, e: EnvStep)
    requires EnvReady(w, e) && ReceiptsOk(w)
    ensures ReceiptsOk(AfterEnv(w, e))
  {
    var z := AfterEnv(w, e);
    assert z.begun == w.begun && z.origin == w.origin;
    assert forall h | h in z.receipts :: h in w.receipts && z.receipts[h] == w.receipts[h];
  }

  lemma SameReceiptsOk(v: World, w: World)
    requires SameInstalls(v, w) && ReceiptsOk(v)
    ensures ReceiptsOk(w)
  {
  }

  lemma ReceiptsOkKept(s: State, t: Step)
    requires Enabled(s, t) && ReceiptsOk(s.w)
    ensures ReceiptsOk(EffectOf(s, t).w)
  {
    var z := EffectOf(s, t).w;
    match t
    case Env(e) => EnvReceiptsOk(s.w, e);
    case Crash(_) =>
    case Launch(_, l) => LaunchSame(s.w, l); SameReceiptsOk(s.w, z);
    case Install(p, x) => InstallReceiptsOk(s.w, s.procs[p], x);
    case Renew(p, r) => RefreshSame(s.w, s.procs[p], r); SameReceiptsOk(s.w, z);
    case Disconnect(p, d) =>
      WriteSame(s.w, s.procs[p].i, DisconnectPlan(s.w, s.procs[p], d).write);
      SameReceiptsOk(s.w, z);
  }

  /** A second install of one handoff begins while the first is in the store and not acknowledged. */
  predicate Overwrites(s: State, t: Step) {
    t.Install? && t.x.Begin? && t.p in s.procs && IsHandoffProc(s.procs[t.p])
    && var h := s.procs[t.p].h; h !in s.w.acked && h in s.w.receipts && Holds(s.w.store, s.w.receipts[h])
  }

  lemma SaveCovered(w: World, q: Proc)
    requires InstallReady(w, q, Save) && ProcOk(w, q) && HolderOk(w, q) && Covered(w) && Keyed(w.store)
    ensures Covered(InstallEffect(w, q, Save).w)
  {
  }

  lemma AckCovered(w: World, q: Proc, x: InstallStep)
    requires InstallReady(w, q, x) && Covered(w) && Keyed(w.store) && Acknowledges(x)
    requires x.AckRetire? ==> q.h in w.acked
    ensures Covered(InstallEffect(w, q, x).w)
  {
    match x
    case AckCheck =>
      if q.h !in w.receipts {
      } else if !Holds(w.store, w.receipts[q.h]) {
      } else if w.receipts[q.h].binding == w.binding {
      } else {
      }
    case AckClaim =>
    case AckClaimFails(_) =>
    case AckRetire =>
    case AckUnmark =>
    case Notice =>
  }

  lemma InstallCovered(w: World, holder: Option<Proc>, q: Proc, x: InstallStep)
    requires InstallReady(w, q, x) && Placed(w, holder, q, InstallLocks(x)) && Covered(w) && Keyed(w.store) && !x.Begin?
    ensures Covered(InstallEffect(w, q, x).w)
  {
    if x.Save? {
      SaveCovered(w, q);
    } else if Acknowledges(x) {
      AckCovered(w, q, x);
    }
  }

  lemma BeginCovered(w: World, q: Proc, x: InstallStep)
    requires InstallReady(w, q, x) && x.Begin? && Covered(w) && ReceiptsOk(w) && Keyed(w.store)
    ensures Covered(InstallEffect(w, q, x).w)
            <==> !(q.h !in w.acked && q.h in w.receipts && Holds(w.store, w.receipts[q.h]))
  {
  }

  lemma EnvCovered(w: World, e: EnvStep)
    requires EnvReady(w, e) && Covered(w)
    ensures Covered(AfterEnv(w, e))
  {
  }

  lemma RefreshCovered(w: World, q: Proc, r: RefreshStep)
    requires RefreshReady(w, q, r) && Covered(w) && Keyed(w.store)
    ensures Covered(RefreshEffect(w, q, r).w)
  {
    RefreshSame(w, q, r);
  }

  lemma DisconnectCovered(w: World, q: Proc, d: DisconnectStep)
    requires DisconnectReady(w, q, d) && Covered(w)
    ensures Covered(DisconnectEffect(w, q, d).w)
  {
    WriteSame(w, q.i, DisconnectPlan(w, q, d).write);
    WriteFrame(w, q.i, DisconnectPlan(w, q, d).write);
  }

  /** A step leaves a credential without receipt and acknowledgement exactly if a second install of a
      handoff begins over the first. */
  lemma CoveredIff(s: State, t: Step)
    requires Inv(s) && Enabled(s, t) && Covered(s.w) && ReceiptsOk(s.w)
    ensures Covered(EffectOf(s, t).w) <==> !Overwrites(s, t)
  {
    match t
    case Env(e) => EnvCovered(s.w, e);
    case Crash(_) =>
    case Launch(_, l) => LaunchSame(s.w, l);
    case Install(p, x) =>
      PlacedAt(s, p, InstallLocks(x));
      if x.Begin? {
        BeginCovered(s.w, s.procs[p], x);
      } else {
        InstallCovered(s.w, Holder(s), s.procs[p], x);
      }
    case Renew(p, r) => RefreshCovered(s.w, s.procs[p], r);
    case Disconnect(p, d) => DisconnectCovered(s.w, s.procs[p], d);
  }

  // ---------------------------------------------------------------- whole runs

  /** In every state of the run, each credential is acknowledged or has its receipt. */
  ghost predicate CoveredThroughout(s: State, steps: seq<Step>)
    requires IsRun(s, steps)
    decreases steps
  {
    Covered(s.w) && (steps == [] || CoveredThroughout(Apply(s, steps[0]), steps[1..]))
  }

  ghost predicate NeverOverwrites(s: State, steps: seq<Step>)
    requires IsRun(s, steps)
    decreases steps
  {
    steps == [] || (!Overwrites(s, steps[0]) && NeverOverwrites(Apply(s, steps[0]), steps[1..]))
  }

  lemma {:induction false} CoveredRunIff(s: State, steps: seq<Step>)
    requires Inv(s) && Covered(s.w) && ReceiptsOk(s.w) && IsRun(s, steps)
    ensures CoveredThroughout(s, steps) <==> NeverOverwrites(s, steps)
    ensures NeverOverwrites(s, steps) ==> Covered(After(s, steps).w)
    decreases steps
  {
    if steps != [] {
      StepKeeps(s, steps[0]);
      ReceiptsOkKept(s, steps[0]);
      CoveredIff(s, steps[0]);
      if !Overwrites(s, steps[0]) {
        CoveredRunIff(Apply(s, steps[0]), steps[1..]);
      }
    }
  }

  /** Install receipts, with crashes anywhere and any number of workers: throughout a run every stored
      credential is acknowledged or has a receipt for exactly its lineage, exactly if no second install of
      a handoff begins over a credential that is still to be acknowledged. */
  lemma InstallReceiptsKept(run: seq<Step>)
    requires IsRun(INITIAL, run)
    ensures CoveredThroughout(INITIAL, run) <==> NeverOverwrites(INITIAL, run)
  {
    InitialInv();
    CoveredRunIff(INITIAL, run);
  }

  /** No new connection starts while a credential in the store is not acknowledged. */
  lemma NoConnectionMeanwhile(run: seq<Step>, p: Pid, h: HandoffId, target: string, adds: bool)
    requires IsRun(INITIAL, run) && NeverOverwrites(INITIAL, run)
    requires Enabled(After(INITIAL, run), Launch(p, StartHandoff(h, target, adds)))
    ensures var w := After(INITIAL, run).w;
            forall id | id in w.store ::
              w.store[id].connectedAt in w.origin && w.origin[w.store[id].connectedAt] in w.acked
  {
    InitialInv();
    CoveredRunIff(INITIAL, run);
    var w := After(INITIAL, run).w;
    forall id | id in w.store
      ensures w.store[id].connectedAt in w.origin && w.origin[w.store[id].connectedAt] in w.acked
    {
      assert Accounted(w, id);
    }
  }

  /** However many workers there are: installed=true is sent only under the lock, while the store holds the
      credential of the receipt, and a token refresh does not change what the receipt matches. */
  lemma AcknowledgedWhileHeld(run: seq<Step>, p: Pid)
    requires IsRun(INITIAL, run) && Enabled(After(INITIAL, run), Install(p, AckClaim))
    ensures var s := After(INITIAL, run);
            var h := s.procs[p].h;
            && s.lock == Some(p)
            && h in s.w.receipts && s.w.receipts[h].connection in s.w.store
            && InstallGeneration(s.w.store[s.w.receipts[h].connection]) == s.w.receipts[h]
  {
    InitialInv();
    RunKeeps(INITIAL, run);
    PlacedAt(After(INITIAL, run), p, false);
  }

  // ---------------------------------------------------------------- one installing worker for each handoff

  /** The step starts no second worker that could install for its handoff. */
  ghost predicate FirstStep(s: State, t: Step) {
    t.Launch? && t.l.SpawnHandoff? ==>
      t.l.h !in s.w.begun && forall o | o in s.procs :: s.procs[o] != Waiting(t.l.h)
  }

  ghost predicate FirstRun(s: State, steps: seq<Step>)
    requires IsRun(s, steps)
    decreases steps
  {
    steps == [] || (FirstStep(s, steps[0]) && FirstRun(Apply(s, steps[0]), steps[1..]))
  }

  /** A waiting worker is the only one, and nothing of its handoff has begun. */
  ghost predicate WaitingOk(s: State) {
    forall p, o | p in s.procs && o in s.procs && s.procs[p].Waiting? ::
      s.procs[p].h !in s.w.begun && (p != o ==> s.procs[o] != s.procs[p])
  }

  lemma InstallBegun(w: World, q: Proc, x: InstallStep)
    requires InstallReady(w, q, x)
    ensures var f := InstallEffect(w, q, x);
            && w.begun <= f.w.begun <= w.begun + {q.h}
            && (q.h in f.w.begun && q.h !in w.begun ==> q == Waiting(q.h))
            && (f.next.Some? ==> !f.next.value.Waiting?)
  {
    match x
    case ClearDisconnect =>
    case ActivateHandoff =>
    case Begin(_) =>
    case Save =>
    case SaveFails =>
    case PromoteInstall(_) =>
    case Leave =>
    case AckCheck =>
      if q.h !in w.receipts {
      } else if !Holds(w.store, w.receipts[q.h]) {
      } else if w.receipts[q.h].binding == w.binding {
      } else {
      }
    case AckClaim =>
    case AckClaimFails(_) =>
    case AckRetire =>
    case AckUnmark =>
    case Notice =>
  }

  lemma MoveWaiting(s: State, p: Pid, f: Effect, h: HandoffId)
    requires WaitingOk(s) && (f.next.Some? ==> !f.next.value.Waiting?)
    requires s.w.begun <= f.w.begun <= s.w.begun + {h}
    requires h in f.w.begun && h !in s.w.begun ==> p in s.procs && s.procs[p] == Waiting(h)
    ensures WaitingOk(Move(s, p, f))
  {
  }

  lemma SpawnWaiting(s: State, p: Pid, h: HandoffId)
    requires WaitingOk(s) && Enabled(s, Launch(p, SpawnHandoff(h))) && FirstStep(s, Launch(p, SpawnHandoff(h)))
    ensures WaitingOk(Move(s, p, To(s.w, Waiting(h))))
  {
  }

  lemma LaunchWaiting(w: World, l: LaunchStep)
    requires LaunchReady(w, l)
    ensures LaunchEffect(w, l).next.value.Waiting? <==> l.SpawnHandoff?
  {
  }

  lemma WaitingKept(s: State, t: Step)
    requires WaitingOk(s) && Enabled(s, t) && FirstStep(s, t)
    ensures WaitingOk(Apply(s, t))
  {
    match t
    case Env(e) => assert AfterEnv(s.w, e).begun == s.w.begun;
    case Crash(p) => MoveWaiting(s, p, Done(s.w), 0);
    case Launch(p, l) =>
      LaunchSame(s.w, l);
      LaunchWaiting(s.w, l);
      if l.SpawnHandoff? {
        SpawnWaiting(s, p, l.h);
      } else {
        MoveWaiting(s, p, LaunchEffect(s.w, l), 0);
      }
    case Install(p, x) =>
      InstallBegun(s.w, s.procs[p], x);
      MoveWaiting(s, p, InstallEffect(s.w, s.procs[p], x), s.procs[p].h);
    case Renew(p, r) =>
      RefreshSame(s.w, s.procs[p], r);
      MoveWaiting(s, p, RefreshEffect(s.w, s.procs[p], r), 0);
    case Disconnect(p, d) =>
      PlanNext(s.w, s.procs[p], d);
      WriteSame(s.w, s.procs[p].i, DisconnectPlan(s.w, s.procs[p], d).write);
      MoveWaiting(s, p, DisconnectEffect(s.w, s.procs[p], d), 0);
  }

  lemma {:induction false} FirstRunsFrom(s: State, steps: seq<Step>)
    requires ReceiptsOk(s.w) && WaitingOk(s) && IsRun(s, steps) && FirstRun(s, steps)
    ensures NeverOverwrites(s, steps)
    decreases steps
  {
    if steps != [] {
      WaitingKept(s, steps[0]);
      ReceiptsOkKept(s, steps[0]);
      FirstRunsFrom(Apply(s, steps[0]), steps[1..]);
    }
  }

  /** One installing worker for each handoff is enough for the condition, wherever it dies. */
  lemma OneInstallerIsEnough(run: seq<Step>)
    requires IsRun(INITIAL, run) && FirstRun(INITIAL, run)
    ensures NeverOverwrites(INITIAL, run) && Covered(After(INITIAL, run).w)
  {
    InitialInv();
    FirstRunsFrom(INITIAL, run);
    CoveredRunIff(INITIAL, run);
  }

  // ---------------------------------------------------------------- the ready notice

  /** The handoff can no longer install, and its receipt is gone. */
  ghost predicate Closed(s: State, h: HandoffId) {
    h in s.w.handoffs && !Installing(s.w, Holder(s), h) && h !in s.w.receipts
  }

  /** The notice was sent, or a process is about to send it. */
  ghost predicate Sent(s: State, h: HandoffId) {
    s.w.notices[h] > 0 || exists p | p in s.procs :: s.procs[p] == Notifying(h)
  }

  /** A process that is about to send the notice is the only one, and none was sent before. */
  ghost predicate NotifyOk(s: State, p: Pid)
    requires p in s.procs && s.procs[p].Notifying?
  {
    s.w.notices[s.procs[p].h] == 0 && forall o | o in s.procs && s.procs[o] == s.procs[p] :: o == p
  }

  ghost predicate NoticeInv(s: State) {
    && (forall h :: s.w.notices[h] <= 1)
    && (forall h | Sent(s, h) :: Closed(s, h))
    && (forall p | p in s.procs && s.procs[p].Notifying? :: NotifyOk(s, p))
    && (forall p | p in s.procs && s.procs[p].AckUnmarking? ::
          s.procs[p].h !in s.w.receipts && !Sent(s, s.procs[p].h))
  }

  lemma InstallGrowsReceipts(w: World, q: Proc, x: InstallStep, h: HandoffId)
    requires InstallReady(w, q, x) && h in InstallEffect(w, q, x).w.receipts && h !in w.receipts
    ensures w.handoffMarker == Some(h)
  {
    match x
    case ClearDisconnect =>
    case ActivateHandoff =>
    case Begin(_) =>
    case Save =>
    case SaveFails =>
    case PromoteInstall(_) =>
    case Leave =>
    case AckCheck =>
    case AckClaim =>
    case AckClaimFails(_) =>
    case AckRetire =>
    case AckUnmark =>
    case Notice =>
  }

  lemma EnvReceipts(w: World, e: EnvStep)
    requires EnvReady(w, e)
    ensures AfterEnv(w, e).receipts.Keys <= w.receipts.Keys && AfterEnv(w, e).notices == w.notices
  {
  }

  /** A receipt appears only for a handoff that can install. */
  lemma ReceiptsAppear(s: State, t: Step, h: HandoffId)
    requires Enabled(s, t) && h in EffectOf(s, t).w.receipts && h !in s.w.receipts
    ensures Installing(s.w, Holder(s), h)
  {
    match t
    case Env(e) => EnvReceipts(s.w, e);
    case Crash(_) =>
    case Launch(_, l) => LaunchSame(s.w, l);
    case Install(p, x) => InstallGrowsReceipts(s.w, s.procs[p], x, h);
    case Renew(p, r) => RefreshSame(s.w, s.procs[p], r);
    case Disconnect(p, d) => WriteSame(s.w, s.procs[p].i, DisconnectPlan(s.w, s.procs[p], d).write);
  }

  lemma ClosedStays(s: State, t: Step, h: HandoffId)
    requires Inv(s) && Enabled(s, t) && Closed(s, h)
    ensures Closed(Apply(s, t), h)
  {
    StepKeeps(s, t);
    CancelledStepwise(s, t, h);
    if h in EffectOf(s, t).w.receipts {
      ReceiptsAppear(s, t, h);
    }
  }

  /** A step after which nothing new is about to be sent. */
  ghost predicate SendsNothing(s: State, z: State) {
    && z.w.notices == s.w.notices
    && forall p | p in z.procs && (z.procs[p].Notifying? || z.procs[p].AckUnmarking?) ::
         p in s.procs && z.procs[p] == s.procs[p] && (z.procs[p].AckUnmarking? ==> z.w.receipts == s.w.receipts)
  }

  lemma NothingSent(s: State, t: Step)
    requires Inv(s) && Enabled(s, t) && NoticeInv(s) && SendsNothing(s, Apply(s, t))
    ensures NoticeInv(Apply(s, t))
  {
    var z := Apply(s, t);
    forall h | Sent(z, h) ensures Closed(z, h) && Sent(s, h) {
      assert Sent(s, h);
      ClosedStays(s, t, h);
    }
  }

  lemma RetireSent(s: State, p: Pid)
    requires Inv(s) && Enabled(s, Install(p, AckRetire)) && NoticeInv(s)
    ensures NoticeInv(Apply(s, Install(p, AckRetire)))
  {
    var t := Install(p, AckRetire);
    var z, h := Apply(s, t), s.procs[p].h;
    PlacedAt(s, p, false);
    assert !Closed(s, h) && !Sent(s, h);
    forall g | Sent(z, g) ensures Closed(z, g) && Sent(s, g) {
      assert Sent(s, g);
      ClosedStays(s, t, g);
    }
    forall o | o in z.procs && z.procs[o].AckUnmarking? ensures o == p {
      assert HoldsLock(z.procs[o]);
    }
  }

  /** Acknowledging ends with the handoff closed. */
  lemma UnmarkCloses(s: State, p: Pid)
    requires Inv(s) && Enabled(s, Install(p, AckUnmark)) && s.procs[p].h !in s.w.receipts
    ensures Closed(Apply(s, Install(p, AckUnmark)), s.procs[p].h)
  {
    PlacedAt(s, p, false);
  }

  lemma UnmarkSent(s: State, p: Pid)
    requires Inv(s) && Enabled(s, Install(p, AckUnmark)) && NoticeInv(s)
    ensures NoticeInv(Apply(s, Install(p, AckUnmark)))
  {
    var t := Install(p, AckUnmark);
    var z, h := Apply(s, t), s.procs[p].h;
    PlacedAt(s, p, false);
    UnmarkCloses(s, p);
    forall g | Sent(z, g) ensures Closed(z, g) {
      if g != h {
        assert Sent(s, g);
        ClosedStays(s, t, g);
      }
    }
    forall o | o in z.procs ensures !z.procs[o].AckUnmarking? {
      assert HoldsLock(z.procs[o]) <==> z.lock == Some(o);
    }
    forall o | o in z.procs && z.procs[o].Notifying? ensures NotifyOk(z, o) {
      assert o != p ==> NotifyOk(s, o);
    }
  }

  lemma NoticeSent(s: State, p: Pid)
    requires Inv(s) && Enabled(s, Install(p, Notice)) && NoticeInv(s)
    ensures NoticeInv(Apply(s, Install(p, Notice)))
  {
    var t := Install(p, Notice);
    var z, h := Apply(s, t), s.procs[p].h;
    assert NotifyOk(s, p) && Sent(s, h);
    forall g | Sent(z, g) ensures Closed(z, g) && Sent(s, g) {
      assert Sent(s, g);
      ClosedStays(s, t, g);
    }
    forall o | o in z.procs && z.procs[o].Notifying? ensures NotifyOk(z, o) {
      assert o != p && NotifyOk(s, o);
    }
  }

  lemma InstallSendsNothing(w: World, q: Proc, x: InstallStep)
    requires InstallReady(w, q, x) && !x.AckRetire? && !x.AckUnmark? && !x.Notice?
    ensures var f := InstallEffect(w, q, x);
            && f.w.notices == w.notices
            && (f.next.Some? ==> !f.next.value.Notifying? && !f.next.value.AckUnmarking?)
  {
  }

  lemma OthersSendNothing(s: State, t: Step)
    requires Enabled(s, t)
    requires t.Install? ==> !t.x.AckRetire? && !t.x.AckUnmark? && !t.x.Notice?
    ensures var f := EffectOf(s, t);
            && f.w.notices == s.w.notices
            && (f.next.Some? ==> !f.next.value.Notifying? && !f.next.value.AckUnmarking?)
  {
    match t
    case Env(e) => EnvReceipts(s.w, e);
    case Crash(_) =>
    case Launch(_, l) => LaunchSame(s.w, l);
    case Install(p, x) => InstallSendsNothing(s.w, s.procs[p], x);
    case Renew(p, r) => RefreshSame(s.w, s.procs[p], r);
    case Disconnect(p, d) =>
      PlanNext(s.w, s.procs[p], d);
      WriteSame(s.w, s.procs[p].i, DisconnectPlan(s.w, s.procs[p], d).write);
  }

  lemma OthersKeepNotices(s: State, t: Step)
    requires Inv(s) && Enabled(s, t) && NoticeInv(s)
    requires t.Install? ==> !t.x.AckRetire? && !t.x.AckUnmark? && !t.x.Notice?
    ensures NoticeInv(Apply(s, t))
  {
    var z := Apply(s, t);
    OthersSendNothing(s, t);
    forall o | o in z.procs && (z.procs[o].Notifying? || z.procs[o].AckUnmarking?)
      ensures o in s.procs && z.procs[o] == s.procs[o]
      ensures z.procs[o].AckUnmarking? ==> z.w.receipts == s.w.receipts
    {
      if z.procs[o].AckUnmarking? {
        assert HoldsLock(s.procs[o]);
        SectionsAreIsolated(s, t, o);
      }
    }
    NothingSent(s, t);
  }

  lemma NoticeKept(s: State, t: Step)
    requires Inv(s) && Enabled(s, t) && NoticeInv(s)
    ensures NoticeInv(Apply(s, t))
  {
    if t.Install? && t.x.AckRetire? {
      RetireSent(s, t.p);
    } else if t.Install? && t.x.AckUnmark? {
      UnmarkSent(s, t.p);
    } else if t.Install? && t.x.Notice? {
      NoticeSent(s, t.p);
    } else {
      OthersKeepNotices(s, t);
    }
  }

  lemma {:induction false} NoticeRun(s: State, run: seq<Step>)
    requires Inv(s) && NoticeInv(s) && IsRun(s, run)
    ensures NoticeInv(After(s, run))
    decreases run
  {
    if run != [] {
      StepKeeps(s, run[0]);
      NoticeKept(s, run[0]);
      NoticeRun(Apply(s, run[0]), run[1..]);
    }
  }

  /** The ready notice of a handoff is sent at most once, however many workers and crashes there are. */
  lemma ReadyNoticeAtMostOnce(run: seq<Step>, h: HandoffId)
    requires IsRun(INITIAL, run)
    ensures After(INITIAL, run).w.notices[h] <= 1
  {
    InitialInv();
    NoticeRun(INITIAL, run);
  }
}
