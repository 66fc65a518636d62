/** Superseded ceremonies: a handoff or a disconnect that has lost its marker stays without effect. */
module LifecycleSuperseded {
  import opened Text
  import opened AccountStore
  import opened Lifecycle
  import opened LifecycleInvariant

  /** The intent's worker can still delete, or its marker is about to be written. */
  ghost predicate Targeting(s: State, i: IntentId) {
    s.w.disconnectMarker == Some(i) || exists p | p in s.procs :: s.procs[p] == Preparing(i)
  }

  // ---------------------------------------------------------------- handoffs

  lemma EnvCancels(w: World, holder: Option<Proc>, e: EnvStep, h: HandoffId)
    requires EnvReady(w, e) && !Installing(w, holder, h)
    ensures !Installing(AfterEnv(w, e), holder, h)
  {
  }

  lemma LaunchCancels(w: World, holder: Option<Proc>, l: LaunchStep, h: HandoffId)
    requires LaunchReady(w, l) && h in w.handoffs && !Installing(w, holder, h)
    ensures !Installing(LaunchEffect(w, l).w, NextHolder(holder, None, LaunchEffect(w, l).next), h)
  {
  }

  lemma DisconnectCancels(w: World, holder: Option<Proc>, q: Proc, d: DisconnectStep, h: HandoffId)
    requires DisconnectReady(w, q, d) && !Installing(w, holder, h)
    ensures var f := DisconnectEffect(w, q, d); !Installing(f.w, NextHolder(holder, Some(q), f.next), h)
  {
    WriteFrame(w, q.i, DisconnectPlan(w, q, d).write);
    PlanNext(w, q, d);
  }

  /** A process comes to need the lock only when it is free or its own. */
  lemma StepLocks(s: State, t: Step)
    requires Inv(s) && Enabled(s, t) && !t.Env?
    ensures var f := EffectOf(s, t);
            f.next.Some? && HoldsLock(f.next.value) ==> s.lock.None? || s.lock == Some(t.p)
  {
    match t
    case Crash(_) =>
    case Launch(_, l) => LaunchNext(s.w, l);
    case Install(p, x) =>
      PlacedAt(s, p, InstallLocks(x));
      InstallNext(s.w, Holder(s), s.procs[p], x);
    case Renew(_, _) =>
    case Disconnect(p, d) =>
      PlacedAt(s, p, DisconnectLocks(d));
      PlanNext(s.w, s.procs[p], d);
  }

  lemma EffectCancels(s: State, t: Step, h: HandoffId)
    requires Inv(s) && Enabled(s, t) && !t.Env? && h in s.w.handoffs && !Installing(s.w, Holder(s), h)
    ensures var q := if t.p in s.procs then Some(s.procs[t.p]) else None;
            !Installing(EffectOf(s, t).w, NextHolder(Holder(s), q, EffectOf(s, t).next), h)
  {
    match t
    case Crash(_) =>
    case Launch(_, l) => LaunchCancels(s.w, Holder(s), l, h);
    case Install(p, x) =>
      PlacedAt(s, p, InstallLocks(x));
      InstallInstalling(s.w, Holder(s), s.procs[p], x, h);
    case Renew(_, _) =>
    case Disconnect(p, d) => DisconnectCancels(s.w, Holder(s), s.procs[p], d, h);
  }

  lemma CancelledStepwise(s: State, t: Step, h: HandoffId)
    requires Inv(s) && Enabled(s, t) && h in s.w.handoffs && !Installing(s.w, Holder(s), h)
    ensures !Installing(Apply(s, t).w, Holder(Apply(s, t)), h)
  {
    if t.Env? {
      EnvCancels(s.w, Holder(s), t.e, h);
    } else {
      StepLocks(s, t);
      MoveLocks(s, t.p, EffectOf(s, t));
      EffectCancels(s, t, h);
    }
  }

  lemma {:induction false} CancelledForGood(s: State, later: seq<Step>, h: HandoffId)
    requires Inv(s) && IsRun(s, later) && h in s.w.handoffs && !Installing(s.w, Holder(s), h)
    ensures !Installing(After(s, later).w, Holder(After(s, later)), h)
    decreases later
  {
    if later != [] {
      StepKeeps(s, later[0]);
      CancelledStepwise(s, later[0], h);
      CancelledForGood(Apply(s, later[0]), later[1..], h);
    }
  }

  // ---------------------------------------------------------------- disconnects

  lemma WorkersStayWorkers(w: World, q: Proc, d: DisconnectStep)
    requires DisconnectReady(w, q, d)
    ensures var next := DisconnectPlan(w, q, d).next; next.Some? ==> !next.value.Preparing?
  {
  }

  lemma PlanMarks(w: World, q: Proc, d: DisconnectStep)
    requires DisconnectReady(w, q, d)
    ensures DisconnectPlan(w, q, d).write.Mark? ==> d.PrepareMark?
  {
  }

  lemma WriteMarks(w: World, i: IntentId, x: Write)
    requires i in w.intents
    ensures var z := AfterWrite(w, i, x);
            && (x.Mark? ==> z.disconnectMarker == Some(i))
            && (!x.Mark? ==> z.disconnectMarker.None? || z.disconnectMarker == w.disconnectMarker)
  {
  }

  lemma MarkOnlyPrepared(w: World, q: Proc, d: DisconnectStep)
    requires DisconnectReady(w, q, d)
    ensures var z := DisconnectEffect(w, q, d).w;
            z.disconnectMarker.None? || z.disconnectMarker == w.disconnectMarker
            || (q.Preparing? && z.disconnectMarker == Some(q.i))
  {
    PlanMarks(w, q, d);
    WriteMarks(w, q.i, DisconnectPlan(w, q, d).write);
  }

  lemma InstallMarks(w: World, q: Proc, x: InstallStep)
    requires InstallReady(w, q, x)
    ensures var f := InstallEffect(w, q, x);
            && (f.w.disconnectMarker.None? || f.w.disconnectMarker == w.disconnectMarker)
            && (f.next.Some? ==> !f.next.value.Preparing?)
  {
  }

  lemma EnvMarks(w: World, e: EnvStep)
    requires EnvReady(w, e)
    ensures AfterEnv(w, e).disconnectMarker.None? || AfterEnv(w, e).disconnectMarker == w.disconnectMarker
  {
  }

  lemma LaunchMarks(w: World, l: LaunchStep)
    requires LaunchReady(w, l)
    ensures var f := LaunchEffect(w, l);
            f.w.disconnectMarker == w.disconnectMarker && (f.next.value.Preparing? ==> f.next.value.i !in w.intents)
  {
  }

  lemma MoveTargets(s: State, p: Pid, f: Effect, i: IntentId)
    requires !Targeting(s, i) && f.w.disconnectMarker != Some(i) && f.next != Some(Preparing(i))
    ensures !Targeting(Move(s, p, f), i)
  {
  }

  lemma TargetingEnds(s: State, t: Step, i: IntentId)
    requires Enabled(s, t) && i in s.w.intents && !Targeting(s, i)
    ensures !Targeting(Apply(s, t), i)
  {
    match t
    case Env(e) => EnvMarks(s.w, e);
    case Crash(p) => MoveTargets(s, p, Done(s.w), i);
    case Launch(p, l) =>
      LaunchMarks(s.w, l);
      MoveTargets(s, p, LaunchEffect(s.w, l), i);
    case Install(p, x) =>
      InstallMarks(s.w, s.procs[p], x);
      MoveTargets(s, p, InstallEffect(s.w, s.procs[p], x), i);
    case Renew(p, r) =>
      assert RefreshEffect(s.w, s.procs[p], r).w.disconnectMarker == s.w.disconnectMarker;
      MoveTargets(s, p, RefreshEffect(s.w, s.procs[p], r), i);
    case Disconnect(p, d) =>
      WorkersStayWorkers(s.w, s.procs[p], d);
      MarkOnlyPrepared(s.w, s.procs[p], d);
      MoveTargets(s, p, DisconnectEffect(s.w, s.procs[p], d), i);
  }

  lemma {:induction false} TargetingEndsForGood(s: State, later: seq<Step>, i: IntentId)
    requires Inv(s) && IsRun(s, later) && i in s.w.intents && !Targeting(s, i)
    ensures Inv(After(s, later)) && !Targeting(After(s, later), i)
    decreases later
  {
    if later == [] {
    } else {
      StepKeeps(s, later[0]);
      TargetingEnds(s, later[0], i);
      assert IntentGrows(s.w, Apply(s, later[0]).w, i);
      TargetingEndsForGood(Apply(s, later[0]), later[1..], i);
    }
  }

  lemma RemovalIsMarked(s: State, p: Pid)
    requires Inv(s) && Enabled(s, Disconnect(p, RemoveCredential))
    ensures s.w.disconnectMarker == Some(s.procs[p].i)
  {
    PlacedAt(s, p, false);
  }

  // ---------------------------------------------------------------- main results

  /** Once a handoff has lost its marker, and no process of it is starting or saving, no worker of it ever
      begins to install or saves a credential. */
  lemma SupersededHandoffNeverInstalls(run: seq<Step>, later: seq<Step>, h: HandoffId, o: Pid, x: InstallStep)
    requires IsRun(INITIAL, run) && h in After(INITIAL, run).w.handoffs
    requires !Installing(After(INITIAL, run).w, Holder(After(INITIAL, run)), h)
    requires IsRun(After(INITIAL, run), later)
    requires Enabled(After(After(INITIAL, run), later), Install(o, x)) && (x.Begin? || x.Save?)
    ensures After(After(INITIAL, run), later).procs[o].h != h
  {
    InitialInv();
    RunKeeps(INITIAL, run);
    CancelledForGood(After(INITIAL, run), later, h);
    RunKeeps(After(INITIAL, run), later);
    var z := After(After(INITIAL, run), later);
    if x.Save? {
      assert HoldsLock(z.procs[o]);
    }
  }

  /** Once an intent has lost its marker, no worker of it ever deletes a credential. */
  lemma SupersededDisconnectNeverDeletes(run: seq<Step>, later: seq<Step>, i: IntentId, o: Pid)
    requires IsRun(INITIAL, run) && i in After(INITIAL, run).w.intents && !Targeting(After(INITIAL, run), i)
    requires IsRun(After(INITIAL, run), later)
    requires Enabled(After(After(INITIAL, run), later), Disconnect(o, RemoveCredential))
    ensures After(After(INITIAL, run), later).procs[o].i != i
  {
    InitialInv();
    RunKeeps(INITIAL, run);
    TargetingEndsForGood(After(INITIAL, run), later, i);
    RemovalIsMarked(After(After(INITIAL, run), later), o);
  }

  /** A new connection that becomes active supersedes every disconnect and every other handoff. */
  lemma NewConnectionSupersedes(run: seq<Step>, p: Pid)
    requires IsRun(INITIAL, run) && Enabled(After(INITIAL, run), Install(p, ActivateHandoff))
    ensures var s := After(INITIAL, run);
            var z := Apply(s, Install(p, ActivateHandoff));
            && z.w.handoffMarker == Some(s.procs[p].h)
            && (forall h | h != s.procs[p].h :: !Installing(z.w, Holder(z), h))
            && (forall i :: !Targeting(z, i))
  {
    InitialInv();
    RunKeeps(INITIAL, run);
    var s := After(INITIAL, run);
    PlacedAt(s, p, false);
    forall o | o in s.procs ensures !s.procs[o].Preparing? {
      assert HoldsLock(s.procs[o]) <==> s.lock == Some(o);
    }
  }
}
