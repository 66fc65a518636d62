/** What can still be done: from every reachable state whose lock is free, one new process can carry a ceremony
    through to its end, and changes nothing else on the way. */
module LifecycleProgress {
  import opened Text
  import opened AccountStore
  import opened Lifecycle
  import opened LifecycleInvariant

  // ---------------------------------------------------------------- runs of one process

  /** The steps, all of process p, lead from one state to the other. */
  ghost predicate Leads(x: State, y: State, p: Pid, steps: seq<Step>) {
    IsRun(x, steps) && (forall t | t in steps :: !t.Env? && t.p == p) && After(x, steps) == y
  }

  ghost predicate Moves(x: State, y: State, p: Pid, t: Step) {
    !t.Env? && t.p == p && Enabled(x, t) && Apply(x, t) == y
  }

  lemma {:induction false} RunOn(x: State, steps: seq<Step>, t: Step)
    requires IsRun(x, steps) && Enabled(After(x, steps), t)
    ensures IsRun(x, steps + [t]) && After(x, steps + [t]) == Apply(After(x, steps), t)
    decreases steps
  {
    if steps == [] {
      assert After(Apply(x, t), []) == Apply(x, t);
      assert (steps + [t])[1..] == [];
    } else {
      RunOn(Apply(x, steps[0]), steps[1..], t);
      assert (steps + [t])[1..] == steps[1..] + [t];
    }
  }

  lemma LeadsOn(x: State, y: State, z: State, p: Pid, steps: seq<Step>, t: Step)
    requires Leads(x, y, p, steps) && Moves(y, z, p, t)
    ensures Leads(x, z, p, steps + [t])
  {
    RunOn(x, steps, t);
  }

  /** The state of s with p started and at point q. */
  function With(s: State, p: Pid, q: Proc, w: World): State {
    State(if HoldsLock(q) then Some(p) else None, s.procs[p := q], w)
  }

  function Without(s: State, w: World): State {
    State(None, s.procs, w)
  }

  predicate Idle(s: State, p: Pid) {
    s.lock.None? && p !in s.procs
  }

  /** The state of s after a step of p, which is at its next point or gone. */
  function Then(s: State, p: Pid, f: Effect): State {
    if f.next.Some? then With(s, p, f.next.value, f.w) else Without(s, f.w)
  }

  lemma Starts(s: State, p: Pid, l: LaunchStep) returns (steps: seq<Step>)
    requires Idle(s, p) && Enabled(s, Launch(p, l))
    ensures Leads(s, Then(s, p, LaunchEffect(s.w, l)), p, steps)
  {
    assert Leads(s, s, p, []);
    LeadsOn(s, s, Then(s, p, LaunchEffect(s.w, l)), p, [], Launch(p, l));
    steps := [] + [Launch(p, l)];
  }

  lemma Installs(s: State, p: Pid, q: Proc, w: World, x: InstallStep, f: Effect, so: seq<Step>)
    returns (steps: seq<Step>)
    requires Idle(s, p) && Leads(s, With(s, p, q, w), p, so)
    requires InstallReady(w, q, x) && (InstallLocks(x) ==> !HoldsLock(q)) && InstallEffect(w, q, x) == f
    ensures Leads(s, Then(s, p, f), p, steps)
  {
    LandsInstall(s, p, q, w, x, f);
    LeadsOn(s, With(s, p, q, w), Then(s, p, f), p, so, Install(p, x));
    steps := so + [Install(p, x)];
  }

  lemma LandsInstall(s: State, p: Pid, q: Proc, w: World, x: InstallStep, f: Effect)
    requires Idle(s, p)
    requires InstallReady(w, q, x) && (InstallLocks(x) ==> !HoldsLock(q)) && InstallEffect(w, q, x) == f
    ensures Moves(With(s, p, q, w), Then(s, p, f), p, Install(p, x))
  {
    assert EffectOf(With(s, p, q, w), Install(p, x)) == f;
  }

  lemma Works(s: State, p: Pid, q: Proc, w: World, d: DisconnectStep, f: Effect, so: seq<Step>)
    returns (steps: seq<Step>)
    requires Idle(s, p) && Leads(s, With(s, p, q, w), p, so)
    requires DisconnectReady(w, q, d) && (DisconnectLocks(d) ==> !HoldsLock(q)) && DisconnectEffect(w, q, d) == f
    ensures Leads(s, Then(s, p, f), p, steps)
  {
    LandsDisconnect(s, p, q, w, d, f);
    LeadsOn(s, With(s, p, q, w), Then(s, p, f), p, so, Disconnect(p, d));
    steps := so + [Disconnect(p, d)];
  }

  lemma LandsDisconnect(s: State, p: Pid, q: Proc, w: World, d: DisconnectStep, f: Effect)
    requires Idle(s, p)
    requires DisconnectReady(w, q, d) && (DisconnectLocks(d) ==> !HoldsLock(q)) && DisconnectEffect(w, q, d) == f
    ensures Moves(With(s, p, q, w), Then(s, p, f), p, Disconnect(p, d))
  {
    assert EffectOf(With(s, p, q, w), Disconnect(p, d)) == f;
  }

  // ---------------------------------------------------------------- a new connection

  /** The handoff's credential is stored, acknowledged and noticed; its receipt and its marker are gone. */
  ghost function Connected(w: World, h: HandoffId, c: Credential): World {
    w.(store := w.store[c.connection := c], receipts := w.receipts - {h}, handoffMarker := None,
       begun := w.begun + {h}, origin := w.origin[c.connectedAt := h], acked := w.acked + {h},
       notices := w.notices + multiset{h})
  }

  /** The world after the credential is saved. */
  ghost function Stored(w: World, h: HandoffId, c: Credential): World {
    w.(store := w.store[c.connection := c], receipts := w.receipts[h := InstallGeneration(c)],
       begun := w.begun + {h}, origin := w.origin[c.connectedAt := h])
  }

  /** The grant is one that the handoff may install now. */
  ghost predicate Installable(w: World, h: HandoffId, c: Credential) {
    && h in w.handoffs && InstallAllowed(w.store, w.handoffs[h], c)
    && c.connectedAt !in w.origin && c.binding == w.binding
  }

  lemma Saves(s: State, p: Pid, h: HandoffId, c: Credential) returns (steps: seq<Step>)
    requires Idle(s, p) && s.w.handoffMarker == Some(h) && Installable(s.w, h, c)
    ensures Leads(s, With(s, p, Acking(h), Stored(s.w, h, c)), p, steps)
  {
    var w := s.w;
    var begun := w.(receipts := w.receipts[h := InstallGeneration(c)], begun := w.begun + {h},
                    origin := w.origin[c.connectedAt := h]);
    steps := Starts(s, p, SpawnHandoff(h));
    steps := Installs(s, p, Waiting(h), w, Begin(c), To(begun, Saving(h, c)), steps);
    steps := Installs(s, p, Saving(h, c), begun, Save, To(Stored(w, h, c), Promoting(h)), steps);
    steps := Installs(s, p, Promoting(h), Stored(w, h, c), PromoteInstall(true), To(Stored(w, h, c), Acking(h)), steps);
  }

  /** The lock section that acknowledges a receipt. */
  lemma Retires(s: State, p: Pid, h: HandoffId, w: World, so: seq<Step>) returns (steps: seq<Step>)
    requires Idle(s, p) && Leads(s, With(s, p, Acking(h), w), p, so)
    requires h in w.receipts && Holds(w.store, w.receipts[h]) && w.receipts[h].binding == w.binding
    ensures var z := w.(receipts := w.receipts - {h}, acked := w.acked + {h});
            Leads(s, With(s, p, AckUnmarking(h), z), p, steps)
  {
    var acked := w.(acked := w.acked + {h});
    var retired := acked.(receipts := w.receipts - {h});
    steps := Installs(s, p, Acking(h), w, AckCheck, To(w, AckClaiming(h)), so);
    steps := Installs(s, p, AckClaiming(h), w, AckClaim, To(acked, AckRetiring(h)), steps);
    steps := Installs(s, p, AckRetiring(h), acked, AckRetire, To(retired, AckUnmarking(h)), steps);
  }

  lemma Notices(s: State, p: Pid, h: HandoffId, w: World, so: seq<Step>) returns (steps: seq<Step>)
    requires Idle(s, p) && Leads(s, With(s, p, AckUnmarking(h), w), p, so) && w.handoffMarker == Some(h)
    ensures Leads(s, Without(s, w.(handoffMarker := None, notices := w.notices + multiset{h})), p, steps)
  {
    var unmarked := w.(handoffMarker := None);
    var noticed := unmarked.(notices := w.notices + multiset{h});
    steps := Installs(s, p, AckUnmarking(h), w, AckUnmark, To(unmarked, Notifying(h)), so);
    steps := Installs(s, p, Notifying(h), unmarked, Notice, To(noticed, Leaving(h)), steps);
    steps := Installs(s, p, Leaving(h), noticed, Leave, Done(noticed), steps);
  }

  /** The active handoff can always be finished: whatever has run or died, once the lock is free one new worker
      installs a grant that it may install, acknowledges it and sends the notice. */
  lemma HandoffCanFinish(run: seq<Step>, p: Pid, h: HandoffId, c: Credential) returns (steps: seq<Step>)
    requires IsRun(INITIAL, run)
    requires var s := After(INITIAL, run);
             Idle(s, p) && s.w.handoffMarker == Some(h) && Installable(s.w, h, c)
    ensures var s := After(INITIAL, run);
            Leads(s, Without(s, Connected(s.w, h, c)), p, steps)
  {
    var s := After(INITIAL, run);
    steps := Saves(s, p, h, c);
    var stored := Stored(s.w, h, c);
    steps := Retires(s, p, h, stored, steps);
    steps := Notices(s, p, h, stored.(receipts := stored.receipts - {h}, acked := s.w.acked + {h}), steps);
    ConnectedIs(s.w, h, c);
  }

  lemma ConnectedIs(w: World, h: HandoffId, c: Credential)
    ensures var stored := Stored(w, h, c);
            stored.(receipts := stored.receipts - {h}, acked := w.acked + {h}, handoffMarker := None,
                    notices := w.notices + multiset{h})
            == Connected(w, h, c)
  {
  }

  /** A new connection may be started whenever no receipt is outstanding, and is then the active one. */
  lemma ConnectionCanStart(s: State, p: Pid, h: HandoffId, target: string, adds: bool) returns (steps: seq<Step>)
    requires Idle(s, p) && s.w.receipts == map[] && h !in s.w.handoffs
    requires if adds then target !in s.w.issued else target in s.w.store
    ensures var w := s.w.(handoffs := s.w.handoffs[h := Handoff(adds, target)], issued := s.w.issued + {target},
                          disconnectMarker := None, handoffMarker := Some(h));
            Leads(s, Without(s, w), p, steps)
  {
    var w := s.w.(handoffs := s.w.handoffs[h := Handoff(adds, target)], issued := s.w.issued + {target});
    var cleared := w.(disconnectMarker := None);
    steps := Starts(s, p, StartHandoff(h, target, adds));
    steps := Installs(s, p, Starting(h, false), w, ClearDisconnect, To(cleared, Starting(h, true)), steps);
    steps := Installs(s, p, Starting(h, true), cleared, ActivateHandoff, Done(cleared.(handoffMarker := Some(h))),
                      steps);
  }

  // ---------------------------------------------------------------- a disconnect

  /** The start of a disconnect prepares its intent and marks it as the active one. */
  lemma DisconnectCanStart(s: State, p: Pid, i: IntentId, id: string) returns (steps: seq<Step>)
    requires Idle(s, p) && i !in s.w.intents && id in s.w.store && s.w.store[id].binding == s.w.binding
    ensures var t := Intent(id, DisconnectGeneration(s.w.store[id]), Created, false);
            var w := s.w.(intents := s.w.intents[i := t], dirs := s.w.dirs[i := Dir(true, None)],
                          disconnectMarker := Some(i));
            Leads(s, Without(s, w), p, steps)
  {
    var t := Intent(id, DisconnectGeneration(s.w.store[id]), Created, false);
    var w := s.w.(intents := s.w.intents[i := t], dirs := s.w.dirs[i := Dir(true, None)]);
    steps := Starts(s, p, Prepare(i, id));
    steps := Works(s, p, Preparing(i), w, PrepareMark, Done(w.(disconnectMarker := Some(i))), steps);
  }

  /** The intent is confirmed and active, and its directory is as its start left it. */
  predicate Confirmable(w: World, i: IntentId) {
    && i in w.intents && w.intents[i].status == Confirmed && w.disconnectMarker == Some(i)
    && i in w.dirs && w.dirs[i] == Dir(true, None)
  }

  /** The intent is settled, its directory and its marker are gone. */
  function Settled(w: World, i: IntentId): World
    requires i in w.intents
  {
    w.(intents := w.intents[i := w.intents[i].(status := Disconnected, claimed := true)],
       disconnectMarker := None, dirs := w.dirs - {i}, recorded := w.recorded + {i})
  }

  /** And so is the credential; the handoffs known by now are cancelled. */
  function CarriedOut(w: World, i: IntentId): World
    requires i in w.intents
  {
    Settled(w, i).(store := w.store - {w.intents[i].target}, handoffMarker := None,
                   aimed := w.aimed[i := w.binding], deleted := w.deleted + {i},
                   cancelled := w.cancelled + w.handoffs.Keys)
  }

  lemma Polls(s: State, p: Pid, i: IntentId) returns (steps: seq<Step>)
    requires Idle(s, p) && i in s.w.intents && i in s.w.dirs && s.w.dirs[i] == Dir(true, None)
    requires forall o | o in s.procs :: s.procs[o] != Preparing(i)
    ensures Leads(s, With(s, p, Polling(i), s.w), p, steps)
  {
    steps := Starts(s, p, SpawnWorker(i));
    steps := Works(s, p, Loading(i), s.w, Load, To(s.w, Polling(i)), steps);
  }

  lemma Opens(s: State, p: Pid, i: IntentId) returns (steps: seq<Step>)
    requires Idle(s, p) && Confirmable(s.w, i) && forall o | o in s.procs :: s.procs[o] != Preparing(i)
    ensures Leads(s, With(s, p, Deleting(i), s.w), p, steps)
  {
    steps := Polls(s, p, i);
    steps := Works(s, p, Polling(i), s.w, PollConfirmed, To(s.w, Deleting(i)), steps);
  }

  lemma Begins(s: State, p: Pid, i: IntentId, w: World, so: seq<Step>) returns (steps: seq<Step>)
    requires Idle(s, p) && Leads(s, With(s, p, Deleting(i), w), p, so)
    requires i in w.intents && w.disconnectMarker == Some(i)
    requires w.intents[i].target in w.store ==> Targeted(w, i)
    ensures var present := w.intents[i].target in w.store;
            var z := if present then w.(aimed := w.aimed[i := w.binding]) else w;
            Leads(s, With(s, p, Matched(i, present), z), p, steps)
  {
    var present := w.intents[i].target in w.store;
    var z := if present then w.(aimed := w.aimed[i := w.binding]) else w;
    assert DisconnectPlan(w, Deleting(i), DeleteBegin)
        == if present then Plan(Aim, Some(Matched(i, true))) else GoOn(Matched(i, false));
    steps := Works(s, p, Deleting(i), w, DeleteBegin, To(z, Matched(i, present)), so);
  }

  lemma Records(s: State, p: Pid, i: IntentId, present: bool, w: World, so: seq<Step>) returns (steps: seq<Step>)
    requires Idle(s, p) && Leads(s, With(s, p, Matched(i, present), w), p, so)
    requires i in w.intents && i in w.dirs && w.dirs[i] == Dir(true, None)
    ensures var z := w.(dirs := w.dirs[i := Dir(true, Some(DeletePending))], recorded := w.recorded + {i});
            Leads(s, With(s, p, Recorded(i, present), z), p, steps)
  {
    var z := w.(dirs := w.dirs[i := Dir(true, Some(DeletePending))], recorded := w.recorded + {i});
    assert DisconnectPlan(w, Matched(i, present), Record)
        == Plan(PutReceipt(DeletePending), Some(Recorded(i, present)));
    steps := Works(s, p, Matched(i, present), w, Record, To(z, Recorded(i, present)), so);
  }

  lemma Claims(s: State, p: Pid, i: IntentId, present: bool, w: World, so: seq<Step>) returns (steps: seq<Step>)
    requires Idle(s, p) && Leads(s, With(s, p, Recorded(i, present), w), p, so)
    requires i in w.intents && w.intents[i].status == Confirmed
    ensures var z := w.(intents := w.intents[i := w.intents[i].(claimed := true)]);
            Leads(s, With(s, p, Claimed(i, present), z), p, steps)
  {
    var z := w.(intents := w.intents[i := w.intents[i].(claimed := true)]);
    assert DisconnectPlan(w, Recorded(i, present), ClaimDeletion) == Plan(Claim, Some(Claimed(i, present)));
    steps := Works(s, p, Recorded(i, present), w, ClaimDeletion, To(z, Claimed(i, present)), so);
  }

  lemma Cancels(s: State, p: Pid, i: IntentId, present: bool, w: World, so: seq<Step>) returns (steps: seq<Step>)
    requires Idle(s, p) && Leads(s, With(s, p, Claimed(i, present), w), p, so) && i in w.intents
    ensures Leads(s, With(s, p, if present then Cancelled(i) else Removed(i),
                          if present then w.(handoffMarker := None) else w), p, steps)
  {
    assert DisconnectPlan(w, Claimed(i, present), CancelHandoffs)
        == if present then Plan(DropHandoffMarker, Some(Cancelled(i))) else GoOn(Removed(i));
    steps := Works(s, p, Claimed(i, present), w, CancelHandoffs,
                   if present then To(w.(handoffMarker := None), Cancelled(i)) else To(w, Removed(i)), so);
  }

  lemma TakesOut(s: State, p: Pid, i: IntentId, w: World, so: seq<Step>) returns (steps: seq<Step>)
    requires Idle(s, p) && Leads(s, With(s, p, Cancelled(i), w), p, so) && i in w.intents
    ensures var z := w.(store := w.store - {w.intents[i].target}, deleted := w.deleted + {i},
                        cancelled := w.cancelled + w.handoffs.Keys);
            Leads(s, With(s, p, Removed(i), z), p, steps)
  {
    var z := w.(store := w.store - {w.intents[i].target}, deleted := w.deleted + {i},
                cancelled := w.cancelled + w.handoffs.Keys);
    assert DisconnectPlan(w, Cancelled(i), RemoveCredential) == Plan(DropCredential, Some(Removed(i)));
    steps := Works(s, p, Cancelled(i), w, RemoveCredential, To(z, Removed(i)), so);
  }

  lemma Promotes(s: State, p: Pid, i: IntentId, w: World, so: seq<Step>) returns (steps: seq<Step>)
    requires Idle(s, p) && Leads(s, With(s, p, Removed(i), w), p, so)
    requires i in w.intents && w.disconnectMarker == Some(i)
    requires i in w.dirs && w.dirs[i] == Dir(true, Some(DeletePending))
    ensures var z := w.(disconnectMarker := None, dirs := w.dirs[i := Dir(true, Some(CompletionPending))]);
            Leads(s, With(s, p, Completing(i), z), p, steps)
  {
    var promoted := w.(dirs := w.dirs[i := Dir(true, Some(CompletionPending))]);
    assert DisconnectPlan(w, Removed(i), Promote(true)) == Plan(PutReceipt(CompletionPending), Some(Promoted(i)));
    steps := Works(s, p, Removed(i), w, Promote(true), To(promoted, Promoted(i)), so);
    steps := Works(s, p, Promoted(i), promoted, FinishDelete(true),
                   To(promoted.(disconnectMarker := None), Completing(i)), steps);
  }

  lemma Reports(s: State, p: Pid, i: IntentId, w: World, so: seq<Step>) returns (steps: seq<Step>)
    requires Idle(s, p) && Leads(s, With(s, p, Completing(i), w), p, so)
    requires i in w.intents && w.intents[i].status == Confirmed
    ensures Leads(s, With(s, p, Exiting(i, Discard), SetStatus(w, i, Disconnected)), p, steps)
  {
    assert DisconnectPlan(w, Completing(i), Complete(true)) == Plan(Settle(Disconnected), Some(Exiting(i, Discard)));
    steps := Works(s, p, Completing(i), w, Complete(true), To(SetStatus(w, i, Disconnected), Exiting(i, Discard)), so);
  }

  lemma Leaves(s: State, p: Pid, i: IntentId, w: World, so: seq<Step>) returns (steps: seq<Step>)
    requires Idle(s, p) && Leads(s, With(s, p, Exiting(i, Discard), w), p, so)
    requires i in w.intents
    ensures Leads(s, Without(s, w.(dirs := w.dirs - {i})), p, steps)
  {
    assert DisconnectPlan(w, Exiting(i, Discard), Exit(Whole)) == Plan(DropDir(Whole), None);
    assert Cleared(w.dirs, i, Whole) == w.dirs - {i};
    steps := Works(s, p, Exiting(i, Discard), w, Exit(Whole), Done(w.(dirs := w.dirs - {i})), so);
  }

  /** A confirmed disconnect whose marker is in place can always be carried out: whatever has run or died, once
      the lock is free one new worker removes the targeted credential, if it is there, and no other, settles
      the intent, and leaves neither its directory nor its marker. */
  lemma DisconnectCanFinish(run: seq<Step>, p: Pid, i: IntentId) returns (steps: seq<Step>)
    requires IsRun(INITIAL, run)
    requires var s := After(INITIAL, run);
             && Idle(s, p) && Confirmable(s.w, i)
             && (s.w.intents[i].target in s.w.store ==> Targeted(s.w, i))
    ensures var s := After(INITIAL, run);
            var present := s.w.intents[i].target in s.w.store;
            Leads(s, Without(s, if present then CarriedOut(s.w, i) else Settled(s.w, i)), p, steps)
  {
    InitialInv();
    RunKeeps(INITIAL, run);
    var s := After(INITIAL, run);
    forall o | o in s.procs ensures s.procs[o] != Preparing(i) {
      assert HoldsLock(s.procs[o]) <==> s.lock == Some(o);
    }
    steps := Carries(s, p, i);
  }

  /** The world when the worker has passed the removal. */
  ghost function Passed(w: World, i: IntentId): World
    requires i in w.intents
  {
    var present := w.intents[i].target in w.store;
    var noted := w.(intents := w.intents[i := w.intents[i].(claimed := true)], recorded := w.recorded + {i},
                    dirs := w.dirs[i := Dir(true, Some(DeletePending))]);
    if present then
      noted.(aimed := w.aimed[i := w.binding], handoffMarker := None, store := w.store - {w.intents[i].target},
             deleted := w.deleted + {i}, cancelled := w.cancelled + w.handoffs.Keys)
    else noted
  }

  lemma PassesRemoval(s: State, p: Pid, i: IntentId) returns (steps: seq<Step>)
    requires Idle(s, p) && Confirmable(s.w, i) && forall o | o in s.procs :: s.procs[o] != Preparing(i)
    requires s.w.intents[i].target in s.w.store ==> Targeted(s.w, i)
    ensures Leads(s, With(s, p, Removed(i), Passed(s.w, i)), p, steps)
  {
    var present := s.w.intents[i].target in s.w.store;
    var aimed := if present then s.w.(aimed := s.w.aimed[i := s.w.binding]) else s.w;
    var noted := aimed.(dirs := s.w.dirs[i := Dir(true, Some(DeletePending))], recorded := s.w.recorded + {i});
    var claimed := noted.(intents := s.w.intents[i := s.w.intents[i].(claimed := true)]);
    steps := Opens(s, p, i);
    steps := Begins(s, p, i, s.w, steps);
    steps := Records(s, p, i, present, aimed, steps);
    steps := Claims(s, p, i, present, noted, steps);
    steps := Cancels(s, p, i, present, claimed, steps);
    if present {
      steps := TakesOut(s, p, i, claimed.(handoffMarker := None), steps);
    }
  }

  lemma Carries(s: State, p: Pid, i: IntentId) returns (steps: seq<Step>)
    requires Idle(s, p) && Confirmable(s.w, i) && forall o | o in s.procs :: s.procs[o] != Preparing(i)
    requires s.w.intents[i].target in s.w.store ==> Targeted(s.w, i)
    ensures var present := s.w.intents[i].target in s.w.store;
            Leads(s, Without(s, if present then CarriedOut(s.w, i) else Settled(s.w, i)), p, steps)
  {
    var gone := Passed(s.w, i);
    var promoted := gone.(disconnectMarker := None, dirs := gone.dirs[i := Dir(true, Some(CompletionPending))]);
    steps := PassesRemoval(s, p, i);
    steps := Promotes(s, p, i, gone, steps);
    steps := Reports(s, p, i, promoted, steps);
    steps := Leaves(s, p, i, SetStatus(promoted, i, Disconnected), steps);
    CarriedOutIs(s.w, i);
  }

  lemma CarriedOutIs(w: World, i: IntentId)
    requires Confirmable(w, i)
    ensures var gone := Passed(w, i);
            var promoted := gone.(disconnectMarker := None, dirs := gone.dirs[i := Dir(true, Some(CompletionPending))]);
            SetStatus(promoted, i, Disconnected).(dirs := promoted.dirs - {i})
            == if w.intents[i].target in w.store then CarriedOut(w, i) else Settled(w, i)
  {
  }

  /** A worker that hears that its intent is settled leaves neither its directory nor its marker. */
  lemma SettledIsCleared(s: State, p: Pid, i: IntentId) returns (steps: seq<Step>)
    requires Idle(s, p) && i in s.w.intents && IsTerminal(s.w.intents[i].status)
    requires i in s.w.dirs && s.w.dirs[i] == Dir(true, None) && forall o | o in s.procs :: s.procs[o] != Preparing(i)
    ensures Leads(s, Without(s, UnmarkDisconnect(s.w, i).(dirs := s.w.dirs - {i})), p, steps)
  {
    steps := Polls(s, p, i);
    steps := Works(s, p, Polling(i), s.w, PollTerminal, To(UnmarkDisconnect(s.w, i), Exiting(i, Discard)), steps);
    steps := Leaves(s, p, i, UnmarkDisconnect(s.w, i), steps);
  }

  /** A worker whose time has run out records that, ends the intent, and leaves nothing. */
  lemma ExpiryCanFinish(s: State, p: Pid, i: IntentId) returns (steps: seq<Step>)
    requires Idle(s, p) && i in s.w.intents && !IsTerminal(s.w.intents[i].status)
    requires i in s.w.dirs && s.w.dirs[i].intentFile && forall o | o in s.procs :: s.procs[o] != Preparing(i)
    requires s.w.dirs[i].receipt.None? || s.w.dirs[i].receipt == Some(ExpiredPending)
    ensures var w := SetStatus(s.w, i, Ended).(dirs := s.w.dirs - {i});
            Leads(s, Without(s, if s.w.dirs[i].receipt.None? then UnmarkDisconnect(w, i) else w), p, steps)
  {
    if s.w.dirs[i].receipt.None? {
      steps := Expires(s, p, i);
      steps := EndsExpired(s, p, i, true, s.w.(dirs := s.w.dirs[i := Dir(true, Some(ExpiredPending))]), steps);
    } else {
      steps := Starts(s, p, SpawnWorker(i));
      steps := Works(s, p, Loading(i), s.w, Load, To(s.w, CompletingExpired(i, false)), steps);
      steps := EndsExpired(s, p, i, false, s.w, steps);
    }
  }

  lemma Expires(s: State, p: Pid, i: IntentId) returns (steps: seq<Step>)
    requires Idle(s, p) && i in s.w.intents && i in s.w.dirs && s.w.dirs[i] == Dir(true, None)
    requires forall o | o in s.procs :: s.procs[o] != Preparing(i)
    ensures var w := s.w.(dirs := s.w.dirs[i := Dir(true, Some(ExpiredPending))]);
            Leads(s, With(s, p, CompletingExpired(i, true), w), p, steps)
  {
    var w := s.w.(dirs := s.w.dirs[i := Dir(true, Some(ExpiredPending))]);
    steps := Polls(s, p, i);
    steps := Works(s, p, Polling(i), s.w, ExpireCheck, To(s.w, Expiring(i)), steps);
    steps := Works(s, p, Expiring(i), s.w, ExpireWrite, To(w, CompletingExpired(i, true)), steps);
  }

  lemma EndsExpired(s: State, p: Pid, i: IntentId, polled: bool, w: World, so: seq<Step>) returns (steps: seq<Step>)
    requires Idle(s, p) && Leads(s, With(s, p, CompletingExpired(i, polled), w), p, so)
    requires i in w.intents && !IsTerminal(w.intents[i].status)
    ensures var z := SetStatus(w, i, Ended).(dirs := w.dirs - {i});
            Leads(s, Without(s, if polled then UnmarkDisconnect(z, i) else z), p, steps)
  {
    var ended := SetStatus(w, i, Ended);
    steps := Works(s, p, CompletingExpired(i, polled), w, CompleteExpired(true),
                   To(ended, if polled then Unmarking(i, Discard) else Exiting(i, Discard)), so);
    if polled {
      steps := UnmarksItself(s, p, i, ended, steps);
      steps := Leaves(s, p, i, UnmarkDisconnect(ended, i), steps);
    } else {
      steps := Leaves(s, p, i, ended, steps);
    }
  }

  lemma UnmarksItself(s: State, p: Pid, i: IntentId, w: World, so: seq<Step>) returns (steps: seq<Step>)
    requires Idle(s, p) && Leads(s, With(s, p, Unmarking(i, Discard), w), p, so) && i in w.intents
    ensures Leads(s, With(s, p, Exiting(i, Discard), UnmarkDisconnect(w, i)), p, steps)
  {
    steps := Works(s, p, Unmarking(i, Discard), w, UnmarkSelf, To(UnmarkDisconnect(w, i), Exiting(i, Discard)), so);
  }

  // ---------------------------------------------------------------- nobody is stuck

  /** A step of a process of a handoff or a disconnect that is neither a crash nor a start. */
  ghost predicate CanStep(s: State, p: Pid) {
    || (exists x :: Enabled(s, Install(p, x)))
    || (exists d :: Enabled(s, Disconnect(p, d)))
  }

  function SomeInstall(q: Proc): InstallStep {
    match q
    case Starting(_, cleared) => if cleared then ActivateHandoff else ClearDisconnect
    case Saving(_, _) => Save
    case Promoting(_) => PromoteInstall(true)
    case Acking(_) => AckCheck
    case AckClaiming(_) => AckClaim
    case AckRetiring(_) => AckRetire
    case AckUnmarking(_) => AckUnmark
    case Notifying(_) => Notice
    case _ => Leave
  }

  function SomeDisconnect(q: Proc): DisconnectStep {
    match q
    case Preparing(_) => PrepareMark
    case Deleting(_) => DeleteBegin
    case Matched(_, _) => Record
    case Recorded(_, _) => ClaimDeletion
    case Claimed(_, _) => CancelHandoffs
    case Cancelled(_) => RemoveCredential
    case Removed(_) => Promote(true)
    case Promoted(_) => FinishDelete(true)
    case Resuming(_) => ResumeClaim
    case Reclaimed(_) => ResumeCheck
    case Resumed(_) => ResumeFinish
    case Completing(_) => GiveUp
    case CompletingExpired(_, _) => CompleteExpired(true)
    case Unmarking(_, _) => UnmarkSelf
    case Exiting(_, _) => Exit(Whole)
    case _ => Raise
  }

  /** No process of a handoff or of a disconnect is ever left without a step of its own, unless another process
      has the lock. */
  lemma NobodyIsStuck(run: seq<Step>, p: Pid)
    requires IsRun(INITIAL, run)
    requires var s := After(INITIAL, run);
             p in s.procs && !s.procs[p].Refreshing? && (s.lock.None? || s.lock == Some(p))
    ensures CanStep(After(INITIAL, run), p)
  {
    InitialInv();
    RunKeeps(INITIAL, run);
    var s := After(INITIAL, run);
    var q := s.procs[p];
    assert ProcOk(s.w, q) && (HoldsLock(q) <==> s.lock == Some(p));
    if IsHandoffProc(q) {
      HandoffSteps(s.w, q);
      assert Enabled(s, Install(p, SomeInstall(q)));
    } else {
      DisconnectSteps(s.w, q);
      assert Enabled(s, Disconnect(p, SomeDisconnect(q)));
    }
  }

  lemma HandoffSteps(w: World, q: Proc)
    requires IsHandoffProc(q)
    ensures InstallReady(w, q, SomeInstall(q)) && (InstallLocks(SomeInstall(q)) ==> !HoldsLock(q))
  {
  }

  lemma DisconnectSteps(w: World, q: Proc)
    requires IsDisconnectProc(q) && q.i in w.intents
    ensures DisconnectReady(w, q, SomeDisconnect(q)) && (DisconnectLocks(SomeDisconnect(q)) ==> !HoldsLock(q))
  {
  }

  // ---------------------------------------------------------------- a token refresh

  /** New tokens for a stored account of the current assignment can always be saved; nothing else changes. */
  lemma RefreshCanPersist(s: State, p: Pid, id: string, accessToken: string, expiresAt: nat, rotated: Option<string>)
    returns (steps: seq<Step>)
    requires Idle(s, p) && id in s.w.store && s.w.store[id].connection == id && s.w.store[id].binding == s.w.binding
    requires s.w.store[id].renewal.None?
    ensures var c := s.w.store[id].(accessToken := accessToken, expiresAt := expiresAt, tokenType := BEARER,
                                    refreshToken := if rotated.Some? then rotated.value
                                                    else s.w.store[id].refreshToken);
            Leads(s, Without(s, s.w.(store := s.w.store[id := c])), p, steps)
  {
    var r := Persist(accessToken, expiresAt, rotated);
    steps := Starts(s, p, ReadAccount(id));
    var here, t := With(s, p, Refreshing(s.w.store[id]), s.w), Renew(p, r);
    assert Enabled(here, t);
    var there := Then(s, p, RefreshEffect(s.w, Refreshing(s.w.store[id]), r));
    LeadsOn(s, here, there, p, steps, t);
    steps := steps + [t];
  }
}
