/** Runs with two workers where one is meant. Two workers of one intent: the second finds the marker gone,
    takes itself for superseded, and removes the directory with the receipt that the first one still needs.
    Two workers of one handoff: the second begins to install over the receipt of the first. */
module LifecycleTwoWorkers {
  import opened Text
  import opened AccountStore
  import opened Lifecycle
  import opened LifecycleInvariant
  import opened LifecycleDurability
  import opened LifecycleReceipts

  ghost predicate Reached(s: State) {
    exists steps :: IsRun(INITIAL, steps) && After(INITIAL, steps) == s
  }

  lemma {:induction false} RunOn(s: State, steps: seq<Step>, t: Step)
    requires IsRun(s, steps) && Enabled(After(s, steps), t)
    ensures IsRun(s, steps + [t]) && After(s, steps + [t]) == Apply(After(s, steps), t)
    decreases steps
  {
    if steps == [] {
      assert [t][1..] == [];
    } else {
      RunOn(Apply(s, steps[0]), steps[1..], t);
      assert (steps + [t])[1..] == steps[1..] + [t];
    }
  }

  lemma Extend(s: State, t: Step) returns (z: State)
    requires Reached(s) && Enabled(s, t)
    ensures z == Apply(s, t) && Reached(z)
  {
    z := Apply(s, t);
    var steps :| IsRun(INITIAL, steps) && After(INITIAL, steps) == s;
    RunOn(INITIAL, steps, t);
  }

  /** One step of a disconnect worker at q that goes on. */
  lemma WorkerGoesOn(s: State, p: Pid, q: Proc, d: DisconnectStep, x: Write, next: Proc) returns (z: State)
    requires Reached(s) && p in s.procs && s.procs[p] == q
    requires DisconnectReady(s.w, q, d) && (DisconnectLocks(d) ==> s.lock.None?)
    requires DisconnectPlan(s.w, q, d) == Plan(x, Some(next))
    ensures Reached(z)
    ensures z.w == AfterWrite(s.w, q.i, x)
    ensures z.procs == s.procs[p := next]
    ensures z.lock == if HoldsLock(next) then Some(p) else if s.lock == Some(p) then None else s.lock
  {
    z := Extend(s, Disconnect(p, d));
  }

  lemma Supersedes(s: State, o: Pid, i: IntentId)
    requires o in s.procs && s.procs[o] == Polling(i) && i in s.w.intents && s.lock.None?
    requires s.w.disconnectMarker != Some(i)
    ensures Enabled(s, Disconnect(o, PollMarkerGone))
    ensures Apply(s, Disconnect(o, PollMarkerGone)) == State(None, s.procs[o := Exiting(i, Discard)], s.w)
  {
  }

  lemma Discards(s: State, o: Pid, i: IntentId)
    requires o in s.procs && s.procs[o] == Exiting(i, Discard) && i in s.w.intents
    ensures Enabled(s, Disconnect(o, Exit(Whole)))
    ensures EffectOf(s, Disconnect(o, Exit(Whole))).w == AfterWrite(s.w, i, DropDir(Whole))
  {
  }

  /** Removing the directory that is owed leaves nothing to complete from. */
  lemma ExitLoses(w: World, i: IntentId)
    requires Owed(w, i)
    ensures var z := AfterWrite(w, i, DropDir(Whole)); Owed(z, i) && i !in z.dirs && !Durable(z)
  {
    assert !Kept(AfterWrite(w, i, DropDir(Whole)), i);
  }

  /** Whatever else is going on, a worker that finds its marker gone can remove what is still owed. */
  lemma SecondWorkerLosesReceipt(s: State, o: Pid)
    requires o in s.procs && s.procs[o].Polling? && s.lock.None?
    requires Owed(s.w, s.procs[o].i) && s.w.disconnectMarker != Some(s.procs[o].i)
    ensures Enabled(s, Disconnect(o, PollMarkerGone))
    ensures var v := Apply(s, Disconnect(o, PollMarkerGone));
            && Enabled(v, Disconnect(o, Exit(Whole)))
            && Owed(EffectOf(v, Disconnect(o, Exit(Whole))).w, s.procs[o].i)
            && s.procs[o].i !in EffectOf(v, Disconnect(o, Exit(Whole))).w.dirs
  {
    var i := s.procs[o].i;
    Supersedes(s, o, i);
    Discards(Apply(s, Disconnect(o, PollMarkerGone)), o, i);
    ExitLoses(s.w, i);
  }

  lemma Started(id: string) returns (s: State)
    ensures Reached(s) && s.lock.None? && s.procs == map[]
    ensures s.w == EMPTY.(handoffs := map[0 := Handoff(true, id)], issued := {id}, handoffMarker := Some(0))
  {
    assert IsRun(INITIAL, []) && After(INITIAL, []) == INITIAL;
    s := Extend(INITIAL, Launch(0, StartHandoff(0, id, true)));
    s := Extend(s, Install(0, ClearDisconnect));
    s := Extend(s, Install(0, ActivateHandoff));
  }

  /** The store holds the credential under the first assignment. */
  predicate Stored(w: World, c: Credential) {
    c.connection in w.store && w.store[c.connection] == c && w.binding == 0
  }

  /** A handoff began to install the credential. */
  predicate HasReceipt(w: World, h: HandoffId, c: Credential) {
    h in w.receipts && w.receipts[h] == InstallGeneration(c)
  }

  lemma FirstBegins(c: Credential) returns (s: State)
    requires c.binding == 0
    ensures Reached(s) && s.lock == Some(0) && s.procs == map[0 := Saving(0, c)] && s.w.binding == 0
    ensures HasReceipt(s.w, 0, c) && s.w.receipts.Keys == {0} && s.w.origin.Keys == {c.connectedAt}
    ensures s.w.handoffs.Keys == {0} && s.w.acked == {} && 0 !in s.w.intents
  {
    s := Started(c.connection);
    s := Extend(s, Launch(0, SpawnHandoff(0)));
    s := Extend(s, Install(0, Begin(c)));
  }

  lemma Saved(c: Credential) returns (s: State)
    requires c.binding == 0
    ensures Reached(s) && s.lock == Some(0) && s.procs == map[0 := Promoting(0)] && Stored(s.w, c)
    ensures HasReceipt(s.w, 0, c) && s.w.receipts.Keys == {0} && s.w.origin.Keys == {c.connectedAt}
    ensures s.w.handoffs.Keys == {0} && s.w.acked == {} && 0 !in s.w.intents
  {
    s := FirstBegins(c);
    s := Extend(s, Install(0, Save));
  }

  /** One handoff has put the credential in the store, and its worker has died. */
  lemma Connected(c: Credential) returns (s: State)
    requires c.binding == 0
    ensures Reached(s) && s.lock.None? && s.procs == map[] && Stored(s.w, c)
    ensures HasReceipt(s.w, 0, c) && s.w.receipts.Keys == {0} && s.w.origin.Keys == {c.connectedAt}
    ensures s.w.handoffs.Keys == {0} && s.w.acked == {} && 0 !in s.w.intents
  {
    s := Saved(c);
    s := Extend(s, Crash(0));
  }

  // ---------------------------------------------------------------- two workers of one intent

  /** The intent of disconnecting it, with its marker and directory. */
  predicate Asked(w: World, c: Credential, status: Status, claimed: bool, receipt: Option<Receipt>) {
    && Stored(w, c) && w.disconnectMarker == Some(0)
    && 0 in w.intents && w.intents[0] == Intent(c.connection, DisconnectGeneration(c), status, claimed)
    && 0 in w.dirs && w.dirs[0] == Dir(true, receipt)
  }

  /** A disconnect of it is prepared. */
  lemma Prepared(c: Credential) returns (s: State)
    requires c.binding == 0
    ensures Reached(s) && s.lock.None? && s.procs == map[] && Asked(s.w, c, Created, false, None)
  {
    s := Connected(c);
    s := Extend(s, Launch(0, Prepare(0, c.connection)));
    s := Extend(s, Disconnect(0, PrepareMark));
  }

  lemma UserConfirms(c: Credential) returns (s: State)
    requires c.binding == 0
    ensures Reached(s) && s.lock.None? && s.procs == map[] && Asked(s.w, c, Confirmed, false, None)
  {
    s := Prepared(c);
    s := Extend(s, Env(Activate(0)));
    s := Extend(s, Env(Confirm(0)));
  }

  /** The two processes and the lock. */
  predicate Two(s: State, lock: Option<Pid>, one: Proc, two: Proc) {
    s.lock == lock && 1 in s.procs && s.procs[1] == one && 2 in s.procs && s.procs[2] == two
  }

  /** The user has confirmed the disconnect; nothing is deleted yet. */
  ghost predicate Scene(s: State, c: Credential, lock: Option<Pid>, one: Proc, claimed: bool,
                        receipt: Option<Receipt>)
  {
    Reached(s) && Two(s, lock, one, Polling(0)) && Asked(s.w, c, Confirmed, claimed, receipt)
  }

  lemma TwoLoading(c: Credential) returns (s: State)
    requires c.binding == 0
    ensures Reached(s) && Two(s, None, Loading(0), Loading(0)) && Asked(s.w, c, Confirmed, false, None)
  {
    s := UserConfirms(c);
    s := Extend(s, Launch(1, SpawnWorker(0)));
    s := Extend(s, Launch(2, SpawnWorker(0)));
  }

  lemma OnePolling(c: Credential) returns (s: State)
    requires c.binding == 0
    ensures Reached(s) && Two(s, None, Loading(0), Polling(0)) && Asked(s.w, c, Confirmed, false, None)
  {
    s := TwoLoading(c);
    s := WorkerGoesOn(s, 2, Loading(0), Load, Nothing, Polling(0));
  }

  lemma TwoPolling(c: Credential) returns (s: State)
    requires c.binding == 0
    ensures Scene(s, c, None, Polling(0), false, None)
  {
    s := OnePolling(c);
    s := WorkerGoesOn(s, 1, Loading(0), Load, Nothing, Polling(0));
  }

  lemma OneSeesConfirmed(c: Credential) returns (s: State)
    requires c.binding == 0
    ensures Scene(s, c, None, Deleting(0), false, None)
  {
    s := TwoPolling(c);
    s := WorkerGoesOn(s, 1, Polling(0), PollConfirmed, Nothing, Deleting(0));
  }

  lemma AimPlan(w: World, c: Credential)
    requires Asked(w, c, Confirmed, false, None) && c.binding == 0
    ensures DisconnectReady(w, Deleting(0), DeleteBegin)
    ensures DisconnectPlan(w, Deleting(0), DeleteBegin) == Plan(Aim, Some(Matched(0, true)))
    ensures Asked(AfterWrite(w, 0, Aim), c, Confirmed, false, None)
  {
    assert Targeted(w, 0);
  }

  lemma OneMatches(c: Credential) returns (s: State)
    requires c.binding == 0
    ensures Scene(s, c, Some(1), Matched(0, true), false, None)
  {
    s := OneSeesConfirmed(c);
    AimPlan(s.w, c);
    s := WorkerGoesOn(s, 1, Deleting(0), DeleteBegin, Aim, Matched(0, true));
  }

  lemma OneRecords(c: Credential) returns (s: State)
    requires c.binding == 0
    ensures Scene(s, c, Some(1), Recorded(0, true), false, Some(DeletePending))
  {
    s := OneMatches(c);
    s := WorkerGoesOn(s, 1, Matched(0, true), Record, PutReceipt(DeletePending), Recorded(0, true));
  }

  lemma ClaimPlan(w: World, i: IntentId)
    requires i in w.intents && w.intents[i].status == Confirmed
    ensures DisconnectReady(w, Recorded(i, true), ClaimDeletion)
    ensures DisconnectPlan(w, Recorded(i, true), ClaimDeletion) == Plan(Claim, Some(Claimed(i, true)))
  {
  }

  lemma ClaimAsked(w: World, c: Credential, r: Option<Receipt>)
    requires Asked(w, c, Confirmed, false, r)
    ensures Asked(AfterWrite(w, 0, Claim), c, Confirmed, true, r)
  {
  }

  lemma CancelPlan(w: World, i: IntentId)
    requires i in w.intents
    ensures DisconnectReady(w, Claimed(i, true), CancelHandoffs)
    ensures DisconnectPlan(w, Claimed(i, true), CancelHandoffs) == Plan(DropHandoffMarker, Some(Cancelled(i)))
  {
  }

  lemma CancelAsked(w: World, c: Credential, r: Option<Receipt>)
    requires Asked(w, c, Confirmed, true, r)
    ensures Asked(AfterWrite(w, 0, DropHandoffMarker), c, Confirmed, true, r)
  {
  }

  lemma RemovePlan(w: World, i: IntentId)
    requires i in w.intents
    ensures DisconnectReady(w, Cancelled(i), RemoveCredential)
    ensures DisconnectPlan(w, Cancelled(i), RemoveCredential) == Plan(DropCredential, Some(Removed(i)))
  {
  }

  lemma OneClaims(c: Credential) returns (s: State)
    requires c.binding == 0
    ensures Scene(s, c, Some(1), Claimed(0, true), true, Some(DeletePending))
  {
    s := OneRecords(c);
    ClaimPlan(s.w, 0);
    ClaimAsked(s.w, c, Some(DeletePending));
    s := WorkerGoesOn(s, 1, Recorded(0, true), ClaimDeletion, Claim, Claimed(0, true));
  }

  lemma OneCancels(c: Credential) returns (s: State)
    requires c.binding == 0
    ensures Scene(s, c, Some(1), Cancelled(0), true, Some(DeletePending))
  {
    s := OneClaims(c);
    CancelPlan(s.w, 0);
    CancelAsked(s.w, c, Some(DeletePending));
    s := WorkerGoesOn(s, 1, Claimed(0, true), CancelHandoffs, DropHandoffMarker, Cancelled(0));
  }

  /** The first worker has removed the credential and its marker, and is about to tell the platform. */
  ghost predicate Gap(s: State, lock: Option<Pid>, one: Proc, two: Proc, marker: Option<IntentId>) {
    && Reached(s) && Two(s, lock, one, two) && 0 in s.w.deleted && s.w.disconnectMarker == marker
    && 0 in s.w.intents && s.w.intents[0].status == Confirmed
  }

  lemma RemovalOpens(w: World)
    requires 0 in w.intents
    ensures var z := AfterWrite(w, 0, DropCredential);
            0 in z.deleted && z.intents == w.intents && z.disconnectMarker == w.disconnectMarker
  {
  }

  lemma OneRemoves(c: Credential) returns (s: State)
    requires c.binding == 0
    ensures Gap(s, Some(1), Removed(0), Polling(0), Some(0))
  {
    s := OneCancels(c);
    RemovePlan(s.w, 0);
    RemovalOpens(s.w);
    s := WorkerGoesOn(s, 1, Cancelled(0), RemoveCredential, DropCredential, Removed(0));
  }

  lemma OnePromotes(c: Credential) returns (s: State)
    requires c.binding == 0
    ensures Gap(s, Some(1), Promoted(0), Polling(0), Some(0))
  {
    s := OneRemoves(c);
    s := WorkerGoesOn(s, 1, Removed(0), Promote(false), Nothing, Promoted(0));
  }

  lemma OneCompletes(c: Credential) returns (s: State)
    requires c.binding == 0
    ensures Gap(s, None, Completing(0), Polling(0), None)
  {
    s := OnePromotes(c);
    s := WorkerGoesOn(s, 1, Promoted(0), FinishDelete(true), TakeMark, Completing(0));
  }

  lemma TwoGivesUp(c: Credential) returns (s: State)
    requires c.binding == 0
    ensures Gap(s, None, Completing(0), Exiting(0, Discard), None)
  {
    s := OneCompletes(c);
    s := WorkerGoesOn(s, 2, Polling(0), PollMarkerGone, Nothing, Exiting(0, Discard));
  }

  /** Whatever the credential: a run with two workers of one intent reaches a removed credential that the
      platform still has as confirmed, with neither directory nor receipt left to complete it from. */
  lemma TwoWorkersLoseCompletion(c: Credential) returns (s: State)
    requires c.binding == 0
    ensures Reached(s) && 0 in s.w.deleted && 0 in s.w.intents && s.w.intents[0].status == Confirmed
    ensures 0 !in s.w.dirs
    ensures !Durable(s.w)
  {
    var v := TwoGivesUp(c);
    Discards(v, 2, 0);
    ExitLoses(v.w, 0);
    s := Extend(v, Disconnect(2, Exit(Whole)));
  }

  // ---------------------------------------------------------------- two workers of one handoff

  /** Three grants of one Google account, one after the other. */
  predicate Regranted(c: Credential, c1: Credential, c2: Credential) {
    && c.binding == 0 && c1.binding == 0 && c2.binding == 0
    && c1.connection == c.connection == c2.connection && c1.subject == c.subject == c2.subject
    && c.connectedAt != c1.connectedAt && c1.connectedAt != c2.connectedAt && c2.connectedAt != c.connectedAt
  }

  lemma AckCheckClaims(w: World, c: Credential)
    requires Stored(w, c) && HasReceipt(w, 0, c) && c.binding == 0
    ensures AckCheckEffect(w, 0) == To(w, AckClaiming(0))
  {
  }

  lemma Acknowledging(c: Credential) returns (s: State)
    requires c.binding == 0
    ensures Reached(s) && s.lock == Some(0) && s.procs == map[0 := AckClaiming(0)] && Stored(s.w, c)
    ensures s.w.receipts.Keys == {0} && s.w.origin.Keys == {c.connectedAt} && s.w.handoffs.Keys == {0}
    ensures 1 !in s.w.acked
  {
    s := Connected(c);
    s := Extend(s, Launch(0, ResumeAck(0)));
    AckCheckClaims(s.w, c);
    s := Extend(s, Install(0, AckCheck));
  }

  /** The first credential is acknowledged. */
  lemma Acknowledged(c: Credential) returns (s: State)
    requires c.binding == 0
    ensures Reached(s) && s.lock.None? && s.procs == map[] && Stored(s.w, c)
    ensures s.w.receipts == map[] && s.w.origin.Keys == {c.connectedAt} && s.w.handoffs.Keys == {0}
    ensures 1 !in s.w.acked
  {
    s := Acknowledging(c);
    s := Extend(s, Install(0, AckClaim));
    s := Extend(s, Install(0, AckRetire));
    s := Extend(s, Crash(0));
  }

  /** Its permissions are changed by a second handoff. */
  lemma Replacing(c: Credential) returns (s: State)
    requires c.binding == 0
    ensures Reached(s) && s.lock.None? && s.procs == map[] && Stored(s.w, c)
    ensures s.w.receipts == map[] && s.w.origin.Keys == {c.connectedAt}
    ensures s.w.handoffMarker == Some(1) && 1 in s.w.handoffs && s.w.handoffs[1] == Handoff(false, c.connection)
    ensures 1 !in s.w.acked
  {
    s := Acknowledged(c);
    s := Extend(s, Launch(0, StartHandoff(1, c.connection, false)));
    s := Extend(s, Install(0, ClearDisconnect));
    s := Extend(s, Install(0, ActivateHandoff));
  }

  lemma TwoWaiting(c: Credential) returns (s: State)
    requires c.binding == 0
    ensures Reached(s) && Two(s, None, Waiting(1), Waiting(1)) && Stored(s.w, c)
    ensures s.w.receipts == map[] && s.w.origin.Keys == {c.connectedAt}
    ensures s.w.handoffMarker == Some(1) && 1 in s.w.handoffs && s.w.handoffs[1] == Handoff(false, c.connection)
    ensures 1 !in s.w.acked
  {
    s := Replacing(c);
    s := Extend(s, Launch(1, SpawnHandoff(1)));
    s := Extend(s, Launch(2, SpawnHandoff(1)));
  }

  /** The first worker of the second handoff has begun with its grant. */
  predicate Begun(w: World, c1: Credential, c2: Credential) {
    && HasReceipt(w, 1, c1) && w.receipts.Keys == {1}
    && c1.connectedAt in w.origin && w.origin[c1.connectedAt] == 1 && c2.connectedAt !in w.origin
    && w.handoffMarker == Some(1) && 1 in w.handoffs && w.handoffs[1] == Handoff(false, c1.connection)
    && 1 !in w.acked && w.binding == 0
  }

  lemma OneBegins(c: Credential, c1: Credential, c2: Credential) returns (s: State)
    requires Regranted(c, c1, c2)
    ensures Reached(s) && Two(s, Some(1), Saving(1, c1), Waiting(1)) && Begun(s.w, c1, c2)
  {
    s := TwoWaiting(c);
    s := Extend(s, Install(1, Begin(c1)));
  }

  lemma OneInstalls(c: Credential, c1: Credential, c2: Credential) returns (s: State)
    requires Regranted(c, c1, c2)
    ensures Reached(s) && Two(s, Some(1), Promoting(1), Waiting(1)) && Begun(s.w, c1, c2) && Stored(s.w, c1)
  {
    s := OneBegins(c, c1, c2);
    s := Extend(s, Install(1, Save));
  }

  lemma OneLeaves(c: Credential, c1: Credential, c2: Credential) returns (s: State)
    requires Regranted(c, c1, c2)
    ensures Reached(s) && Two(s, None, Leaving(1), Waiting(1)) && Begun(s.w, c1, c2) && Stored(s.w, c1)
  {
    s := OneInstalls(c, c1, c2);
    s := Extend(s, Install(1, PromoteInstall(false)));
  }

  lemma BeginUncovers(w: World, c1: Credential, c2: Credential)
    requires Begun(w, c1, c2) && Stored(w, c1) && InstallReady(w, Waiting(1), Begin(c2))
    ensures var z := InstallEffect(w, Waiting(1), Begin(c2)).w;
            && Stored(z, c1) && c1.connectedAt in z.origin && z.origin[c1.connectedAt] !in z.acked
            && (forall h | h in z.receipts :: z.receipts[h] != InstallGeneration(c1))
            && !Covered(z)
  {
    var z := InstallEffect(w, Waiting(1), Begin(c2)).w;
    assert z.receipts[1] == InstallGeneration(c2);
    assert !Accounted(z, c1.connection);
  }

  /** Whatever the grants: a run with two workers of one handoff reaches a credential in the store that the
      platform has not acknowledged and that no receipt stands for. */
  lemma TwoWorkersLoseInstallReceipt(c: Credential, c1: Credential, c2: Credential) returns (s: State)
    requires Regranted(c, c1, c2)
    ensures Reached(s) && Stored(s.w, c1)
    ensures c1.connectedAt in s.w.origin && s.w.origin[c1.connectedAt] !in s.w.acked
    ensures forall h | h in s.w.receipts :: s.w.receipts[h] != InstallGeneration(c1)
    ensures !Covered(s.w)
  {
    var v := OneLeaves(c, c1, c2);
    BeginUncovers(v.w, c1, c2);
    s := Extend(v, Install(2, Begin(c2)));
  }
}
