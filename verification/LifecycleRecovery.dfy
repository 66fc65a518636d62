/** What the durable state is for: from every state that keeps it, one more worker can finish the work. */
module LifecycleRecovery {
  import opened Text
  import opened AccountStore
  import opened Lifecycle
  import opened LifecycleInvariant
  import opened LifecycleDurability
  import opened LifecycleReceipts

  /** Every step is one of process p. */
  predicate Only(p: Pid, steps: seq<Step>) {
    forall t | t in steps :: !t.Env? && t.p == p
  }

  // ---------------------------------------------------------------- completions

  /** The steps, all of process p, settle the intent and leave the store alone. */
  ghost predicate Settles(s: State, p: Pid, i: IntentId, steps: seq<Step>) {
    && IsRun(s, steps) && Only(p, steps)
    && var w := After(s, steps).w;
       i in w.intents && w.intents[i].status == Disconnected && w.store == s.w.store
  }

  lemma SettlesBefore(s: State, p: Pid, i: IntentId, t: Step, rest: seq<Step>)
    requires Enabled(s, t) && !t.Env? && t.p == p
    requires Settles(Apply(s, t), p, i, rest) && EffectOf(s, t).w.store == s.w.store
    ensures Settles(s, p, i, [t] + rest)
  {
    assert ([t] + rest)[1..] == rest;
  }

  /** The intent has been claimed, and its credential is gone. */
  predicate Ready(w: World, i: IntentId) {
    i in w.intents && w.intents[i].status == Confirmed && w.intents[i].target !in w.store
  }

  lemma FromCompleting(s: State, p: Pid, i: IntentId) returns (steps: seq<Step>)
    requires p in s.procs && s.procs[p] == Completing(i) && Ready(s.w, i)
    ensures Settles(s, p, i, steps)
  {
    var t := Disconnect(p, Complete(true));
    assert After(Apply(s, t), []) == Apply(s, t);
    SettlesBefore(s, p, i, t, []);
    steps := [t] + [];
  }

  lemma FromResumed(s: State, p: Pid, i: IntentId) returns (steps: seq<Step>)
    requires p in s.procs && s.procs[p] == Resumed(i) && Ready(s.w, i)
    ensures Settles(s, p, i, steps)
  {
    var t := Disconnect(p, ResumeFinish);
    var rest := FromCompleting(Apply(s, t), p, i);
    SettlesBefore(s, p, i, t, rest);
    steps := [t] + rest;
  }

  lemma FromReclaimed(s: State, p: Pid, i: IntentId) returns (steps: seq<Step>)
    requires p in s.procs && s.procs[p] == Reclaimed(i) && Ready(s.w, i)
    requires ReceiptOf(s.w.dirs, i) == Some(DeletePending)
    ensures Settles(s, p, i, steps)
  {
    var t := Disconnect(p, ResumeCheck);
    assert DisconnectPlan(s.w, s.procs[p], ResumeCheck) == Plan(PutReceipt(CompletionPending), Some(Resumed(i)));
    var rest := FromResumed(Apply(s, t), p, i);
    SettlesBefore(s, p, i, t, rest);
    steps := [t] + rest;
  }

  lemma FromResuming(s: State, p: Pid, i: IntentId) returns (steps: seq<Step>)
    requires p in s.procs && s.procs[p] == Resuming(i) && Ready(s.w, i) && s.lock.None?
    requires ReceiptOf(s.w.dirs, i) == Some(DeletePending)
    ensures Settles(s, p, i, steps)
  {
    var t := Disconnect(p, ResumeClaim);
    assert DisconnectPlan(s.w, s.procs[p], ResumeClaim) == Plan(Claim, Some(Reclaimed(i)));
    var rest := FromReclaimed(Apply(s, t), p, i);
    SettlesBefore(s, p, i, t, rest);
    steps := [t] + rest;
  }

  lemma FromLoading(s: State, p: Pid, i: IntentId) returns (steps: seq<Step>)
    requires p in s.procs && s.procs[p] == Loading(i) && Ready(s.w, i) && s.lock.None? && Kept(s.w, i)
    ensures Settles(s, p, i, steps)
  {
    var t := Disconnect(p, Load);
    var z := Apply(s, t);
    assert z.w == s.w && z.lock == s.lock;
    var rest;
    if s.w.dirs[i].receipt == Some(DeletePending) {
      assert z.procs[p] == Resuming(i);
      rest := FromResuming(z, p, i);
    } else {
      assert z.procs[p] == Completing(i);
      rest := FromCompleting(z, p, i);
    }
    SettlesBefore(s, p, i, t, rest);
    steps := [t] + rest;
  }

  lemma FromKept(s: State, p: Pid, i: IntentId) returns (steps: seq<Step>)
    requires p !in s.procs && Ready(s.w, i) && s.lock.None? && Kept(s.w, i)
    requires forall o | o in s.procs :: s.procs[o] != Preparing(i)
    ensures Settles(s, p, i, steps)
  {
    var t := Launch(p, SpawnWorker(i));
    var rest := FromLoading(Apply(s, t), p, i);
    SettlesBefore(s, p, i, t, rest);
    steps := [t] + rest;
  }

  lemma OwedIsReady(s: State, i: IntentId)
    requires Inv(s) && Owed(s.w, i)
    ensures Ready(s.w, i)
  {
    assert IntentOk(s.w, Holder(s), i);
  }

  /** No lost completion: whatever has run, died or is still there, a completion that is owed and durable
      can be finished by one new worker, without touching the store. */
  lemma CompletionCanBeResumed(run: seq<Step>, p: Pid, i: IntentId) returns (steps: seq<Step>)
    requires IsRun(INITIAL, run)
    requires var s := After(INITIAL, run);
             Owed(s.w, i) && Kept(s.w, i) && p !in s.procs && s.lock.None?
    ensures Settles(After(INITIAL, run), p, i, steps)
  {
    InitialInv();
    RunKeeps(INITIAL, run);
    var s := After(INITIAL, run);
    OwedIsReady(s, i);
    forall o | o in s.procs ensures s.procs[o] != Preparing(i) {
      assert HoldsLock(s.procs[o]) <==> s.lock == Some(o);
    }
    steps := FromKept(s, p, i);
  }

  // ---------------------------------------------------------------- install receipts

  /** The steps, all of process p, acknowledge the handoff and leave the store alone. */
  ghost predicate Acknowledges(s: State, p: Pid, h: HandoffId, steps: seq<Step>) {
    && IsRun(s, steps) && Only(p, steps)
    && h in After(s, steps).w.acked && After(s, steps).w.store == s.w.store
  }

  lemma AcknowledgesBefore(s: State, p: Pid, h: HandoffId, t: Step, rest: seq<Step>)
    requires Enabled(s, t) && !t.Env? && t.p == p
    requires Acknowledges(Apply(s, t), p, h, rest) && EffectOf(s, t).w.store == s.w.store
    ensures Acknowledges(s, p, h, [t] + rest)
  {
    assert ([t] + rest)[1..] == rest;
  }

  lemma FromAckClaiming(s: State, p: Pid, h: HandoffId) returns (steps: seq<Step>)
    requires p in s.procs && s.procs[p] == AckClaiming(h)
    ensures Acknowledges(s, p, h, steps)
  {
    var t := Install(p, AckClaim);
    assert After(Apply(s, t), []) == Apply(s, t);
    AcknowledgesBefore(s, p, h, t, []);
    steps := [t] + [];
  }

  lemma FromAcking(s: State, p: Pid, h: HandoffId) returns (steps: seq<Step>)
    requires p in s.procs && s.procs[p] == Acking(h) && s.lock.None?
    requires h in s.w.receipts && Holds(s.w.store, s.w.receipts[h]) && s.w.receipts[h].binding == s.w.binding
    ensures Acknowledges(s, p, h, steps)
  {
    var t := Install(p, AckCheck);
    assert InstallEffect(s.w, s.procs[p], AckCheck) == To(s.w, AckClaiming(h));
    var rest := FromAckClaiming(Apply(s, t), p, h);
    AcknowledgesBefore(s, p, h, t, rest);
    steps := [t] + rest;
  }

  lemma FromReceipt(s: State, p: Pid, h: HandoffId) returns (steps: seq<Step>)
    requires p !in s.procs && s.lock.None?
    requires h in s.w.receipts && Holds(s.w.store, s.w.receipts[h]) && s.w.receipts[h].binding == s.w.binding
    ensures Acknowledges(s, p, h, steps)
  {
    var t := Launch(p, ResumeAck(h));
    var rest := FromAcking(Apply(s, t), p, h);
    AcknowledgesBefore(s, p, h, t, rest);
    steps := [t] + rest;
  }

  /** Whatever has run or died: a credential of the current assignment that is not acknowledged and has its
      receipt can be acknowledged by one new process. */
  lemma InstallCanBeAcknowledged(run: seq<Step>, p: Pid, id: string) returns (steps: seq<Step>)
    requires IsRun(INITIAL, run)
    requires var s := After(INITIAL, run);
             && p !in s.procs && s.lock.None? && id in s.w.store && s.w.store[id].binding == s.w.binding
             && s.w.store[id].connectedAt in s.w.origin && Accounted(s.w, id)
    ensures var w := After(INITIAL, run).w;
            var h := w.origin[w.store[id].connectedAt];
            h in w.acked || Acknowledges(After(INITIAL, run), p, h, steps)
  {
    InitialInv();
    RunKeeps(INITIAL, run);
    var s := After(INITIAL, run);
    var h := s.w.origin[s.w.store[id].connectedAt];
    steps := [];
    if h !in s.w.acked {
      assert s.w.store[id].connection == id;
      steps := FromReceipt(s, p, h);
    }
  }
}
