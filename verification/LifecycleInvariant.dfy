/** What every step of the account lifecycle keeps. */
module LifecycleInvariant {
  import opened Text
  import opened AccountStore
  import opened Lifecycle

  // ---------------------------------------------------------------- the invariant

  ghost predicate StoreOk(w: World) {
    ValidAccounts(w.store) && forall id | id in w.store :: id in w.issued && w.store[id].connectedAt in w.origin
  }

  /** The credential that the intent was prepared for is not in the store. */
  predicate Gone(w: World, i: IntentId)
    requires i in w.intents
  {
    var t := w.intents[i];
    t.target !in w.store || w.store[t.target].connectedAt != t.generation.connectedAt
  }

  /** The handoff can still put a credential in the store; holder is the process that has the lock. */
  predicate Installing(w: World, holder: Option<Proc>, h: HandoffId) {
    || w.handoffMarker == Some(h)
    || (holder.Some? && (holder.value.Starting? || holder.value.Saving?) && holder.value.h == h)
  }

  /** Nothing in the system can bring the connection back. */
  ghost predicate Barred(w: World, holder: Option<Proc>, id: string) {
    && id !in w.store
    && id in w.issued
    && forall h | h in w.handoffs && Installing(w, holder, h) :: w.handoffs[h].target != id
  }

  ghost predicate HandoffsOk(w: World, holder: Option<Proc>) {
    && (forall h | h in w.handoffs :: w.handoffs[h].target in w.issued)
    && (w.handoffMarker.Some? ==> w.handoffMarker.value in w.handoffs)
    && w.receipts.Keys <= w.handoffs.Keys
    && w.cancelled <= w.handoffs.Keys
    && forall h | h in w.cancelled :: !Installing(w, holder, h)
  }

  predicate IsPast(t: Status) {
    t != Created && t != Active
  }

  ghost predicate IntentOk(w: World, holder: Option<Proc>, i: IntentId)
    requires i in w.intents
  {
    var t := w.intents[i];
    && t.generation.connection == t.target
    && t.target in w.issued
    && t.generation.connectedAt in w.origin
    && (t.claimed ==> IsPast(t.status))
    && (t.status == Disconnected || ReceiptOf(w.dirs, i) == Some(CompletionPending) ==> t.claimed && Gone(w, i))
    && (i in w.deleted ==> t.claimed && Barred(w, holder, t.target))
  }

  ghost predicate IntentsOk(w: World, holder: Option<Proc>) {
    && w.deleted <= w.intents.Keys
    && w.dirs.Keys <= w.intents.Keys
    && forall i | i in w.intents :: IntentOk(w, holder, i)
  }

  ghost predicate WorldOk(w: World, holder: Option<Proc>) {
    StoreOk(w) && HandoffsOk(w, holder) && IntentsOk(w, holder)
  }

  predicate ProcOk(w: World, q: Proc) {
    if IsHandoffProc(q) then q.h in w.handoffs
    else if q.Refreshing? then true
    else q.i in w.intents && (q.Completing? ==> w.intents[q.i].claimed && Gone(w, q.i))
  }

  /** No credential and no intent carries the connection time. */
  ghost predicate Unused(w: World, stamp: nat) {
    && (forall id | id in w.store :: w.store[id].connectedAt != stamp)
    && forall i | i in w.intents :: w.intents[i].generation.connectedAt != stamp
  }

  /** The intent's marker is there, and the store holds its credential exactly if present; its assignment
      was the platform's when the section matched. */
  predicate Aimed(w: World, i: IntentId, present: bool)
    requires i in w.intents
  {
    var t := w.intents[i];
    && w.disconnectMarker == Some(i)
    && (present <==> t.target in w.store)
    && (present ==> DisconnectGeneration(w.store[t.target]) == t.generation
                    && i in w.aimed && w.store[t.target].binding == w.aimed[i])
  }

  /** What the holder of the lock has established. */
  ghost predicate HolderOk(w: World, q: Proc)
    requires ProcOk(w, q)
  {
    match q
    case Starting(_, cleared) => cleared ==> w.disconnectMarker.None?
    case Saving(h, c) =>
      && InstallAllowed(w.store, w.handoffs[h], c)
      && h in w.receipts && w.receipts[h] == InstallGeneration(c)
      && c.connectedAt in w.origin && w.origin[c.connectedAt] == h
      && Unused(w, c.connectedAt)
    case AckClaiming(h) => h in w.receipts && Holds(w.store, w.receipts[h])
    case AckRetiring(h) => h in w.acked && h in w.receipts
    case AckUnmarking(h) => h in w.acked
    case Matched(i, present) => Aimed(w, i, present)
    case Recorded(i, present) => Aimed(w, i, present) && i in w.recorded
    case Claimed(i, present) => Aimed(w, i, present) && i in w.recorded && w.intents[i].claimed
    case Cancelled(i) => Aimed(w, i, true) && i in w.recorded && w.intents[i].claimed && w.handoffMarker.None?
    case Removed(i) => w.intents[i].claimed && Gone(w, i)
    case Promoted(i) => w.intents[i].claimed && Gone(w, i)
    case Reclaimed(i) => w.intents[i].claimed
    case Resumed(i) => w.intents[i].claimed && Gone(w, i)
    case _ => true
  }

  /** The process that has the lock. */
  function Holder(s: State): Option<Proc> {
    if s.lock.Some? && s.lock.value in s.procs then Some(s.procs[s.lock.value]) else None
  }

  ghost predicate Locking(s: State) {
    && (forall p | p in s.procs :: HoldsLock(s.procs[p]) <==> s.lock == Some(p))
    && (s.lock.Some? ==> s.lock.value in s.procs)
  }

  ghost predicate ProcsOk(s: State) {
    forall p | p in s.procs :: ProcOk(s.w, s.procs[p])
  }

  ghost predicate Inv(s: State) {
    Locking(s) && ProcsOk(s) && WorldOk(s.w, Holder(s)) && (Holder(s).Some? ==> HolderOk(s.w, Holder(s).value))
  }

  lemma InitialInv()
    ensures Inv(INITIAL)
  {
  }

  // ---------------------------------------------------------------- what only ever grows

  ghost predicate IntentGrows(v: World, w: World, i: IntentId)
    requires i in v.intents
  {
    && i in w.intents
    && w.intents[i].target == v.intents[i].target
    && w.intents[i].generation == v.intents[i].generation
    && (v.intents[i].claimed ==> w.intents[i].claimed)
    && (IsPast(v.intents[i].status) ==> IsPast(w.intents[i].status))
    && (IsTerminal(v.intents[i].status) ==> w.intents[i].status == v.intents[i].status)
    && (Gone(v, i) ==> Gone(w, i))
  }

  ghost predicate Grows(v: World, w: World) {
    && (forall i | i in v.intents :: IntentGrows(v, w, i))
    && (forall h | h in v.handoffs :: h in w.handoffs && w.handoffs[h] == v.handoffs[h])
    && v.acked <= w.acked
    && v.deleted <= w.deleted
    && v.cancelled <= w.cancelled
  }

  /** The step leaves alone everything that a holder of the lock relies on. */
  ghost predicate Quiet(v: World, w: World) {
    && w.store == v.store && w.handoffMarker == v.handoffMarker && w.disconnectMarker == v.disconnectMarker
    && w.receipts == v.receipts && w.handoffs == v.handoffs && w.origin == v.origin && w.issued == v.issued
    && w.aimed == v.aimed && w.recorded == v.recorded && w.acked == v.acked && w.deleted == v.deleted
    && w.cancelled == v.cancelled
    && w.intents.Keys == v.intents.Keys
    && (forall i | i in v.intents :: w.intents[i].(status := v.intents[i].status) == v.intents[i])
  }

  lemma QuietHolder(v: World, w: World, q: Proc)
    requires Quiet(v, w) && ProcOk(v, q) && HolderOk(v, q)
    ensures ProcOk(w, q) && HolderOk(w, q)
  {
  }

  lemma GrowsProc(v: World, w: World, q: Proc)
    requires Grows(v, w) && ProcOk(v, q)
    ensures ProcOk(w, q)
  {
  }

  /** The holder after a step of a process at q that goes to next. */
  function NextHolder(holder: Option<Proc>, q: Option<Proc>, next: Option<Proc>): Option<Proc> {
    if next.Some? && HoldsLock(next.value) then next
    else if q.Some? && HoldsLock(q.value) then None
    else holder
  }

  /** What is known of a process, and of the holder, when the process takes a step. */
  ghost predicate Placed(w: World, holder: Option<Proc>, q: Proc, locks: bool) {
    ProcOk(w, q) && if HoldsLock(q) then holder == Some(q) && HolderOk(w, q) else locks ==> holder.None?
  }

  // ---------------------------------------------------------------- one intent

  lemma EnvGrowsIntent(w: World, e: EnvStep, i: IntentId)
    requires EnvReady(w, e) && i in w.intents
    ensures IntentGrows(w, AfterEnv(w, e), i)
  {
  }

  lemma EnvIntent(w: World, holder: Option<Proc>, e: EnvStep, i: IntentId)
    requires EnvReady(w, e) && i in w.intents && IntentOk(w, holder, i)
    ensures IntentGrows(w, AfterEnv(w, e), i) && IntentOk(AfterEnv(w, e), holder, i)
  {
    EnvGrowsIntent(w, e, i);
  }

  lemma LaunchIntent(w: World, holder: Option<Proc>, l: LaunchStep, i: IntentId)
    requires LaunchReady(w, l) && (LaunchLocks(l) ==> holder.None?) && i in w.intents && IntentOk(w, holder, i)
    ensures var f := LaunchEffect(w, l);
            IntentGrows(w, f.w, i) && IntentOk(f.w, NextHolder(holder, None, f.next), i)
  {
  }

  /** The steps of acknowledging an install receipt. */
  predicate Acknowledges(x: InstallStep) {
    x.AckCheck? || x.AckClaim? || x.AckClaimFails? || x.AckRetire? || x.AckUnmark? || x.Notice?
  }

  /** What no step of a handoff touches. */
  predicate SameElsewhere(v: World, w: World) {
    && w.handoffs == v.handoffs && w.intents == v.intents && w.dirs == v.dirs && w.issued == v.issued
    && w.deleted == v.deleted && w.cancelled == v.cancelled
  }

  lemma InstallGrowsIntent(w: World, holder: Option<Proc>, q: Proc, x: InstallStep, i: IntentId)
    requires InstallReady(w, q, x) && Placed(w, holder, q, InstallLocks(x)) && i in w.intents
    ensures IntentGrows(w, InstallEffect(w, q, x).w, i)
  {
    InstallFrame(w, q, x);
    if !x.Save? {
      InstallKeepsStore(w, q, x);
    }
  }

  lemma InstallBarred(w: World, holder: Option<Proc>, q: Proc, x: InstallStep, id: string)
    requires InstallReady(w, q, x) && Placed(w, holder, q, InstallLocks(x)) && Barred(w, holder, id)
    ensures var f := InstallEffect(w, q, x); Barred(f.w, NextHolder(holder, Some(q), f.next), id)
  {
    var f := InstallEffect(w, q, x);
    InstallFrame(w, q, x);
    if !x.Save? {
      InstallKeepsStore(w, q, x);
    } else {
      assert Installing(w, holder, q.h);
    }
    forall h | h in f.w.handoffs && Installing(f.w, NextHolder(holder, Some(q), f.next), h)
      ensures f.w.handoffs[h].target != id
    {
      InstallInstalling(w, holder, q, x, h);
    }
  }

  lemma InstallStamps(w: World, q: Proc, x: InstallStep)
    requires InstallReady(w, q, x)
    ensures w.origin.Keys <= InstallEffect(w, q, x).w.origin.Keys
  {
  }

  lemma AckCheckFrame(w: World, h: HandoffId)
    ensures SameElsewhere(w, AckCheckEffect(w, h).w)
  {
    if h !in w.receipts {
    } else if !Holds(w.store, w.receipts[h]) {
    } else if w.receipts[h].binding == w.binding {
    } else {
    }
  }

  lemma AckFrame(w: World, q: Proc, x: InstallStep)
    requires InstallReady(w, q, x) && Acknowledges(x)
    ensures SameElsewhere(w, InstallEffect(w, q, x).w)
  {
    match x
    case AckCheck => AckCheckFrame(w, q.h);
    case AckClaim =>
    case AckClaimFails(_) =>
    case AckRetire =>
    case AckUnmark =>
    case Notice =>
  }

  lemma InstallElsewhere(w: World, q: Proc, x: InstallStep)
    requires InstallReady(w, q, x)
    ensures SameElsewhere(w, InstallEffect(w, q, x).w)
  {
    if Acknowledges(x) {
      AckFrame(w, q, x);
    }
  }

  lemma InstallSharedMarks(w: World, q: Proc, x: InstallStep)
    requires InstallReady(w, q, x)
    ensures var z := InstallEffect(w, q, x).w;
            && z.receipts.Keys <= w.receipts.Keys + {q.h}
            && (z.handoffMarker.None? || z.handoffMarker == w.handoffMarker || z.handoffMarker == Some(q.h))
  {
    match x
    case ClearDisconnect =>
    case ActivateHandoff =>
    case Begin(_) =>
    case Save =>
    case SaveFails =>
    case PromoteInstall(_) =>
    case Leave =>
    case AckCheck =>
      if q.h !in w.receipts {
      } else if !Holds(w.store, w.receipts[q.h]) {
      } else if w.receipts[q.h].binding == w.binding {
      } else {
      }
    case AckClaim =>
    case AckClaimFails(_) =>
    case AckRetire =>
    case AckUnmark =>
    case Notice =>
  }

  lemma InstallFrame(w: World, q: Proc, x: InstallStep)
    requires InstallReady(w, q, x)
    ensures var z := InstallEffect(w, q, x).w;
            && SameElsewhere(w, z)
            && z.receipts.Keys <= w.receipts.Keys + {q.h}
            && (z.handoffMarker.None? || z.handoffMarker == w.handoffMarker || z.handoffMarker == Some(q.h))
  {
    InstallElsewhere(w, q, x);
    InstallSharedMarks(w, q, x);
  }

  lemma InstallIntent(w: World, holder: Option<Proc>, q: Proc, x: InstallStep, i: IntentId)
    requires InstallReady(w, q, x) && Placed(w, holder, q, InstallLocks(x)) && i in w.intents && IntentOk(w, holder, i)
    ensures var f := InstallEffect(w, q, x);
            i in f.w.intents && IntentOk(f.w, NextHolder(holder, Some(q), f.next), i)
  {
    InstallFrame(w, q, x);
    InstallGrowsIntent(w, holder, q, x, i);
    InstallStamps(w, q, x);
    if i in w.deleted {
      InstallBarred(w, holder, q, x, w.intents[i].target);
    }
  }

  lemma RefreshIntent(w: World, holder: Option<Proc>, q: Proc, r: RefreshStep, i: IntentId)
    requires RefreshReady(w, q, r) && Placed(w, holder, q, true) && i in w.intents && IntentOk(w, holder, i)
    ensures IntentGrows(w, RefreshEffect(w, q, r).w, i) && IntentOk(RefreshEffect(w, q, r).w, holder, i)
  {
  }

  // ---------------------------------------------------------------- the store and the handoffs

  lemma EnvShared(w: World, holder: Option<Proc>, e: EnvStep)
    requires EnvReady(w, e) && StoreOk(w) && HandoffsOk(w, holder)
    ensures StoreOk(AfterEnv(w, e)) && HandoffsOk(AfterEnv(w, e), holder)
  {
  }

  lemma LaunchShared(w: World, holder: Option<Proc>, l: LaunchStep)
    requires LaunchReady(w, l) && (LaunchLocks(l) ==> holder.None?) && StoreOk(w) && HandoffsOk(w, holder)
    ensures var f := LaunchEffect(w, l); StoreOk(f.w) && HandoffsOk(f.w, NextHolder(holder, None, f.next))
  {
  }

  lemma InstallKeepsStore(w: World, q: Proc, x: InstallStep)
    requires InstallReady(w, q, x) && !x.Save?
    ensures var z := InstallEffect(w, q, x).w; (z.store == w.store || z.store == map[]) && z.issued == w.issued
  {
    match x
    case ClearDisconnect =>
    case ActivateHandoff =>
    case Begin(_) =>
    case Save =>
    case SaveFails =>
    case PromoteInstall(_) =>
    case Leave =>
    case AckCheck =>
      if q.h !in w.receipts {
      } else if !Holds(w.store, w.receipts[q.h]) {
      } else if w.receipts[q.h].binding == w.binding {
      } else {
      }
    case AckClaim =>
    case AckClaimFails(_) =>
    case AckRetire =>
    case AckUnmark =>
    case Notice =>
  }

  lemma InstallStore(w: World, holder: Option<Proc>, q: Proc, x: InstallStep)
    requires InstallReady(w, q, x) && Placed(w, holder, q, InstallLocks(x)) && StoreOk(w) && HandoffsOk(w, holder)
    ensures StoreOk(InstallEffect(w, q, x).w)
  {
    if x.Save? {
      GuardsSuffice(w.store, if w.handoffs[q.h].adds then Add(q.c) else Replace(q.c.connection, q.c));
    } else {
      InstallKeepsStore(w, q, x);
      InstallStamps(w, q, x);
    }
  }

  lemma InstallInstalling(w: World, holder: Option<Proc>, q: Proc, x: InstallStep, h: HandoffId)
    requires InstallReady(w, q, x) && Placed(w, holder, q, InstallLocks(x))
    ensures var f := InstallEffect(w, q, x);
            Installing(f.w, NextHolder(holder, Some(q), f.next), h) ==> Installing(w, holder, h)
  {
    match x
    case ClearDisconnect =>
    case ActivateHandoff =>
    case Begin(_) =>
    case Save =>
    case SaveFails =>
    case PromoteInstall(_) =>
    case Leave =>
    case AckCheck =>
      if q.h !in w.receipts {
      } else if !Holds(w.store, w.receipts[q.h]) {
      } else if w.receipts[q.h].binding == w.binding {
      } else {
      }
    case AckClaim =>
    case AckClaimFails(_) =>
    case AckRetire =>
    case AckUnmark =>
    case Notice =>
  }

  lemma InstallHandoffs(w: World, holder: Option<Proc>, q: Proc, x: InstallStep)
    requires InstallReady(w, q, x) && Placed(w, holder, q, InstallLocks(x)) && HandoffsOk(w, holder)
    ensures var f := InstallEffect(w, q, x); HandoffsOk(f.w, NextHolder(holder, Some(q), f.next))
  {
    var f := InstallEffect(w, q, x);
    InstallFrame(w, q, x);
    forall h | h in f.w.cancelled ensures !Installing(f.w, NextHolder(holder, Some(q), f.next), h) {
      InstallInstalling(w, holder, q, x, h);
    }
  }

  lemma RefreshShared(w: World, holder: Option<Proc>, q: Proc, r: RefreshStep)
    requires RefreshReady(w, q, r) && StoreOk(w) && HandoffsOk(w, holder)
    ensures StoreOk(RefreshEffect(w, q, r).w) && HandoffsOk(RefreshEffect(w, q, r).w, holder)
  {
  }

  // ---------------------------------------------------------------- the process that moves, and the holder

  lemma EnvQuiet(w: World, e: EnvStep)
    requires EnvReady(w, e) && !EnvLocks(e)
    ensures Quiet(w, AfterEnv(w, e))
  {
  }

  lemma LaunchNext(w: World, l: LaunchStep)
    requires LaunchReady(w, l) && w.receipts.Keys <= w.handoffs.Keys
    ensures var f := LaunchEffect(w, l);
            && ProcOk(f.w, f.next.value) && (HoldsLock(f.next.value) <==> LaunchLocks(l))
            && if LaunchLocks(l) then HolderOk(f.w, f.next.value) else Quiet(w, f.w)
  {
  }

  lemma InstallNext(w: World, holder: Option<Proc>, q: Proc, x: InstallStep)
    requires InstallReady(w, q, x) && Placed(w, holder, q, InstallLocks(x))
    ensures var f := InstallEffect(w, q, x);
            && (f.next.Some? ==> ProcOk(f.w, f.next.value))
            && (f.next.Some? && HoldsLock(f.next.value) ==> HoldsLock(q) || InstallLocks(x))
            && (!HoldsLock(q) && !InstallLocks(x) ==> Quiet(w, f.w))
  {
    match x
    case ClearDisconnect =>
    case ActivateHandoff =>
    case Begin(_) =>
    case Save =>
    case SaveFails =>
    case PromoteInstall(_) =>
    case Leave =>
    case AckCheck =>
      if q.h !in w.receipts {
      } else if !Holds(w.store, w.receipts[q.h]) {
      } else if w.receipts[q.h].binding == w.binding {
      } else {
      }
    case AckClaim =>
    case AckClaimFails(_) =>
    case AckRetire =>
    case AckUnmark =>
    case Notice =>
  }

  lemma InstallHolder(w: World, holder: Option<Proc>, q: Proc, x: InstallStep)
    requires InstallReady(w, q, x) && Placed(w, holder, q, InstallLocks(x)) && StoreOk(w) && IntentsOk(w, holder)
    ensures var f := InstallEffect(w, q, x);
            f.next.Some? && HoldsLock(f.next.value) && ProcOk(f.w, f.next.value) ==> HolderOk(f.w, f.next.value)
  {
    if x.Begin? {
      forall i | i in w.intents ensures w.intents[i].generation.connectedAt != x.c.connectedAt {
        assert IntentOk(w, holder, i);
      }
    }
  }

  // ---------------------------------------------------------------- the writes of a disconnect

  /** When a write of an intent's process is in order. */
  ghost predicate WriteOk(w: World, i: IntentId, x: Write)
    requires i in w.intents
  {
    var t := w.intents[i];
    && (x == PutReceipt(CompletionPending) || x == Settle(Disconnected) ==> t.claimed && Gone(w, i))
    && (x.Settle? ==> IsPast(x.t) && (IsTerminal(t.status) ==> x.t == t.status))
    && (x.DropCredential? ==> t.claimed && t.target in w.store && w.handoffMarker.None?)
  }

  /** The writes that may come without the lock. */
  predicate NeedsNoLock(x: Write) {
    x.Nothing? || x.Settle? || x == PutReceipt(ExpiredPending) || x.DropDir?
  }

  ghost predicate PlanOk(w: World, holder: Option<Proc>, q: Proc, d: DisconnectStep)
    requires DisconnectReady(w, q, d)
  {
    var write := DisconnectPlan(w, q, d).write;
    && WriteOk(w, q.i, write)
    && (NeedsNoLock(write) || HoldsLock(q) || DisconnectLocks(d))
    && (write.DropCredential? ==> holder == Some(q))
  }

  lemma DeletionInOrder(w: World, holder: Option<Proc>, q: Proc, d: DisconnectStep)
    requires DisconnectReady(w, q, d) && Placed(w, holder, q, DisconnectLocks(d)) && IsDeletion(d)
    ensures PlanOk(w, holder, q, d)
  {
    match d
    case DeleteBegin =>
    case Record =>
    case ClaimDeletion =>
    case ClaimLost(_) =>
    case CancelHandoffs =>
    case RemoveCredential =>
    case DeleteFails =>
    case Promote(_) =>
    case FinishDelete(_) =>
  }

  lemma PlanInOrder(w: World, holder: Option<Proc>, q: Proc, d: DisconnectStep)
    requires DisconnectReady(w, q, d) && Placed(w, holder, q, DisconnectLocks(d))
    ensures PlanOk(w, holder, q, d)
  {
    if IsDeletion(d) {
      DeletionInOrder(w, holder, q, d);
    }
  }

  predicate NextInOrder(q: Proc, d: DisconnectStep, next: Option<Proc>)
    requires IsDisconnectProc(q)
  {
    next.Some? ==>
      && IsDisconnectProc(next.value) && next.value.i == q.i
      && (HoldsLock(next.value) ==> HoldsLock(q) || DisconnectLocks(d))
  }

  lemma DeletionNext(w: World, q: Proc, d: DisconnectStep)
    requires DisconnectReady(w, q, d) && IsDeletion(d)
    ensures NextInOrder(q, d, DisconnectPlan(w, q, d).next)
  {
  }

  lemma ResumeNext(w: World, q: Proc, d: DisconnectStep)
    requires DisconnectReady(w, q, d) && (d.ResumeClaim? || d.ResumeCheck? || d.Load? || d.ExpireCheck?)
    ensures NextInOrder(q, d, DisconnectPlan(w, q, d).next)
  {
  }

  lemma PlanNext(w: World, q: Proc, d: DisconnectStep)
    requires DisconnectReady(w, q, d)
    ensures NextInOrder(q, d, DisconnectPlan(w, q, d).next)
  {
    if IsDeletion(d) {
      DeletionNext(w, q, d);
    } else if d.ResumeClaim? || d.ResumeCheck? || d.Load? || d.ExpireCheck? {
      ResumeNext(w, q, d);
    }
  }

  lemma WriteGrows(w: World, i: IntentId, x: Write, j: IntentId)
    requires i in w.intents && j in w.intents && WriteOk(w, i, x)
    ensures IntentGrows(w, AfterWrite(w, i, x), j)
  {
  }

  lemma WriteQuiet(w: World, i: IntentId, x: Write)
    requires i in w.intents && NeedsNoLock(x)
    ensures Quiet(w, AfterWrite(w, i, x))
  {
  }

  /** A disconnect takes at most its own credential out of the store, and starts no handoff. */
  lemma WriteFrame(w: World, i: IntentId, x: Write)
    requires i in w.intents
    ensures var z := AfterWrite(w, i, x);
            && z.handoffs == w.handoffs && z.origin == w.origin && z.issued == w.issued && z.receipts == w.receipts
            && z.store == (if x.DropCredential? then w.store - {w.intents[i].target} else w.store)
            && (z.handoffMarker.None? || z.handoffMarker == w.handoffMarker)
  {
  }

  lemma WriteHistory(w: World, i: IntentId, x: Write)
    requires i in w.intents
    ensures var z := AfterWrite(w, i, x);
            && z.deleted == (if x.DropCredential? then w.deleted + {i} else w.deleted)
            && z.cancelled == (if x.DropCredential? then w.cancelled + w.handoffs.Keys else w.cancelled)
  {
  }

  lemma WriteKeys(w: World, i: IntentId, x: Write)
    requires i in w.intents
    ensures var z := AfterWrite(w, i, x); z.intents.Keys == w.intents.Keys && z.dirs.Keys <= w.dirs.Keys + {i}
  {
  }

  lemma PlanShared(w: World, holder: Option<Proc>, q: Proc, plan: Plan)
    requires StoreOk(w) && HandoffsOk(w, holder)
    requires IsDisconnectProc(q) && q.i in w.intents && WriteOk(w, q.i, plan.write)
    requires plan.next.Some? ==> IsDisconnectProc(plan.next.value)
    requires plan.write.DropCredential? ==> holder == Some(q)
    ensures var z, next := AfterWrite(w, q.i, plan.write), NextHolder(holder, Some(q), plan.next);
            StoreOk(z) && HandoffsOk(z, next)
  {
    WriteFrame(w, q.i, plan.write);
    WriteHistory(w, q.i, plan.write);
  }

  lemma PlanBarred(w: World, holder: Option<Proc>, q: Proc, plan: Plan, id: string)
    requires IsDisconnectProc(q) && q.i in w.intents
    requires plan.next.Some? ==> IsDisconnectProc(plan.next.value)
    requires Barred(w, holder, id)
    ensures Barred(AfterWrite(w, q.i, plan.write), NextHolder(holder, Some(q), plan.next), id)
  {
    WriteFrame(w, q.i, plan.write);
  }

  /** Where a completion_pending receipt, the disconnected status and a claim come from. */
  lemma WriteOutcome(w: World, holder: Option<Proc>, i: IntentId, x: Write, j: IntentId)
    requires i in w.intents && j in w.intents && WriteOk(w, i, x) && IntentOk(w, holder, j)
    ensures var z := AfterWrite(w, i, x);
            && j in z.intents
            && (z.intents[j].claimed ==> IsPast(z.intents[j].status))
            && (z.intents[j].status == Disconnected || ReceiptOf(z.dirs, j) == Some(CompletionPending)
                ==> z.intents[j].claimed && Gone(z, j))
  {
    WriteGrows(w, i, x, j);
  }

  lemma PlanIntent(w: World, holder: Option<Proc>, q: Proc, plan: Plan, j: IntentId)
    requires IsDisconnectProc(q) && q.i in w.intents && WriteOk(w, q.i, plan.write)
    requires plan.next.Some? ==> IsDisconnectProc(plan.next.value)
    requires plan.write.DropCredential? ==> holder == Some(q)
    requires j in w.intents && IntentOk(w, holder, q.i) && IntentOk(w, holder, j)
    ensures j in AfterWrite(w, q.i, plan.write).intents
    ensures IntentOk(AfterWrite(w, q.i, plan.write), NextHolder(holder, Some(q), plan.next), j)
  {
    WriteGrows(w, q.i, plan.write, j);
    WriteFrame(w, q.i, plan.write);
    WriteHistory(w, q.i, plan.write);
    WriteOutcome(w, holder, q.i, plan.write, j);
    if j in w.deleted {
      PlanBarred(w, holder, q, plan, w.intents[j].target);
    }
  }

  /** A worker starts to complete only what is claimed and gone. */
  lemma CompletesGone(w: World, holder: Option<Proc>, q: Proc, d: DisconnectStep)
    requires DisconnectReady(w, q, d) && Placed(w, holder, q, DisconnectLocks(d)) && IntentOk(w, holder, q.i)
    requires DisconnectPlan(w, q, d).next == Some(Completing(q.i))
    ensures w.intents[q.i].claimed && Gone(w, q.i)
  {
  }

  lemma DisconnectNext(w: World, holder: Option<Proc>, q: Proc, d: DisconnectStep)
    requires DisconnectReady(w, q, d) && Placed(w, holder, q, DisconnectLocks(d)) && IntentOk(w, holder, q.i)
    ensures var f := DisconnectEffect(w, q, d); f.next.Some? ==> ProcOk(f.w, f.next.value)
  {
    var plan := DisconnectPlan(w, q, d);
    PlanInOrder(w, holder, q, d);
    PlanNext(w, q, d);
    WriteGrows(w, q.i, plan.write, q.i);
    if plan.next == Some(Completing(q.i)) {
      CompletesGone(w, holder, q, d);
    }
  }

  /** The steps of deleting a confirmed disconnect's credential. */
  predicate IsDeletion(d: DisconnectStep) {
    d.DeleteBegin? || d.Record? || d.ClaimDeletion? || d.ClaimLost? || d.CancelHandoffs? || d.RemoveCredential?
    || d.DeleteFails? || d.Promote? || d.FinishDelete?
  }

  /** If the worker has the lock after the step, then what it relies on there is established. */
  ghost predicate HolderNextOk(w: World, q: Proc, d: DisconnectStep)
    requires DisconnectReady(w, q, d)
  {
    var f := DisconnectEffect(w, q, d);
    f.next.Some? && HoldsLock(f.next.value) && ProcOk(f.w, f.next.value) ==> HolderOk(f.w, f.next.value)
  }

  lemma BeginHolder(w: World, q: Proc)
    requires DisconnectReady(w, q, DeleteBegin)
    ensures HolderNextOk(w, q, DeleteBegin)
  {
    var i, t := q.i, w.intents[q.i];
    if w.disconnectMarker != Some(i) {
    } else if t.target !in w.store {
      assert DisconnectPlan(w, q, DeleteBegin) == GoOn(Matched(i, false));
    } else if !Targeted(w, i) {
    } else {
      assert DisconnectPlan(w, q, DeleteBegin) == Plan(Aim, Some(Matched(i, true)));
      assert Aimed(AfterWrite(w, i, Aim), i, true);
    }
  }

  lemma RecordHolder(w: World, q: Proc)
    requires DisconnectReady(w, q, Record) && HolderOk(w, q)
    ensures HolderNextOk(w, q, Record)
  {
  }

  lemma ClaimHolder(w: World, q: Proc)
    requires DisconnectReady(w, q, ClaimDeletion) && HolderOk(w, q)
    ensures HolderNextOk(w, q, ClaimDeletion)
  {
  }

  lemma CancelHolder(w: World, q: Proc)
    requires DisconnectReady(w, q, CancelHandoffs) && HolderOk(w, q)
    ensures HolderNextOk(w, q, CancelHandoffs)
  {
  }

  lemma RemoveHolder(w: World, q: Proc)
    requires DisconnectReady(w, q, RemoveCredential) && HolderOk(w, q)
    ensures HolderNextOk(w, q, RemoveCredential)
  {
  }

  lemma PromoteHolder(w: World, q: Proc, ok: bool)
    requires DisconnectReady(w, q, Promote(ok)) && HolderOk(w, q)
    ensures HolderNextOk(w, q, Promote(ok))
  {
  }

  lemma ReclaimHolder(w: World, q: Proc)
    requires DisconnectReady(w, q, ResumeClaim)
    ensures HolderNextOk(w, q, ResumeClaim)
  {
  }

  lemma ResumeHolder(w: World, q: Proc)
    requires DisconnectReady(w, q, ResumeCheck) && HolderOk(w, q)
    ensures HolderNextOk(w, q, ResumeCheck)
  {
    var i := q.i;
    if w.intents[i].target in w.store {
    } else if MayWrite(ReceiptOf(w.dirs, i), CompletionPending) {
      var z := AfterWrite(w, i, PutReceipt(CompletionPending));
      assert z.intents == w.intents && z.store == w.store;
      assert DisconnectPlan(w, q, ResumeCheck) == Plan(PutReceipt(CompletionPending), Some(Resumed(i)));
    } else {
    }
  }

  predicate TakesOn(d: DisconnectStep) {
    d.DeleteBegin? || d.Record? || d.ClaimDeletion? || d.CancelHandoffs? || d.RemoveCredential? || d.Promote?
    || d.ResumeClaim? || d.ResumeCheck?
  }

  /** After every other step the worker is without the lock. */
  lemma FreeAfter(w: World, q: Proc, d: DisconnectStep)
    requires DisconnectReady(w, q, d) && !TakesOn(d)
    ensures var next := DisconnectPlan(w, q, d).next; next.Some? ==> !HoldsLock(next.value)
  {
  }

  lemma DisconnectHolder(w: World, holder: Option<Proc>, q: Proc, d: DisconnectStep)
    requires DisconnectReady(w, q, d) && Placed(w, holder, q, DisconnectLocks(d)) && IntentOk(w, holder, q.i)
    ensures HolderNextOk(w, q, d)
  {
    if !TakesOn(d) {
      FreeAfter(w, q, d);
    } else if d.DeleteBegin? {
      BeginHolder(w, q);
    } else if d.Record? {
      RecordHolder(w, q);
    } else if d.ClaimDeletion? {
      ClaimHolder(w, q);
    } else if d.CancelHandoffs? {
      CancelHolder(w, q);
    } else if d.RemoveCredential? {
      RemoveHolder(w, q);
    } else if d.Promote? {
      PromoteHolder(w, q, d.ok);
    } else if d.ResumeClaim? {
      ReclaimHolder(w, q);
    } else {
      ResumeHolder(w, q);
    }
  }

  // ---------------------------------------------------------------- a whole step grows, and keeps the world in order

  /** Everything but the single intents. */
  ghost predicate RestGrows(v: World, w: World) {
    && (forall h | h in v.handoffs :: h in w.handoffs && w.handoffs[h] == v.handoffs[h])
    && v.acked <= w.acked && v.deleted <= w.deleted && v.cancelled <= w.cancelled
  }

  lemma EnvRest(w: World, e: EnvStep)
    requires EnvReady(w, e)
    ensures var z := AfterEnv(w, e);
            && RestGrows(w, z) && z.deleted == w.deleted
            && z.intents.Keys == w.intents.Keys && z.dirs.Keys <= w.dirs.Keys
  {
  }

  lemma LaunchRest(w: World, l: LaunchStep)
    requires LaunchReady(w, l)
    ensures var z := LaunchEffect(w, l).w;
            && RestGrows(w, z) && z.deleted == w.deleted
            && z.intents.Keys == (if l.Prepare? then w.intents.Keys + {l.i} else w.intents.Keys)
            && z.dirs.Keys == (if l.Prepare? then w.dirs.Keys + {l.i} else w.dirs.Keys)
  {
  }

  lemma InstallRest(w: World, q: Proc, x: InstallStep)
    requires InstallReady(w, q, x) && q.h in w.handoffs
    ensures RestGrows(w, InstallEffect(w, q, x).w)
  {
    InstallFrame(w, q, x);
  }

  lemma RefreshRest(w: World, q: Proc, r: RefreshStep)
    requires RefreshReady(w, q, r)
    ensures var z := RefreshEffect(w, q, r).w;
            && RestGrows(w, z) && z.deleted == w.deleted && z.intents == w.intents && z.dirs == w.dirs
  {
  }

  lemma WriteRest(w: World, i: IntentId, x: Write)
    requires i in w.intents
    ensures RestGrows(w, AfterWrite(w, i, x))
  {
    WriteFrame(w, i, x);
    WriteHistory(w, i, x);
    assert AfterWrite(w, i, x).acked == w.acked;
  }

  lemma PrepareIntent(w: World, l: LaunchStep)
    requires LaunchReady(w, l) && l.Prepare? && StoreOk(w) && w.deleted <= w.intents.Keys
    ensures var f := LaunchEffect(w, l); IntentOk(f.w, f.next, l.i)
  {
  }

  lemma EnvKeeps(w: World, holder: Option<Proc>, e: EnvStep)
    requires WorldOk(w, holder) && EnvReady(w, e)
    ensures var z := AfterEnv(w, e); Grows(w, z) && WorldOk(z, holder)
  {
    EnvShared(w, holder, e);
    EnvRest(w, e);
    forall i | i in w.intents ensures IntentGrows(w, AfterEnv(w, e), i) && IntentOk(AfterEnv(w, e), holder, i) {
      EnvIntent(w, holder, e, i);
    }
  }

  lemma LaunchKeeps(w: World, holder: Option<Proc>, l: LaunchStep)
    requires WorldOk(w, holder) && LaunchReady(w, l) && (LaunchLocks(l) ==> holder.None?)
    ensures var f := LaunchEffect(w, l); Grows(w, f.w) && WorldOk(f.w, NextHolder(holder, None, f.next))
  {
    var f := LaunchEffect(w, l);
    LaunchShared(w, holder, l);
    LaunchRest(w, l);
    forall i | i in w.intents
      ensures IntentGrows(w, f.w, i) && IntentOk(f.w, NextHolder(holder, None, f.next), i)
    {
      LaunchIntent(w, holder, l, i);
    }
    if l.Prepare? {
      PrepareIntent(w, l);
    }
  }

  lemma InstallKeeps(w: World, holder: Option<Proc>, q: Proc, x: InstallStep)
    requires WorldOk(w, holder) && InstallReady(w, q, x) && Placed(w, holder, q, InstallLocks(x))
    ensures var f := InstallEffect(w, q, x); Grows(w, f.w) && WorldOk(f.w, NextHolder(holder, Some(q), f.next))
  {
    var f := InstallEffect(w, q, x);
    InstallStore(w, holder, q, x);
    InstallHandoffs(w, holder, q, x);
    InstallFrame(w, q, x);
    InstallRest(w, q, x);
    forall i | i in w.intents
      ensures IntentGrows(w, f.w, i) && IntentOk(f.w, NextHolder(holder, Some(q), f.next), i)
    {
      InstallGrowsIntent(w, holder, q, x, i);
      InstallIntent(w, holder, q, x, i);
    }
  }

  lemma RefreshKeeps(w: World, holder: Option<Proc>, q: Proc, r: RefreshStep)
    requires WorldOk(w, holder) && RefreshReady(w, q, r) && Placed(w, holder, q, true)
    ensures var f := RefreshEffect(w, q, r); Grows(w, f.w) && WorldOk(f.w, holder)
  {
    var f := RefreshEffect(w, q, r);
    RefreshShared(w, holder, q, r);
    RefreshRest(w, q, r);
    forall i | i in w.intents ensures IntentGrows(w, f.w, i) && IntentOk(f.w, holder, i) {
      RefreshIntent(w, holder, q, r, i);
    }
  }

  lemma DisconnectIntents(w: World, holder: Option<Proc>, q: Proc, d: DisconnectStep)
    requires IntentsOk(w, holder) && DisconnectReady(w, q, d) && Placed(w, holder, q, DisconnectLocks(d))
    ensures var f := DisconnectEffect(w, q, d);
            forall i | i in w.intents ::
              IntentGrows(w, f.w, i) && IntentOk(f.w, NextHolder(holder, Some(q), f.next), i)
  {
    var plan := DisconnectPlan(w, q, d);
    PlanInOrder(w, holder, q, d);
    PlanNext(w, q, d);
    forall i | i in w.intents
      ensures var f := DisconnectEffect(w, q, d);
              IntentGrows(w, f.w, i) && IntentOk(f.w, NextHolder(holder, Some(q), f.next), i)
    {
      WriteGrows(w, q.i, plan.write, i);
      PlanIntent(w, holder, q, plan, i);
    }
  }

  lemma DisconnectKeys(w: World, q: Proc, d: DisconnectStep)
    requires w.deleted <= w.intents.Keys && w.dirs.Keys <= w.intents.Keys && DisconnectReady(w, q, d)
    ensures var z := DisconnectEffect(w, q, d).w;
            && z.intents.Keys == w.intents.Keys && z.deleted <= z.intents.Keys && z.dirs.Keys <= z.intents.Keys
            && RestGrows(w, z)
  {
    var plan := DisconnectPlan(w, q, d);
    WriteRest(w, q.i, plan.write);
    WriteKeys(w, q.i, plan.write);
    WriteHistory(w, q.i, plan.write);
  }

  lemma DisconnectKeeps(w: World, holder: Option<Proc>, q: Proc, d: DisconnectStep)
    requires WorldOk(w, holder) && DisconnectReady(w, q, d) && Placed(w, holder, q, DisconnectLocks(d))
    ensures var f := DisconnectEffect(w, q, d); Grows(w, f.w) && WorldOk(f.w, NextHolder(holder, Some(q), f.next))
  {
    DisconnectIntents(w, holder, q, d);
    DisconnectKeys(w, q, d);
    PlanInOrder(w, holder, q, d);
    PlanNext(w, q, d);
    PlanShared(w, holder, q, DisconnectPlan(w, q, d));
  }

  // ---------------------------------------------------------------- the whole system

  /** What a step of process p to f has established. */
  ghost predicate Sound(s: State, p: Pid, f: Effect) {
    var q := if p in s.procs then Some(s.procs[p]) else None;
    var mine := s.lock.None? || s.lock == Some(p);
    && Grows(s.w, f.w)
    && WorldOk(f.w, NextHolder(Holder(s), q, f.next))
    && (f.next.Some? ==> ProcOk(f.w, f.next.value))
    && (f.next.Some? && HoldsLock(f.next.value) ==> mine && HolderOk(f.w, f.next.value))
    && (mine || Quiet(s.w, f.w))
  }

  lemma MoveLocks(s: State, p: Pid, f: Effect)
    requires Locking(s)
    requires f.next.Some? && HoldsLock(f.next.value) ==> s.lock.None? || s.lock == Some(p)
    ensures var q := if p in s.procs then Some(s.procs[p]) else None;
            Locking(Move(s, p, f)) && Holder(Move(s, p, f)) == NextHolder(Holder(s), q, f.next)
  {
  }

  lemma MoveProcs(s: State, p: Pid, f: Effect)
    requires ProcsOk(s) && Grows(s.w, f.w) && (f.next.Some? ==> ProcOk(f.w, f.next.value))
    ensures ProcsOk(Move(s, p, f))
  {
    var z := Move(s, p, f);
    forall o | o in z.procs ensures ProcOk(z.w, z.procs[o]) {
      if o != p {
        GrowsProc(s.w, z.w, s.procs[o]);
      }
    }
  }

  lemma MoveKeeps(s: State, p: Pid, f: Effect)
    requires Inv(s) && Sound(s, p, f)
    ensures Inv(Move(s, p, f))
  {
    MoveLocks(s, p, f);
    MoveProcs(s, p, f);
    var z := Move(s, p, f);
    if s.lock.Some? && s.lock != Some(p) {
      QuietHolder(s.w, f.w, s.procs[s.lock.value]);
    }
  }

  lemma PlacedAt(s: State, p: Pid, locks: bool)
    requires Inv(s) && p in s.procs && (locks ==> s.lock.None?)
    ensures Placed(s.w, Holder(s), s.procs[p], locks)
    ensures s.lock == Some(p) <==> HoldsLock(s.procs[p])
  {
  }

  lemma EnvInv(s: State, e: EnvStep)
    requires Inv(s) && Enabled(s, Env(e))
    ensures Inv(Apply(s, Env(e))) && Grows(s.w, Apply(s, Env(e)).w)
  {
    var z := Apply(s, Env(e));
    EnvKeeps(s.w, Holder(s), e);
    forall p | p in z.procs ensures ProcOk(z.w, z.procs[p]) {
      GrowsProc(s.w, z.w, s.procs[p]);
    }
    if Holder(s).Some? {
      EnvQuiet(s.w, e);
      QuietHolder(s.w, z.w, Holder(s).value);
    }
  }

  lemma CrashInv(s: State, p: Pid)
    requires Inv(s) && p in s.procs
    ensures Inv(Move(s, p, Done(s.w)))
  {
    MoveLocks(s, p, Done(s.w));
    if HoldsLock(s.procs[p]) {
      UnheldWorld(s.w, Holder(s));
    }
  }

  /** Less can happen once a lock holder is gone. */
  lemma UnheldWorld(w: World, holder: Option<Proc>)
    requires WorldOk(w, holder)
    ensures WorldOk(w, None)
  {
    forall i | i in w.intents ensures IntentOk(w, None, i) {
      assert IntentOk(w, holder, i);
    }
  }

  lemma LaunchInv(s: State, p: Pid, l: LaunchStep)
    requires Inv(s) && Enabled(s, Launch(p, l))
    ensures Inv(Apply(s, Launch(p, l))) && Grows(s.w, Apply(s, Launch(p, l)).w)
  {
    LaunchKeeps(s.w, Holder(s), l);
    LaunchNext(s.w, l);
    MoveKeeps(s, p, LaunchEffect(s.w, l));
  }

  lemma InstallInv(s: State, p: Pid, x: InstallStep)
    requires Inv(s) && Enabled(s, Install(p, x))
    ensures Inv(Apply(s, Install(p, x))) && Grows(s.w, Apply(s, Install(p, x)).w)
  {
    var q := s.procs[p];
    PlacedAt(s, p, InstallLocks(x));
    InstallKeeps(s.w, Holder(s), q, x);
    InstallNext(s.w, Holder(s), q, x);
    InstallHolder(s.w, Holder(s), q, x);
    MoveKeeps(s, p, InstallEffect(s.w, q, x));
  }

  lemma RefreshInv(s: State, p: Pid, r: RefreshStep)
    requires Inv(s) && Enabled(s, Renew(p, r))
    ensures Inv(Apply(s, Renew(p, r))) && Grows(s.w, Apply(s, Renew(p, r)).w)
  {
    PlacedAt(s, p, true);
    RefreshKeeps(s.w, Holder(s), s.procs[p], r);
    MoveKeeps(s, p, RefreshEffect(s.w, s.procs[p], r));
  }

  lemma DisconnectQuiet(w: World, holder: Option<Proc>, q: Proc, d: DisconnectStep)
    requires DisconnectReady(w, q, d) && Placed(w, holder, q, DisconnectLocks(d))
    requires !HoldsLock(q) && !DisconnectLocks(d)
    ensures Quiet(w, DisconnectEffect(w, q, d).w)
  {
    PlanInOrder(w, holder, q, d);
    WriteQuiet(w, q.i, DisconnectPlan(w, q, d).write);
  }

  lemma DisconnectSound(s: State, p: Pid, d: DisconnectStep)
    requires Inv(s) && Enabled(s, Disconnect(p, d))
    ensures Sound(s, p, DisconnectEffect(s.w, s.procs[p], d))
  {
    var q := s.procs[p];
    PlacedAt(s, p, DisconnectLocks(d));
    DisconnectKeeps(s.w, Holder(s), q, d);
    DisconnectNext(s.w, Holder(s), q, d);
    DisconnectHolder(s.w, Holder(s), q, d);
    PlanNext(s.w, q, d);
    if !HoldsLock(q) && !DisconnectLocks(d) {
      DisconnectQuiet(s.w, Holder(s), q, d);
    }
  }

  lemma DisconnectInv(s: State, p: Pid, d: DisconnectStep)
    requires Inv(s) && Enabled(s, Disconnect(p, d))
    ensures Inv(Apply(s, Disconnect(p, d))) && Grows(s.w, Apply(s, Disconnect(p, d)).w)
  {
    DisconnectSound(s, p, d);
    MoveKeeps(s, p, DisconnectEffect(s.w, s.procs[p], d));
  }

  /** Every step keeps the invariant, and what has been reached is not undone. */
  lemma StepKeeps(s: State, t: Step)
    requires Inv(s) && Enabled(s, t)
    ensures Inv(Apply(s, t)) && Grows(s.w, Apply(s, t).w)
  {
    match t
    case Env(e) => EnvInv(s, e);
    case Crash(p) => CrashInv(s, p);
    case Launch(p, l) => LaunchInv(s, p, l);
    case Install(p, x) => InstallInv(s, p, x);
    case Renew(p, r) => RefreshInv(s, p, r);
    case Disconnect(p, d) => DisconnectInv(s, p, d);
  }

  lemma GrowsOn(u: World, v: World, w: World)
    requires Grows(u, v) && Grows(v, w)
    ensures Grows(u, w)
  {
    forall i | i in u.intents ensures IntentGrows(u, w, i) {
      assert IntentGrows(u, v, i) && IntentGrows(v, w, i);
    }
  }

  lemma {:induction false} RunKeeps(s: State, steps: seq<Step>)
    requires Inv(s) && IsRun(s, steps)
    ensures Inv(After(s, steps)) && Grows(s.w, After(s, steps).w)
    decreases steps
  {
    if steps != [] {
      var z := Apply(s, steps[0]);
      StepKeeps(s, steps[0]);
      RunKeeps(z, steps[1..]);
      GrowsOn(s.w, z.w, After(s, steps).w);
    }
  }
}
