/** The Google account lifecycle as a transition system: the platform, and the workers that share the
    account store, two markers, install receipts and disconnect directories under one file lock. */
module Lifecycle {
  import opened Text
  import opened AccountStore

  type Pid = nat
  type HandoffId = nat
  type IntentId = nat

  // ---------------------------------------------------------------- state

  datatype Handoff = Handoff(adds: bool, target: string)

  datatype Status = Created | Active | Confirmed | Disconnected | Ended

  /** The credential generation is the one the intent was prepared for. */
  datatype Intent = Intent(target: string, generation: DisconnectPrint, status: Status, claimed: bool)

  /** The three valid combinations of phase and outcome. */
  datatype Receipt = DeletePending | CompletionPending | ExpiredPending

  /** A worker directory; one that is re-made by writing a receipt has no intent file. */
  datatype Dir = Dir(intentFile: bool, receipt: Option<Receipt>)

  /** Removing a directory tree, or being killed with one of its two files gone. */
  datatype Removal = Whole | IntentGone | ReceiptGone

  /** What a disconnect worker has decided about its directory; Unknown keeps it if a receipt is there. */
  datatype Verdict = Retain | Discard | Unknown

  /** A process, by what it is about to do. */
  datatype Proc =
    // starting a connection, holding the lock
    | Starting(h: HandoffId, cleared: bool)
    // a handoff worker; it holds the lock while saving and promoting
    | Waiting(h: HandoffId)
    | Saving(h: HandoffId, c: Credential)
    | Promoting(h: HandoffId)
    | Leaving(h: HandoffId)
    // acknowledging an install receipt; it holds the lock while claiming and retiring
    | Acking(h: HandoffId)
    | AckClaiming(h: HandoffId)
    | AckRetiring(h: HandoffId)
    | AckUnmarking(h: HandoffId)
    | Notifying(h: HandoffId)
    // a token refresh that has read an account
    | Refreshing(expected: Credential)
    // starting a disconnect, holding the lock
    | Preparing(i: IntentId)
    // a disconnect worker; it holds the lock from Matched to Promoted, and while Reclaimed and Resumed
    | Loading(i: IntentId)
    | Polling(i: IntentId)
    | Deleting(i: IntentId)
    | Matched(i: IntentId, present: bool)
    | Recorded(i: IntentId, present: bool)
    | Claimed(i: IntentId, present: bool)
    | Cancelled(i: IntentId)
    | Removed(i: IntentId)
    | Promoted(i: IntentId)
    | Resuming(i: IntentId)
    | Reclaimed(i: IntentId)
    | Resumed(i: IntentId)
    | Completing(i: IntentId)
    | Expiring(i: IntentId)
    | CompletingExpired(i: IntentId, polled: bool)
    | Unmarking(i: IntentId, verdict: Verdict)
    | Exiting(i: IntentId, verdict: Verdict)

  /** The shared files, what the platform knows, and history. */
  datatype World = World(
    // files on the Computer
    store: Accounts,
    handoffMarker: Option<HandoffId>,
    disconnectMarker: Option<IntentId>,
    receipts: map<HandoffId, InstallPrint>,
    dirs: map<IntentId, Dir>,
    // the platform
    handoffs: map<HandoffId, Handoff>,
    intents: map<IntentId, Intent>,
    binding: nat,                      // the current assignment
    issued: set<string>,               // connection ids handed out
    // history
    origin: map<nat, HandoffId>,       // which handoff decrypted the grant with this connection time
    begun: set<HandoffId>,             // a worker of the handoff began to install
    acked: set<HandoffId>,             // installed=true has reached the platform
    notices: multiset<HandoffId>,      // ready notices sent
    aimed: map<IntentId, nat>,         // the assignment under which the intent's last delete section matched
    recorded: set<IntentId>,           // a delete_pending receipt has been on disk
    deleted: set<IntentId>,            // a worker of the intent removed its credential
    cancelled: set<HandoffId>)         // the handoffs that were known at some such removal

  datatype State = State(lock: Option<Pid>, procs: map<Pid, Proc>, w: World)

  const EMPTY :=
    World(map[], None, None, map[], map[], map[], map[], 0, {}, map[], {}, {}, multiset{}, map[], {}, {}, {})

  const INITIAL := State(None, map[], EMPTY)

  predicate HoldsLock(q: Proc) {
    q.Starting? || q.Saving? || q.Promoting? || q.AckClaiming? || q.AckRetiring? || q.AckUnmarking? || q.Preparing?
    || q.Matched? || q.Recorded? || q.Claimed? || q.Cancelled? || q.Removed? || q.Promoted?
    || q.Reclaimed? || q.Resumed?
  }

  predicate IsHandoffProc(q: Proc) {
    q.Starting? || q.Waiting? || q.Saving? || q.Promoting? || q.Leaving? || q.Acking? || q.AckClaiming?
    || q.AckRetiring? || q.AckUnmarking? || q.Notifying?
  }

  /** A disconnect worker, or the process that prepares its intent. */
  predicate IsDisconnectProc(q: Proc) {
    !IsHandoffProc(q) && !q.Refreshing?
  }

  predicate IsTerminal(t: Status) {
    t == Disconnected || t == Ended
  }

  function ReceiptOf(dirs: map<IntentId, Dir>, i: IntentId): Option<Receipt> {
    if i in dirs then dirs[i].receipt else None
  }

  /** A receipt may be written over nothing, over itself, or over its own earlier phase. */
  predicate MayWrite(existing: Option<Receipt>, r: Receipt) {
    existing.None? || existing == Some(r) || (existing == Some(DeletePending) && r == CompletionPending)
  }

  /** Writing re-makes a missing directory, without its intent file. */
  function WriteReceipt(dirs: map<IntentId, Dir>, i: IntentId, r: Receipt): map<IntentId, Dir> {
    dirs[i := Dir(i in dirs && dirs[i].intentFile, Some(r))]
  }

  function Cleared(dirs: map<IntentId, Dir>, i: IntentId, r: Removal): map<IntentId, Dir> {
    if i !in dirs then dirs
    else
      match r
      case Whole => dirs - {i}
      case IntentGone => dirs[i := dirs[i].(intentFile := false)]
      case ReceiptGone => dirs[i := dirs[i].(receipt := None)]
  }

  function Unmark(marker: Option<nat>, n: nat): Option<nat> {
    if marker == Some(n) then None else marker
  }

  /** The store holds the credential that the receipt was written for. */
  predicate Holds(store: Accounts, made: InstallPrint) {
    made.connection in store && InstallGeneration(store[made.connection]) == made
  }

  ghost predicate InstallAllowed(store: Accounts, t: Handoff, c: Credential) {
    c.connection == t.target && if t.adds then AddAllowed(store, c) else ReplaceAllowed(store, t.target, c)
  }

  /** The intent's own credential, under the current assignment. */
  predicate Targeted(w: World, i: IntentId)
    requires i in w.intents
  {
    var t := w.intents[i];
    && t.target in w.store
    && DisconnectGeneration(w.store[t.target]) == t.generation
    && w.store[t.target].binding == w.binding
  }

  function SetStatus(w: World, i: IntentId, t: Status): World
    requires i in w.intents
  {
    w.(intents := w.intents[i := w.intents[i].(status := t)])
  }

  /** A claim of a confirmed intent is recorded, and again if it is repeated. */
  function MarkClaimed(w: World, i: IntentId): World
    requires i in w.intents
  {
    if w.intents[i].status == Confirmed then w.(intents := w.intents[i := w.intents[i].(claimed := true)]) else w
  }

  function UnmarkDisconnect(w: World, i: IntentId): World {
    w.(disconnectMarker := Unmark(w.disconnectMarker, i))
  }

  /** What one step does to the world, and the point its process is at afterwards. */
  datatype Effect = Effect(w: World, next: Option<Proc>)

  function To(w: World, q: Proc): Effect {
    Effect(w, Some(q))
  }

  function Done(w: World): Effect {
    Effect(w, None)
  }

  // ---------------------------------------------------------------- the platform, and stateless processes

  datatype EnvStep =
    | Reassign
    | Activate(i: IntentId)
    | Confirm(i: IntentId)
    | EndIntent(i: IntentId)
    // cleaning up after an assignment change, cut off anywhere
    | Wipe(disconnects: bool, handoffs_: bool, store_: bool, dropped: set<HandoffId>)
    | StarterGivesUp(i: IntentId, cleanup: Option<Removal>)
    | Sweep(i: IntentId, r: Removal)

  /** The step is a lock section. */
  predicate EnvLocks(e: EnvStep) {
    e.Wipe? || e.StarterGivesUp? || e.Sweep?
  }

  predicate EnvReady(w: World, e: EnvStep) {
    match e
    case Reassign => true
    case Activate(i) => i in w.intents && w.intents[i].status == Created
    case Confirm(i) => i in w.intents && w.intents[i].status == Active
    case EndIntent(i) => i in w.intents && !IsTerminal(w.intents[i].status)
    case Wipe(_, _, store_, dropped) => dropped != {} ==> store_
    case StarterGivesUp(i, cleanup) => i in w.intents && (cleanup.Some? ==> w.intents[i].status == Created)
    case Sweep(i, _) => i in w.dirs && w.dirs[i].intentFile && w.dirs[i].receipt.None?
  }

  function AfterEnv(w: World, e: EnvStep): World
    requires EnvReady(w, e)
  {
    match e
    case Reassign => w.(binding := w.binding + 1)
    case Activate(i) => SetStatus(w, i, Active)
    case Confirm(i) => SetStatus(w, i, Confirmed)
    case EndIntent(i) => SetStatus(w, i, Ended)
    case Wipe(disconnects, handoffs_, store_, dropped) =>
      w.(disconnectMarker := if disconnects then None else w.disconnectMarker,
         handoffMarker := if handoffs_ then None else w.handoffMarker,
         store := if store_ then map[] else w.store,
         receipts := w.receipts - dropped)
    case StarterGivesUp(i, cleanup) =>
      UnmarkDisconnect(if cleanup.Some? then w.(dirs := Cleared(w.dirs, i, cleanup.value)) else w, i)
    case Sweep(i, r) => UnmarkDisconnect(w.(dirs := Cleared(w.dirs, i, r)), i)
  }

  // ---------------------------------------------------------------- new processes

  datatype LaunchStep =
    | StartHandoff(h: HandoffId, target: string, adds: bool)
    | SpawnHandoff(h: HandoffId)
    | ResumeAck(h: HandoffId)
    | ReadAccount(id: string)
    | Prepare(i: IntentId, id: string)
    | SpawnWorker(i: IntentId)

  predicate LaunchLocks(l: LaunchStep) {
    l.StartHandoff? || l.Prepare?
  }

  predicate LaunchReady(w: World, l: LaunchStep) {
    match l
    case StartHandoff(h, target, adds) =>
      h !in w.handoffs && w.receipts == map[] && if adds then target !in w.issued else target in w.store
    case SpawnHandoff(h) => h in w.handoffs
    case ResumeAck(h) => h in w.receipts
    case ReadAccount(id) => id in w.store && w.store[id].renewal.None?
    case Prepare(i, id) => i !in w.intents && id in w.store && w.store[id].binding == w.binding
    case SpawnWorker(i) => i in w.intents
  }

  function LaunchEffect(w: World, l: LaunchStep): Effect
    requires LaunchReady(w, l)
  {
    match l
    case StartHandoff(h, target, adds) =>
      To(w.(handoffs := w.handoffs[h := Handoff(adds, target)], issued := w.issued + {target}), Starting(h, false))
    case SpawnHandoff(h) => To(w, Waiting(h))
    case ResumeAck(h) => To(w, Acking(h))
    case ReadAccount(id) => To(w, Refreshing(w.store[id]))
    case Prepare(i, id) =>
      To(w.(intents := w.intents[i := Intent(id, DisconnectGeneration(w.store[id]), Created, false)],
            dirs := w.dirs[i := Dir(true, None)]),
         Preparing(i))
    case SpawnWorker(i) => To(w, Loading(i))
  }

  // ---------------------------------------------------------------- handoffs

  datatype InstallStep =
    | ClearDisconnect
    | ActivateHandoff
    | Begin(c: Credential)
    | Save
    | SaveFails
    | PromoteInstall(ok: bool)
    | Leave
    | AckCheck
    | AckClaim
    | AckClaimFails(reached: bool)
    | AckRetire
    | AckUnmark
    | Notice

  predicate InstallLocks(x: InstallStep) {
    x.Begin? || x.Leave? || x.AckCheck?
  }

  ghost predicate InstallReady(w: World, q: Proc, x: InstallStep) {
    IsHandoffProc(q)
    && match x
       case ClearDisconnect => q.Starting? && !q.cleared
       case ActivateHandoff => q.Starting? && q.cleared
       case Begin(c) =>
         && q.Waiting? && w.handoffMarker == Some(q.h) && q.h in w.handoffs
         && InstallAllowed(w.store, w.handoffs[q.h], c) && c.connectedAt !in w.origin && c.binding == w.binding
       case Save => q.Saving?
       case SaveFails => q.Saving?
       case PromoteInstall(_) => q.Promoting?
       case Leave => q.Waiting? || q.Leaving?
       case AckCheck => q.Acking?
       case AckClaim => q.AckClaiming?
       case AckClaimFails(_) => q.AckClaiming?
       case AckRetire => q.AckRetiring?
       case AckUnmark => q.AckUnmarking?
       case Notice => q.Notifying?
  }

  ghost function InstallEffect(w: World, q: Proc, x: InstallStep): Effect
    requires InstallReady(w, q, x)
  {
    var h := q.h;
    match x
    case ClearDisconnect => To(w.(disconnectMarker := None), Starting(h, true))
    case ActivateHandoff => Done(w.(handoffMarker := Some(h)))
    case Begin(c) =>
      To(w.(receipts := w.receipts[h := InstallGeneration(c)], begun := w.begun + {h},
            origin := w.origin[c.connectedAt := h]),
         Saving(h, c))
    case Save => To(w.(store := w.store[q.c.connection := q.c]), Promoting(h))
    case SaveFails => To(w.(receipts := w.receipts - {h}), Leaving(h))
    case PromoteInstall(ok) => To(w, if ok then Acking(h) else Leaving(h))
    case Leave => Done(w.(handoffMarker := Unmark(w.handoffMarker, h)))
    case AckCheck => AckCheckEffect(w, h)
    case AckClaim => To(w.(acked := w.acked + {h}), AckRetiring(h))
    case AckClaimFails(reached) => To(if reached then w.(acked := w.acked + {h}) else w, Leaving(h))
    case AckRetire => To(w.(receipts := w.receipts - {h}), AckUnmarking(h))
    case AckUnmark => To(w.(handoffMarker := Unmark(w.handoffMarker, h)), Notifying(h))
    case Notice => To(w.(notices := w.notices + multiset{h}), Leaving(h))
  }

  /** A receipt is claimed, or retired when its credential is not there any more; a credential of an old
      assignment takes everything else with it. */
  function AckCheckEffect(w: World, h: HandoffId): Effect {
    if h !in w.receipts then To(w, Leaving(h))
    else if !Holds(w.store, w.receipts[h]) then To(w.(receipts := w.receipts - {h}), Leaving(h))
    else if w.receipts[h].binding == w.binding then To(w, AckClaiming(h))
    else To(w.(disconnectMarker := None, handoffMarker := None, store := map[], receipts := map[]), Leaving(h))
  }

  // ---------------------------------------------------------------- token refresh

  datatype RefreshStep =
    | Persist(accessToken: string, expiresAt: nat, rotated: Option<string>)
    | MarkRenewalNeeded(note: string)

  predicate RefreshReady(w: World, q: Proc, r: RefreshStep) {
    q.Refreshing? && Unchanged(w.store, q.expected) && (r.Persist? ==> q.expected.binding == w.binding)
  }

  function RefreshEffect(w: World, q: Proc, r: RefreshStep): Effect
    requires RefreshReady(w, q, r)
  {
    var id := q.expected.connection;
    match r
    case Persist(accessToken, expiresAt, rotated) =>
      Done(w.(store := w.store[id := Refreshed(w.store[id], accessToken, expiresAt, rotated)]))
    case MarkRenewalNeeded(note) => Done(w.(store := w.store[id := w.store[id].(renewal := Some(note))]))
  }

  // ---------------------------------------------------------------- disconnects

  datatype DisconnectStep =
    | PrepareMark
    | Load
    | Raise
    | PollMarkerGone
    | PollConfirmed
    | PollTerminal
    | DeleteBegin
    | Record
    | ClaimDeletion
    | ClaimLost(reached: bool)
    | CancelHandoffs
    | RemoveCredential
    | DeleteFails
    | Promote(ok: bool)
    | FinishDelete(unmark: bool)
    | ResumeClaim
    | ResumeCheck
    | ResumeFinish
    | ExpireCheck
    | ExpireWrite
    | Complete(heard: bool)
    | CompleteExpired(ended: bool)
    | UnmarkSelf
    | GiveUp
    | Exit(r: Removal)

  predicate DisconnectLocks(d: DisconnectStep) {
    d.PollMarkerGone? || d.PollTerminal? || d.DeleteBegin? || d.ResumeClaim? || d.UnmarkSelf?
  }

  predicate DisconnectReady(w: World, q: Proc, d: DisconnectStep) {
    IsDisconnectProc(q) && q.i in w.intents
    && var status := w.intents[q.i].status;
       match d
       case PrepareMark => q.Preparing?
       case Load => q.Loading? && q.i in w.dirs && w.dirs[q.i].intentFile
       case Raise =>
         q.Loading? || q.Polling? || q.Resuming? || q.Reclaimed? || q.Resumed? || q.Expiring? || q.Unmarking?
       case PollMarkerGone => q.Polling? && w.disconnectMarker != Some(q.i)
       case PollConfirmed => q.Polling? && status == Confirmed
       case PollTerminal => q.Polling? && IsTerminal(status)
       case DeleteBegin => q.Deleting?
       case Record => q.Matched?
       case ClaimDeletion => q.Recorded?
       case ClaimLost(_) => q.Recorded?
       case CancelHandoffs => q.Claimed?
       case RemoveCredential => q.Cancelled?
       case DeleteFails => q.Deleting? || q.Matched? || (q.Claimed? && q.present) || q.Cancelled?
       case Promote(_) => q.Removed?
       case FinishDelete(_) => q.Promoted?
       case ResumeClaim => q.Resuming?
       case ResumeCheck => q.Reclaimed?
       case ResumeFinish => q.Resumed?
       case ExpireCheck => q.Polling?
       case ExpireWrite => q.Expiring?
       case Complete(_) => q.Completing? && (status == Confirmed || status == Disconnected)
       case CompleteExpired(_) => q.CompletingExpired?
       case UnmarkSelf => q.Unmarking?
       case GiveUp => q.Completing? || q.CompletingExpired?
       case Exit(_) => q.Exiting?
  }

  /** One file write or platform call, always about the worker's own intent. */
  datatype Write =
    | Nothing
    | Mark
    | TakeMark
    | PutReceipt(r: Receipt)
    | DropDir(gone: Removal)
    | Aim
    | Claim
    | Settle(t: Status)
    | DropHandoffMarker
    | DropCredential

  function AfterWrite(w: World, i: IntentId, x: Write): World
    requires i in w.intents
  {
    match x
    case Nothing => w
    case Mark => w.(disconnectMarker := Some(i))
    case TakeMark => w.(disconnectMarker := Unmark(w.disconnectMarker, i))
    case PutReceipt(r) =>
      w.(dirs := WriteReceipt(w.dirs, i, r), recorded := if r == DeletePending then w.recorded + {i} else w.recorded)
    case DropDir(gone) => w.(dirs := Cleared(w.dirs, i, gone))
    case Aim => w.(aimed := w.aimed[i := w.binding])
    case Claim => MarkClaimed(w, i)
    case Settle(t) => SetStatus(w, i, t)
    case DropHandoffMarker => w.(handoffMarker := None)
    case DropCredential =>
      w.(store := w.store - {w.intents[i].target}, deleted := w.deleted + {i},
         cancelled := w.cancelled + w.handoffs.Keys)
  }

  /** What the step decides: a write, and where it goes on. */
  datatype Plan = Plan(write: Write, next: Option<Proc>)

  function GoOn(q: Proc): Plan {
    Plan(Nothing, Some(q))
  }

  function DisconnectPlan(w: World, q: Proc, d: DisconnectStep): Plan
    requires DisconnectReady(w, q, d)
  {
    var i := q.i;
    var t := w.intents[i];
    match d
    case PrepareMark => Plan(Mark, None)
    case Load =>
      GoOn(match w.dirs[i].receipt
           case None => Polling(i)
           case Some(DeletePending) => Resuming(i)
           case Some(CompletionPending) => Completing(i)
           case Some(ExpiredPending) => CompletingExpired(i, false))
    case Raise => GoOn(Exiting(i, Unknown))
    case PollMarkerGone => GoOn(Exiting(i, Discard))
    case PollConfirmed => GoOn(Deleting(i))
    case PollTerminal => Plan(TakeMark, Some(Exiting(i, Discard)))
    case DeleteBegin =>
      if w.disconnectMarker != Some(i) then GoOn(Exiting(i, Discard))
      else if t.target in w.store && !Targeted(w, i) then Plan(TakeMark, Some(Exiting(i, Discard)))
      else if t.target in w.store then Plan(Aim, Some(Matched(i, true)))
      else GoOn(Matched(i, false))
    case Record =>
      if MayWrite(ReceiptOf(w.dirs, i), DeletePending)
      then Plan(PutReceipt(DeletePending), Some(Recorded(i, q.present)))
      else GoOn(Exiting(i, Discard))
    case ClaimDeletion =>
      if t.status == Confirmed then Plan(Claim, Some(Claimed(i, q.present)))
      else if t.status == Disconnected then Plan(TakeMark, Some(Completing(i)))
      else Plan(TakeMark, Some(Exiting(i, if q.present || IsTerminal(t.status) then Discard else Retain)))
    case ClaimLost(reached) =>
      Plan(if reached then Claim else Nothing, Some(Exiting(i, if q.present then Discard else Retain)))
    case CancelHandoffs =>
      if q.present then Plan(DropHandoffMarker, Some(Cancelled(i))) else GoOn(Removed(i))
    case RemoveCredential => Plan(DropCredential, Some(Removed(i)))
    case DeleteFails => GoOn(Exiting(i, Discard))
    case Promote(ok) =>
      Plan(if ok && MayWrite(ReceiptOf(w.dirs, i), CompletionPending) then PutReceipt(CompletionPending) else Nothing,
           Some(Promoted(i)))
    case FinishDelete(unmark) => Plan(if unmark then TakeMark else Nothing, Some(Completing(i)))
    case ResumeClaim =>
      if t.status == Confirmed then Plan(Claim, Some(Reclaimed(i)))
      else Plan(TakeMark, Some(Exiting(i, Discard)))
    case ResumeCheck =>
      if t.target in w.store then GoOn(Polling(i))
      else if MayWrite(ReceiptOf(w.dirs, i), CompletionPending)
      then Plan(PutReceipt(CompletionPending), Some(Resumed(i)))
      else GoOn(Exiting(i, Unknown))
    case ResumeFinish => Plan(TakeMark, Some(Completing(i)))
    case ExpireCheck =>
      GoOn(match ReceiptOf(w.dirs, i)
           case None => Expiring(i)
           case Some(ExpiredPending) => CompletingExpired(i, true)
           case Some(_) => Exiting(i, Unknown))
    case ExpireWrite => Plan(PutReceipt(ExpiredPending), Some(CompletingExpired(i, true)))
    case Complete(heard) =>
      Plan(Settle(Disconnected), Some(if heard then Exiting(i, Discard) else Completing(i)))
    case CompleteExpired(ended) =>
      Plan(if ended && !IsTerminal(t.status) then Settle(Ended) else Nothing,
           Some(if q.polled then Unmarking(i, Discard) else Exiting(i, Discard)))
    case UnmarkSelf => Plan(TakeMark, Some(Exiting(i, q.verdict)))
    case GiveUp => GoOn(if q.CompletingExpired? && q.polled then Unmarking(i, Retain) else Exiting(i, Retain))
    case Exit(r) => Plan(if Removes(w, q) then DropDir(r) else Nothing, None)
  }

  function DisconnectEffect(w: World, q: Proc, d: DisconnectStep): Effect
    requires DisconnectReady(w, q, d)
  {
    var plan := DisconnectPlan(w, q, d);
    Effect(AfterWrite(w, q.i, plan.write), plan.next)
  }

  /** On exit the directory goes, unless the outcome retains it or a receipt is still unacknowledged. */
  predicate Removes(w: World, q: Proc)
    requires q.Exiting?
  {
    q.verdict == Discard || (q.verdict == Unknown && ReceiptOf(w.dirs, q.i).None?)
  }

  // ---------------------------------------------------------------- steps of the whole system

  datatype Step =
    | Env(e: EnvStep)
    | Crash(p: Pid)
    | Launch(p: Pid, l: LaunchStep)
    | Install(p: Pid, x: InstallStep)
    | Renew(p: Pid, r: RefreshStep)
    | Disconnect(p: Pid, d: DisconnectStep)

  ghost predicate Enabled(s: State, t: Step) {
    match t
    case Env(e) => EnvReady(s.w, e) && (EnvLocks(e) ==> s.lock.None?)
    case Crash(p) => p in s.procs
    case Launch(p, l) =>
      && p !in s.procs && LaunchReady(s.w, l) && (LaunchLocks(l) ==> s.lock.None?)
      && (l.SpawnWorker? ==> forall q | q in s.procs :: s.procs[q] != Preparing(l.i))
    case Install(p, x) => p in s.procs && InstallReady(s.w, s.procs[p], x) && (InstallLocks(x) ==> s.lock.None?)
    case Renew(p, r) => p in s.procs && RefreshReady(s.w, s.procs[p], r) && s.lock.None?
    case Disconnect(p, d) =>
      p in s.procs && DisconnectReady(s.w, s.procs[p], d) && (DisconnectLocks(d) ==> s.lock.None?)
  }

  ghost function EffectOf(s: State, t: Step): Effect
    requires Enabled(s, t)
  {
    match t
    case Env(e) => Done(AfterEnv(s.w, e))
    case Crash(_) => Done(s.w)
    case Launch(_, l) => LaunchEffect(s.w, l)
    case Install(p, x) => InstallEffect(s.w, s.procs[p], x)
    case Renew(p, r) => RefreshEffect(s.w, s.procs[p], r)
    case Disconnect(p, d) => DisconnectEffect(s.w, s.procs[p], d)
  }

  /** The process holds the lock exactly while its point needs it. */
  function Move(s: State, p: Pid, f: Effect): State {
    if f.next.Some? then
      State(if HoldsLock(f.next.value) then Some(p) else if s.lock == Some(p) then None else s.lock,
            s.procs[p := f.next.value], f.w)
    else
      State(if s.lock == Some(p) then None else s.lock, s.procs - {p}, f.w)
  }

  ghost function Apply(s: State, t: Step): State
    requires Enabled(s, t)
  {
    var f := EffectOf(s, t);
    if t.Env? then s.(w := f.w) else Move(s, t.p, f)
  }

  // ---------------------------------------------------------------- runs

  ghost predicate IsRun(s: State, steps: seq<Step>)
    decreases steps
  {
    steps == [] || (Enabled(s, steps[0]) && IsRun(Apply(s, steps[0]), steps[1..]))
  }

  ghost function After(s: State, steps: seq<Step>): State
    requires IsRun(s, steps)
    decreases steps
  {
    if steps == [] then s else After(Apply(s, steps[0]), steps[1..])
  }
}
