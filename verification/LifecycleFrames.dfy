/** Who may change what: for each file and each platform record, exactly the steps that change it, and to what. */
module LifecycleFrames {
  import opened Text
  import opened AccountStore
  import opened Lifecycle

  lemma ApplyWorld(s: State, t: Step)
    requires Enabled(s, t)
    ensures Apply(s, t).w == EffectOf(s, t).w
  {
  }

  /** The point of the process that takes the step. */
  function Point(s: State, t: Step): Option<Proc> {
    if !t.Env? && t.p in s.procs then Some(s.procs[t.p]) else None
  }

  /** A step of a handoff's own process. */
  predicate ByHandoff(s: State, t: Step, h: HandoffId) {
    t.Install? && Point(s, t).Some? && IsHandoffProc(Point(s, t).value) && Point(s, t).value.h == h
  }

  /** A step of the intent's own worker. */
  predicate ByWorker(s: State, t: Step, i: IntentId) {
    t.Disconnect? && Point(s, t).Some? && IsDisconnectProc(Point(s, t).value) && Point(s, t).value.i == i
  }

  /** The acknowledging process finds its credential stored under an old assignment, and clears everything. */
  predicate ClearsAway(w: World, q: Proc, x: InstallStep)
    requires IsHandoffProc(q)
  {
    && x.AckCheck? && q.h in w.receipts && Holds(w.store, w.receipts[q.h])
    && w.receipts[q.h].binding != w.binding
  }

  predicate IsClearing(s: State, t: Step) {
    && t.Install? && Point(s, t).Some? && IsHandoffProc(Point(s, t).value)
    && ClearsAway(s.w, Point(s, t).value, t.x)
  }

  // ---------------------------------------------------------------- the writes of a disconnect worker

  /** The worker's own reasons to take its marker away: it was told that the intent is settled, the credential
      is not the targeted one, its claim was refused, or it has finished. */
  predicate Withdraws(w: World, q: Proc, d: DisconnectStep)
    requires IsDisconnectProc(q) && q.i in w.intents
  {
    || d.PollTerminal? || d.UnmarkSelf? || d.ResumeFinish? || (d.FinishDelete? && d.unmark)
    || ((d.ClaimDeletion? || d.ResumeClaim?) && w.intents[q.i].status != Confirmed)
    || (d.DeleteBegin? && w.disconnectMarker == Some(q.i) && w.intents[q.i].target in w.store && !Targeted(w, q.i))
  }

  /** A claim that reaches the platform while the intent is confirmed. */
  predicate Claims(w: World, q: Proc, d: DisconnectStep)
    requires IsDisconnectProc(q) && q.i in w.intents
  {
    w.intents[q.i].status == Confirmed && (d.ClaimDeletion? || d.ResumeClaim? || (d.ClaimLost? && d.reached))
  }

  /** The receipt that the step writes. */
  function Writes(w: World, q: Proc, d: DisconnectStep): Option<Receipt>
    requires IsDisconnectProc(q) && q.i in w.intents
  {
    var existing := ReceiptOf(w.dirs, q.i);
    if d.Record? && MayWrite(existing, DeletePending) then Some(DeletePending)
    else if ((d.Promote? && d.ok) || (d.ResumeCheck? && w.intents[q.i].target !in w.store))
            && MayWrite(existing, CompletionPending) then Some(CompletionPending)
    else if d.ExpireWrite? then Some(ExpiredPending)
    else None
  }

  lemma PlanMarks(w: World, q: Proc, d: DisconnectStep)
    requires DisconnectReady(w, q, d)
    ensures var x := DisconnectPlan(w, q, d).write;
            && (x.Mark? <==> d.PrepareMark?)
            && (x.TakeMark? <==> Withdraws(w, q, d))
            && (x.DropHandoffMarker? <==> d.CancelHandoffs? && q.present)
  {
  }

  lemma PlanRecords(w: World, q: Proc, d: DisconnectStep)
    requires DisconnectReady(w, q, d)
    ensures var x := DisconnectPlan(w, q, d).write;
            && (x.PutReceipt? <==> Writes(w, q, d).Some?) && (x.PutReceipt? ==> x.r == Writes(w, q, d).value)
            && (x.DropDir? <==> d.Exit? && Removes(w, q)) && (x.DropDir? ==> x.gone == d.r)
            && (x.DropCredential? <==> d.RemoveCredential?)
  {
  }

  lemma PlanReports(w: World, q: Proc, d: DisconnectStep)
    requires DisconnectReady(w, q, d)
    ensures var x, status := DisconnectPlan(w, q, d).write, w.intents[q.i].status;
            && (Claims(w, q, d) ==> x.Claim?) && (x.Claim? && status == Confirmed ==> Claims(w, q, d))
            && (x.Aim? <==> d.DeleteBegin? && w.disconnectMarker == Some(q.i) && Targeted(w, q.i))
            && (x == Settle(Disconnected) <==> d.Complete?)
            && (x == Settle(Ended) <==> d.CompleteExpired? && d.ended && !IsTerminal(status))
            && (x.Settle? ==> x.t == Disconnected || x.t == Ended)
  {
  }

  // ---------------------------------------------------------------- the active handoff

  /** The steps that end handoff g as the active one: its own exit or acknowledgement, another handoff's
      activation, a claimed deletion, a wipe, and the clean-up after an assignment change. */
  predicate Deactivates(s: State, t: Step, g: HandoffId) {
    match t
    case Install(_, x) =>
      || (ByHandoff(s, t, g) && (x.Leave? || x.AckUnmark?))
      || (!ByHandoff(s, t, g) && x.ActivateHandoff?)
      || IsClearing(s, t)
    case Disconnect(_, d) =>
      d.CancelHandoffs? && Point(s, t).Some? && Point(s, t).value.Claimed? && Point(s, t).value.present
    case Env(e) => e.Wipe? && e.handoffs_
    case _ => false
  }

  lemma InstallHandoffMark(w: World, q: Proc, x: InstallStep)
    requires InstallReady(w, q, x)
    ensures InstallEffect(w, q, x).w.handoffMarker
            == if x.ActivateHandoff? then Some(q.h)
               else if ClearsAway(w, q, x) then None
               else if (x.Leave? || x.AckUnmark?) && w.handoffMarker == Some(q.h) then None
               else w.handoffMarker
  {
  }

  lemma DisconnectHandoffMark(w: World, q: Proc, d: DisconnectStep)
    requires DisconnectReady(w, q, d)
    ensures DisconnectEffect(w, q, d).w.handoffMarker
            == if d.CancelHandoffs? && q.present then None else w.handoffMarker
  {
    PlanMarks(w, q, d);
    WriteMarks(w, q.i, DisconnectPlan(w, q, d).write);
  }

  lemma WriteMarks(w: World, i: IntentId, x: Write)
    requires i in w.intents
    ensures var z := AfterWrite(w, i, x);
            && z.handoffMarker == (if x.DropHandoffMarker? then None else w.handoffMarker)
            && z.disconnectMarker
               == if x.Mark? then Some(i) else if x.TakeMark? && w.disconnectMarker == Some(i) then None
                  else w.disconnectMarker
  {
  }

  lemma LaunchMarksNothing(w: World, l: LaunchStep)
    requires LaunchReady(w, l)
    ensures var z := LaunchEffect(w, l).w;
            z.handoffMarker == w.handoffMarker && z.disconnectMarker == w.disconnectMarker
  {
  }

  lemma RefreshMarksNothing(w: World, q: Proc, r: RefreshStep)
    requires RefreshReady(w, q, r)
    ensures var z := RefreshEffect(w, q, r).w; z == w.(store := z.store)
  {
  }

  lemma EnvHandoffMark(w: World, e: EnvStep)
    requires EnvReady(w, e)
    ensures AfterEnv(w, e).handoffMarker == if e.Wipe? && e.handoffs_ then None else w.handoffMarker
  {
  }

  /** The active handoff stays the active one unless and only unless one of those steps is taken, and a handoff
      becomes active by its own activation only. */
  lemma HandoffMarkerMoves(s: State, t: Step, g: HandoffId)
    requires Enabled(s, t)
    ensures var z := Apply(s, t).w;
            && (s.w.handoffMarker == Some(g) ==> (z.handoffMarker != Some(g) <==> Deactivates(s, t, g)))
            && (s.w.handoffMarker != Some(g) ==>
                  (z.handoffMarker == Some(g) <==> ByHandoff(s, t, g) && t.x.ActivateHandoff?))
  {
    ApplyWorld(s, t);
    match t
    case Env(e) => EnvHandoffMark(s.w, e);
    case Crash(_) =>
    case Launch(_, l) => LaunchMarksNothing(s.w, l);
    case Install(p, x) => InstallHandoffMark(s.w, s.procs[p], x);
    case Renew(p, r) => RefreshMarksNothing(s.w, s.procs[p], r);
    case Disconnect(p, d) => DisconnectHandoffMark(s.w, s.procs[p], d);
  }

  // ---------------------------------------------------------------- the active disconnect

  /** The steps that end intent j as the active disconnect: its own worker's, another intent's mark, a new
      connection, giving up or sweeping its start, a wipe, and the clean-up after an assignment change. */
  predicate Unmarks(s: State, t: Step, j: IntentId)
    requires j in s.w.intents
  {
    match t
    case Install(_, x) => x.ClearDisconnect? || IsClearing(s, t)
    case Disconnect(_, d) => if ByWorker(s, t, j) then Withdraws(s.w, Point(s, t).value, d) else d.PrepareMark?
    case Env(e) => (e.Wipe? && e.disconnects) || ((e.StarterGivesUp? || e.Sweep?) && e.i == j)
    case _ => false
  }

  lemma InstallDisconnectMark(w: World, q: Proc, x: InstallStep)
    requires InstallReady(w, q, x)
    ensures InstallEffect(w, q, x).w.disconnectMarker
            == if x.ClearDisconnect? || ClearsAway(w, q, x) then None else w.disconnectMarker
  {
  }

  lemma DisconnectDisconnectMark(w: World, q: Proc, d: DisconnectStep)
    requires DisconnectReady(w, q, d)
    ensures DisconnectEffect(w, q, d).w.disconnectMarker
            == if d.PrepareMark? then Some(q.i)
               else if w.disconnectMarker == Some(q.i) && Withdraws(w, q, d) then None
               else w.disconnectMarker
  {
    PlanMarks(w, q, d);
    WriteMarks(w, q.i, DisconnectPlan(w, q, d).write);
  }

  lemma EnvDisconnectMark(w: World, e: EnvStep)
    requires EnvReady(w, e)
    ensures AfterEnv(w, e).disconnectMarker
            == if (e.Wipe? && e.disconnects)
                  || ((e.StarterGivesUp? || e.Sweep?) && w.disconnectMarker == Some(e.i)) then None
               else w.disconnectMarker
  {
  }

  /** The active disconnect stays the active one unless and only unless one of those steps is taken, and an
      intent becomes active by the mark of its own start only. */
  lemma DisconnectMarkerMoves(s: State, t: Step, j: IntentId)
    requires Enabled(s, t) && j in s.w.intents
    ensures var z := Apply(s, t).w;
            && (s.w.disconnectMarker == Some(j) ==> (z.disconnectMarker != Some(j) <==> Unmarks(s, t, j)))
            && (s.w.disconnectMarker != Some(j) ==>
                  (z.disconnectMarker == Some(j) <==> ByWorker(s, t, j) && t.d.PrepareMark?))
  {
    ApplyWorld(s, t);
    match t
    case Env(e) => EnvDisconnectMark(s.w, e);
    case Crash(_) =>
    case Launch(_, l) => LaunchMarksNothing(s.w, l);
    case Install(p, x) => InstallDisconnectMark(s.w, s.procs[p], x);
    case Renew(p, r) => RefreshMarksNothing(s.w, s.procs[p], r);
    case Disconnect(p, d) => DisconnectDisconnectMark(s.w, s.procs[p], d);
  }

  // ---------------------------------------------------------------- install receipts

  /** The steps that take handoff g's install receipt away: its own failed save, its acknowledgement, the check
      that finds its credential gone, a wipe, and the clean-up after an assignment change. */
  predicate Retires(s: State, t: Step, g: HandoffId)
    requires g in s.w.receipts
  {
    match t
    case Install(_, x) =>
      || (ByHandoff(s, t, g)
          && (x.SaveFails? || x.AckRetire? || (x.AckCheck? && !Holds(s.w.store, s.w.receipts[g]))))
      || IsClearing(s, t)
    case Env(e) => e.Wipe? && g in e.dropped
    case _ => false
  }

  lemma InstallReceipts(w: World, q: Proc, x: InstallStep)
    requires InstallReady(w, q, x)
    ensures InstallEffect(w, q, x).w.receipts
            == if x.Begin? then w.receipts[q.h := InstallGeneration(x.c)]
               else if x.SaveFails? || x.AckRetire?
                       || (x.AckCheck? && q.h in w.receipts && !Holds(w.store, w.receipts[q.h]))
                 then w.receipts - {q.h}
               else if ClearsAway(w, q, x) then map[]
               else w.receipts
  {
    match x
    case ClearDisconnect =>
    case ActivateHandoff =>
    case Begin(_) =>
    case Save =>
    case SaveFails =>
    case PromoteInstall(_) =>
    case Leave =>
    case AckCheck =>
      if q.h !in w.receipts {
      } else if !Holds(w.store, w.receipts[q.h]) {
      } else if w.receipts[q.h].binding == w.binding {
      } else {
      }
    case AckClaim =>
    case AckClaimFails(_) =>
    case AckRetire =>
    case AckUnmark =>
    case Notice =>
  }

  lemma DisconnectReceipts(w: World, q: Proc, d: DisconnectStep)
    requires DisconnectReady(w, q, d)
    ensures DisconnectEffect(w, q, d).w.receipts == w.receipts
  {
    WriteReceipts(w, q.i, DisconnectPlan(w, q, d).write);
  }

  lemma WriteReceipts(w: World, i: IntentId, x: Write)
    requires i in w.intents
    ensures AfterWrite(w, i, x).receipts == w.receipts
  {
  }

  lemma LaunchReceipts(w: World, l: LaunchStep)
    requires LaunchReady(w, l)
    ensures LaunchEffect(w, l).w.receipts == w.receipts
  {
  }

  lemma EnvReceipts(w: World, e: EnvStep)
    requires EnvReady(w, e)
    ensures AfterEnv(w, e).receipts == if e.Wipe? then w.receipts - e.dropped else w.receipts
  {
  }

  /** An install receipt appears, or changes, only when a worker of its handoff begins, and then holds the
      lineage of the credential that it is about to save; it goes exactly by the steps that retire it. */
  lemma InstallReceiptMoves(s: State, t: Step, g: HandoffId)
    requires Enabled(s, t)
    ensures var z := Apply(s, t).w;
            if ByHandoff(s, t, g) && t.x.Begin? then g in z.receipts && z.receipts[g] == InstallGeneration(t.x.c)
            else
              && (g in z.receipts ==> g in s.w.receipts && z.receipts[g] == s.w.receipts[g])
              && (g in s.w.receipts ==> (g !in z.receipts <==> Retires(s, t, g)))
  {
    ApplyWorld(s, t);
    match t
    case Env(e) => EnvReceipts(s.w, e);
    case Crash(_) =>
    case Launch(_, l) => LaunchReceipts(s.w, l);
    case Install(p, x) => InstallReceipts(s.w, s.procs[p], x);
    case Renew(p, r) => RefreshMarksNothing(s.w, s.procs[p], r);
    case Disconnect(p, d) => DisconnectReceipts(s.w, s.procs[p], d);
  }

  // ---------------------------------------------------------------- worker directories

  /** How a step removes from intent j's directory, if it does: the exit of its own worker, as the verdict says,
      its start given up, or the sweep of one that never started. */
  function Drops(s: State, t: Step, j: IntentId): Option<Removal> {
    match t
    case Disconnect(_, d) =>
      if ByWorker(s, t, j) && d.Exit? && Point(s, t).value.Exiting? && Removes(s.w, Point(s, t).value) then Some(d.r)
      else None
    case Env(e) =>
      if e.StarterGivesUp? && e.i == j then e.cleanup else if e.Sweep? && e.i == j then Some(e.r) else None
    case _ => None
  }

  lemma InstallDirs(w: World, q: Proc, x: InstallStep)
    requires InstallReady(w, q, x)
    ensures var z := InstallEffect(w, q, x).w; z.dirs == w.dirs && z.intents == w.intents
  {
    match x
    case ClearDisconnect =>
    case ActivateHandoff =>
    case Begin(_) =>
    case Save =>
    case SaveFails =>
    case PromoteInstall(_) =>
    case Leave =>
    case AckCheck =>
      if q.h !in w.receipts {
      } else if !Holds(w.store, w.receipts[q.h]) {
      } else if w.receipts[q.h].binding == w.binding {
      } else {
      }
    case AckClaim =>
    case AckClaimFails(_) =>
    case AckRetire =>
    case AckUnmark =>
    case Notice =>
  }

  lemma LaunchDirs(w: World, l: LaunchStep)
    requires LaunchReady(w, l)
    ensures LaunchEffect(w, l).w.dirs == if l.Prepare? then w.dirs[l.i := Dir(true, None)] else w.dirs
  {
  }

  lemma EnvDirs(w: World, e: EnvStep)
    requires EnvReady(w, e)
    ensures AfterEnv(w, e).dirs
            == match e
               case StarterGivesUp(i, Some(r)) => Cleared(w.dirs, i, r)
               case Sweep(i, r) => Cleared(w.dirs, i, r)
               case _ => w.dirs
  {
  }

  lemma DisconnectDirs(w: World, q: Proc, d: DisconnectStep)
    requires DisconnectReady(w, q, d)
    ensures DisconnectEffect(w, q, d).w.dirs
            == if Writes(w, q, d).Some? then
                 w.dirs[q.i := Dir(q.i in w.dirs && w.dirs[q.i].intentFile, Some(Writes(w, q, d).value))]
               else if d.Exit? && Removes(w, q) then Cleared(w.dirs, q.i, d.r)
               else w.dirs
  {
    PlanRecords(w, q, d);
    WriteDirs(w, q.i, DisconnectPlan(w, q, d).write);
  }

  lemma WriteDirs(w: World, i: IntentId, x: Write)
    requires i in w.intents
    ensures AfterWrite(w, i, x).dirs
            == if x.PutReceipt? then WriteReceipt(w.dirs, i, x.r) else if x.DropDir? then Cleared(w.dirs, i, x.gone)
               else w.dirs
  {
  }

  function DirOf(w: World, j: IntentId): Option<Dir> {
    if j in w.dirs then Some(w.dirs[j]) else None
  }

  /** What a removal leaves. */
  function Remains(dir: Option<Dir>, r: Removal): Option<Dir> {
    match dir
    case None => None
    case Some(d) =>
      match r
      case Whole => None
      case IntentGone => Some(Dir(false, d.receipt))
      case ReceiptGone => Some(Dir(d.intentFile, None))
  }

  /** An intent's directory is made by its start, its receipt is written by its own worker, with the receipt
      that the point of the protocol asks for, and it is removed by its worker's exit, its start given up, or
      the sweep; no other step touches it. */
  lemma DirectoryMoves(s: State, t: Step, j: IntentId)
    requires Enabled(s, t)
    ensures DirOf(Apply(s, t).w, j)
            == if t.Launch? && t.l.Prepare? && t.l.i == j then Some(Dir(true, None))
               else if ByWorker(s, t, j) && j in s.w.intents && Writes(s.w, Point(s, t).value, t.d).Some? then
                 Some(Dir(j in s.w.dirs && s.w.dirs[j].intentFile, Writes(s.w, Point(s, t).value, t.d)))
               else if Drops(s, t, j).Some? then Remains(DirOf(s.w, j), Drops(s, t, j).value)
               else DirOf(s.w, j)
  {
    ApplyWorld(s, t);
    match t
    case Env(e) => EnvDirs(s.w, e);
    case Crash(_) =>
    case Launch(_, l) => LaunchDirs(s.w, l);
    case Install(p, x) => InstallDirs(s.w, s.procs[p], x);
    case Renew(p, r) => RefreshMarksNothing(s.w, s.procs[p], r);
    case Disconnect(p, d) => DisconnectDirs(s.w, s.procs[p], d);
  }

  // ---------------------------------------------------------------- what the platform knows of an intent

  /** The status that the step gives intent j. */
  function Becomes(s: State, t: Step, j: IntentId): Status
    requires j in s.w.intents
  {
    var status := s.w.intents[j].status;
    match t
    case Env(Activate(i)) => if i == j then Active else status
    case Env(Confirm(i)) => if i == j then Confirmed else status
    case Env(EndIntent(i)) => if i == j then Ended else status
    case Disconnect(_, Complete(_)) => if ByWorker(s, t, j) then Disconnected else status
    case Disconnect(_, CompleteExpired(true)) => if ByWorker(s, t, j) && status != Disconnected then Ended else status
    case _ => status
  }

  lemma DisconnectIntent(w: World, q: Proc, d: DisconnectStep, j: IntentId)
    requires DisconnectReady(w, q, d) && j in w.intents
    ensures var z := DisconnectEffect(w, q, d).w;
            && j in z.intents && z.intents.Keys == w.intents.Keys
            && z.intents[j]
               == if j != q.i then w.intents[j]
                  else if d.Complete? then w.intents[j].(status := Disconnected)
                  else if d.CompleteExpired? && d.ended && !IsTerminal(w.intents[j].status)
                    then w.intents[j].(status := Ended)
                  else if Claims(w, q, d) then w.intents[j].(claimed := true)
                  else w.intents[j]
  {
    PlanReports(w, q, d);
    WriteIntents(w, q.i, DisconnectPlan(w, q, d).write, j);
  }

  lemma WriteIntents(w: World, i: IntentId, x: Write, j: IntentId)
    requires i in w.intents && j in w.intents
    ensures var z := AfterWrite(w, i, x);
            && z.intents.Keys == w.intents.Keys
            && z.intents[j]
               == if j != i then w.intents[j]
                  else if x.Settle? then w.intents[j].(status := x.t)
                  else if x.Claim? && w.intents[j].status == Confirmed then w.intents[j].(claimed := true)
                  else w.intents[j]
  {
    match x
    case Settle(_) =>
    case Claim =>
    case _ =>
  }

  lemma LaunchIntents(w: World, l: LaunchStep, j: IntentId)
    requires LaunchReady(w, l) && j in w.intents
    ensures var z := LaunchEffect(w, l).w; j in z.intents && z.intents[j] == w.intents[j]
  {
  }

  lemma EnvIntents(w: World, e: EnvStep, j: IntentId)
    requires EnvReady(w, e) && j in w.intents
    ensures var z := AfterEnv(w, e);
            && j in z.intents
            && z.intents[j]
               == if e.Activate? && e.i == j then w.intents[j].(status := Active)
                  else if e.Confirm? && e.i == j then w.intents[j].(status := Confirmed)
                  else if e.EndIntent? && e.i == j then w.intents[j].(status := Ended)
                  else w.intents[j]
  {
  }

  /** The platform's record of an intent keeps its credential and generation; its status changes by the named
      steps alone, and it is claimed exactly by a claim of its own worker that arrives while it is confirmed. */
  lemma IntentMoves(s: State, t: Step, j: IntentId)
    requires Enabled(s, t) && j in s.w.intents
    ensures var z := Apply(s, t).w;
            && j in z.intents
            && z.intents[j].target == s.w.intents[j].target && z.intents[j].generation == s.w.intents[j].generation
            && z.intents[j].status == Becomes(s, t, j)
            && (z.intents[j].claimed
                <==> s.w.intents[j].claimed || (ByWorker(s, t, j) && Claims(s.w, Point(s, t).value, t.d)))
  {
    ApplyWorld(s, t);
    match t
    case Env(e) => EnvIntents(s.w, e, j);
    case Crash(_) =>
    case Launch(_, l) => LaunchIntents(s.w, l, j);
    case Install(p, x) => InstallDirs(s.w, s.procs[p], x);
    case Renew(p, r) => RefreshMarksNothing(s.w, s.procs[p], r);
    case Disconnect(p, d) => DisconnectIntent(s.w, s.procs[p], d, j);
  }

  // ---------------------------------------------------------------- runs without such a step

  ghost predicate SomeDeactivates(s: State, steps: seq<Step>, g: HandoffId)
    requires IsRun(s, steps)
    decreases steps
  {
    steps != [] && (Deactivates(s, steps[0], g) || SomeDeactivates(Apply(s, steps[0]), steps[1..], g))
  }

  /** So whatever else happens, and whoever else gives up or dies, the active handoff stays able to install. */
  lemma {:induction false} ActiveHandoffStays(s: State, later: seq<Step>, g: HandoffId)
    requires IsRun(s, later) && s.w.handoffMarker == Some(g) && !SomeDeactivates(s, later, g)
    ensures After(s, later).w.handoffMarker == Some(g)
    decreases later
  {
    if later == [] {
    } else {
      HandoffMarkerMoves(s, later[0], g);
      ActiveHandoffStays(Apply(s, later[0]), later[1..], g);
    }
  }

  ghost predicate SomeUnmarks(s: State, steps: seq<Step>, j: IntentId)
    requires IsRun(s, steps) && j in s.w.intents
    decreases steps
  {
    steps != []
    && (Unmarks(s, steps[0], j)
        || (j in Apply(s, steps[0]).w.intents && SomeUnmarks(Apply(s, steps[0]), steps[1..], j)))
  }

  /** The same of the active disconnect. */
  lemma {:induction false} ActiveDisconnectStays(s: State, later: seq<Step>, j: IntentId)
    requires IsRun(s, later) && j in s.w.intents
    requires s.w.disconnectMarker == Some(j) && !SomeUnmarks(s, later, j)
    ensures After(s, later).w.disconnectMarker == Some(j)
    decreases later
  {
    if later == [] {
    } else {
      DisconnectMarkerMoves(s, later[0], j);
      IntentMoves(s, later[0], j);
      ActiveDisconnectStays(Apply(s, later[0]), later[1..], j);
    }
  }

  // ---------------------------------------------------------------- what was sent and done

  /** The handoff of the step's process, if the step is one that the condition names. */
  function Doer(s: State, t: Step, named: bool): set<HandoffId> {
    if named && t.Install? && Point(s, t).Some? && IsHandoffProc(Point(s, t).value) then {Point(s, t).value.h} else {}
  }

  lemma InstallSends(w: World, q: Proc, x: InstallStep)
    requires InstallReady(w, q, x)
    ensures var z := InstallEffect(w, q, x).w;
            && z.begun == w.begun + (if x.Begin? then {q.h} else {})
            && z.acked == w.acked + (if x.AckClaim? || (x.AckClaimFails? && x.reached) then {q.h} else {})
            && z.notices == w.notices + (if x.Notice? then multiset{q.h} else multiset{})
  {
    match x
    case ClearDisconnect =>
    case ActivateHandoff =>
    case Begin(_) =>
    case Save =>
    case SaveFails =>
    case PromoteInstall(_) =>
    case Leave =>
    case AckCheck =>
      if q.h !in w.receipts {
      } else if !Holds(w.store, w.receipts[q.h]) {
      } else if w.receipts[q.h].binding == w.binding {
      } else {
      }
    case AckClaim =>
    case AckClaimFails(_) =>
    case AckRetire =>
    case AckUnmark =>
    case Notice =>
  }

  lemma InstallRemovesNothing(w: World, q: Proc, x: InstallStep)
    requires InstallReady(w, q, x)
    ensures var z := InstallEffect(w, q, x).w;
            z.deleted == w.deleted && z.cancelled == w.cancelled && z.binding == w.binding
  {
    match x
    case ClearDisconnect =>
    case ActivateHandoff =>
    case Begin(_) =>
    case Save =>
    case SaveFails =>
    case PromoteInstall(_) =>
    case Leave =>
    case AckCheck =>
      if q.h !in w.receipts {
      } else if !Holds(w.store, w.receipts[q.h]) {
      } else if w.receipts[q.h].binding == w.binding {
      } else {
      }
    case AckClaim =>
    case AckClaimFails(_) =>
    case AckRetire =>
    case AckUnmark =>
    case Notice =>
  }

  lemma LaunchHistory(w: World, l: LaunchStep)
    requires LaunchReady(w, l)
    ensures var z := LaunchEffect(w, l).w;
            && z.begun == w.begun && z.acked == w.acked && z.notices == w.notices
            && z.deleted == w.deleted && z.cancelled == w.cancelled && z.binding == w.binding
  {
  }

  lemma WriteHistory(w: World, i: IntentId, x: Write)
    requires i in w.intents
    ensures var z := AfterWrite(w, i, x);
            && z.begun == w.begun && z.acked == w.acked && z.notices == w.notices && z.binding == w.binding
            && z.deleted == w.deleted + (if x.DropCredential? then {i} else {})
            && z.cancelled == w.cancelled + (if x.DropCredential? then w.handoffs.Keys else {})
  {
  }

  lemma EnvHistory(w: World, e: EnvStep)
    requires EnvReady(w, e)
    ensures var z := AfterEnv(w, e);
            && z.begun == w.begun && z.acked == w.acked && z.notices == w.notices
            && z.deleted == w.deleted && z.cancelled == w.cancelled
            && z.binding == w.binding + (if e.Reassign? then 1 else 0)
  {
  }

  /** installed=true reaches the platform by a claim, or by one that fails after it was sent; the ready notice is
      sent by the step after the receipt is retired, once. */
  lemma SentMoves(s: State, t: Step)
    requires Enabled(s, t)
    ensures var z := Apply(s, t).w;
            && z.begun == s.w.begun + Doer(s, t, t.Install? && t.x.Begin?)
            && z.acked == s.w.acked + Doer(s, t, t.Install? && (t.x.AckClaim? || (t.x.AckClaimFails? && t.x.reached)))
            && z.notices == s.w.notices + multiset(Doer(s, t, t.Install? && t.x.Notice?))
  {
    ApplyWorld(s, t);
    match t
    case Env(e) => EnvHistory(s.w, e);
    case Crash(_) =>
    case Launch(_, l) => LaunchHistory(s.w, l);
    case Install(p, x) => InstallSends(s.w, s.procs[p], x);
    case Renew(p, r) => RefreshMarksNothing(s.w, s.procs[p], r);
    case Disconnect(p, d) => WriteHistory(s.w, s.procs[p].i, DisconnectPlan(s.w, s.procs[p], d).write);
  }

  /** A credential counts as deleted, and every handoff known by then as cancelled, by the removal alone. */
  lemma RemovalMoves(s: State, t: Step)
    requires Enabled(s, t)
    ensures var z := Apply(s, t).w;
            && (if t.Disconnect? && t.d.RemoveCredential?
                then z.deleted == s.w.deleted + {s.procs[t.p].i} && z.cancelled == s.w.cancelled + s.w.handoffs.Keys
                else z.deleted == s.w.deleted && z.cancelled == s.w.cancelled)
            && z.binding == s.w.binding + if t == Env(Reassign) then 1 else 0
  {
    ApplyWorld(s, t);
    match t
    case Env(e) => EnvHistory(s.w, e);
    case Crash(_) =>
    case Launch(_, l) => LaunchHistory(s.w, l);
    case Install(p, x) => InstallRemovesNothing(s.w, s.procs[p], x);
    case Renew(p, r) => RefreshMarksNothing(s.w, s.procs[p], r);
    case Disconnect(p, d) =>
      PlanRecords(s.w, s.procs[p], d);
      WriteHistory(s.w, s.procs[p].i, DisconnectPlan(s.w, s.procs[p], d).write);
  }

  lemma InstallOrigins(w: World, q: Proc, x: InstallStep)
    requires InstallReady(w, q, x)
    ensures var z := InstallEffect(w, q, x).w;
            && z.origin == (if x.Begin? then w.origin[x.c.connectedAt := q.h] else w.origin)
            && z.aimed == w.aimed && z.recorded == w.recorded
  {
    match x
    case ClearDisconnect =>
    case ActivateHandoff =>
    case Begin(_) =>
    case Save =>
    case SaveFails =>
    case PromoteInstall(_) =>
    case Leave =>
    case AckCheck =>
      if q.h !in w.receipts {
      } else if !Holds(w.store, w.receipts[q.h]) {
      } else if w.receipts[q.h].binding == w.binding {
      } else {
      }
    case AckClaim =>
    case AckClaimFails(_) =>
    case AckRetire =>
    case AckUnmark =>
    case Notice =>
  }

  lemma WriteAims(w: World, i: IntentId, x: Write)
    requires i in w.intents
    ensures var z := AfterWrite(w, i, x);
            && z.origin == w.origin
            && z.aimed == (if x.Aim? then w.aimed[i := w.binding] else w.aimed)
            && z.recorded == w.recorded + (if x == PutReceipt(DeletePending) then {i} else {})
  {
  }

  lemma DisconnectHistory(w: World, q: Proc, d: DisconnectStep)
    requires DisconnectReady(w, q, d)
    ensures var z := DisconnectEffect(w, q, d).w;
            && z.origin == w.origin
            && z.aimed == (if d.DeleteBegin? && w.disconnectMarker == Some(q.i) && Targeted(w, q.i)
                           then w.aimed[q.i := w.binding] else w.aimed)
            && z.recorded == (if Writes(w, q, d) == Some(DeletePending) then w.recorded + {q.i} else w.recorded)
  {
    PlanRecords(w, q, d);
    PlanReports(w, q, d);
    WriteAims(w, q.i, DisconnectPlan(w, q, d).write);
  }

  lemma LaunchAims(w: World, l: LaunchStep)
    requires LaunchReady(w, l)
    ensures var z := LaunchEffect(w, l).w;
            z.origin == w.origin && z.aimed == w.aimed && z.recorded == w.recorded
  {
  }

  lemma EnvAims(w: World, e: EnvStep)
    requires EnvReady(w, e)
    ensures var z := AfterEnv(w, e); z.origin == w.origin && z.aimed == w.aimed && z.recorded == w.recorded
  {
  }

  /** The history that the safety results speak of is kept as it says: a connection time belongs to the handoff
      that began with it, an intent is aimed under the assignment of the section that matched, and recorded
      when its delete_pending receipt is written. */
  lemma HistoryMoves(s: State, t: Step)
    requires Enabled(s, t)
    ensures var z := Apply(s, t).w;
            && z.origin == (if t.Install? && t.x.Begin? then s.w.origin[t.x.c.connectedAt := s.procs[t.p].h]
                            else s.w.origin)
            && z.aimed == (if t.Disconnect? && t.d.DeleteBegin? && s.w.disconnectMarker == Some(s.procs[t.p].i)
                              && Targeted(s.w, s.procs[t.p].i)
                           then s.w.aimed[s.procs[t.p].i := s.w.binding] else s.w.aimed)
            && z.recorded == (if t.Disconnect? && Writes(s.w, s.procs[t.p], t.d) == Some(DeletePending)
                              then s.w.recorded + {s.procs[t.p].i} else s.w.recorded)
  {
    ApplyWorld(s, t);
    match t
    case Env(e) => EnvAims(s.w, e);
    case Crash(_) =>
    case Launch(_, l) => LaunchAims(s.w, l);
    case Install(p, x) => InstallOrigins(s.w, s.procs[p], x);
    case Renew(p, r) => RefreshMarksNothing(s.w, s.procs[p], r);
    case Disconnect(p, d) => DisconnectHistory(s.w, s.procs[p], d);
  }

  // ---------------------------------------------------------------- the store

  /** The store changes by the save of a handoff, a refresh or renewal mark of the account that was read, the
      removal of the targeted account, and by everything being cleared away; and then to exactly this. */
  lemma StoreMoves(s: State, t: Step)
    requires Enabled(s, t)
    ensures var z := Apply(s, t).w;
            z.store
            == match t
               case Env(e) => if e.Wipe? && e.store_ then map[] else s.w.store
               case Install(p, x) =>
                 if x.Save? then s.w.store[s.procs[p].c.connection := s.procs[p].c]
                 else if ClearsAway(s.w, s.procs[p], x) then map[]
                 else s.w.store
               case Renew(p, r) =>
                 var c := s.w.store[s.procs[p].expected.connection];
                 s.w.store[s.procs[p].expected.connection :=
                   if r.Persist? then
                     c.(accessToken := r.accessToken, expiresAt := r.expiresAt, tokenType := BEARER,
                        refreshToken := if r.rotated.Some? then r.rotated.value else c.refreshToken)
                   else c.(renewal := Some(r.note))]
               case Disconnect(p, d) =>
                 if d.RemoveCredential? then s.w.store - {s.w.intents[s.procs[p].i].target} else s.w.store
               case _ => s.w.store
  {
    ApplyWorld(s, t);
    match t
    case Env(e) => EnvStore(s.w, e);
    case Crash(_) =>
    case Launch(_, l) => LaunchStore(s.w, l);
    case Install(p, x) => InstallStore(s.w, s.procs[p], x);
    case Renew(_, _) =>
    case Disconnect(p, d) =>
      PlanRecords(s.w, s.procs[p], d);
      WriteStore(s.w, s.procs[p].i, DisconnectPlan(s.w, s.procs[p], d).write);
  }

  lemma EnvStore(w: World, e: EnvStep)
    requires EnvReady(w, e)
    ensures AfterEnv(w, e).store == if e.Wipe? && e.store_ then map[] else w.store
  {
  }

  lemma LaunchStore(w: World, l: LaunchStep)
    requires LaunchReady(w, l)
    ensures LaunchEffect(w, l).w.store == w.store
  {
  }

  lemma WriteStore(w: World, i: IntentId, x: Write)
    requires i in w.intents
    ensures AfterWrite(w, i, x).store == if x.DropCredential? then w.store - {w.intents[i].target} else w.store
  {
  }

  lemma InstallStore(w: World, q: Proc, x: InstallStep)
    requires InstallReady(w, q, x)
    ensures InstallEffect(w, q, x).w.store
            == if x.Save? then w.store[q.c.connection := q.c] else if ClearsAway(w, q, x) then map[] else w.store
  {
    match x
    case ClearDisconnect =>
    case ActivateHandoff =>
    case Begin(_) =>
    case Save =>
    case SaveFails =>
    case PromoteInstall(_) =>
    case Leave =>
    case AckCheck =>
      if q.h !in w.receipts {
      } else if !Holds(w.store, w.receipts[q.h]) {
      } else if w.receipts[q.h].binding == w.binding {
      } else {
      }
    case AckClaim =>
    case AckClaimFails(_) =>
    case AckRetire =>
    case AckUnmark =>
    case Notice =>
  }

  // ---------------------------------------------------------------- how a handoff's process goes on

  /** A claim may be sent: the receipt's credential is stored under the current assignment. */
  predicate Claimable(w: World, h: HandoffId) {
    h in w.receipts && Holds(w.store, w.receipts[h]) && w.receipts[h].binding == w.binding
  }

  /** A handoff's process gives up, or has finished, and is about to leave: its save failed or was not promoted,
      there is nothing to acknowledge, the claim did not come through, or the notice is sent. */
  predicate GivesUp(w: World, q: Proc, x: InstallStep)
    requires IsHandoffProc(q)
  {
    || x.SaveFails? || (x.PromoteInstall? && !x.ok) || (x.AckCheck? && !Claimable(w, q.h)) || x.AckClaimFails?
    || x.Notice?
  }

  /** It is gone by its exit or its activation only, goes on to acknowledge exactly after a promoted install,
      claims exactly what may be claimed, and leaves in exactly the cases above. */
  lemma HandoffGoes(w: World, q: Proc, x: InstallStep)
    requires InstallReady(w, q, x)
    ensures var next := InstallEffect(w, q, x).next;
            && (next.None? <==> x.Leave? || x.ActivateHandoff?)
            && (next == Some(Acking(q.h)) <==> x.PromoteInstall? && x.ok)
            && (next == Some(AckClaiming(q.h)) <==> x.AckCheck? && Claimable(w, q.h))
            && (next == Some(Leaving(q.h)) <==> GivesUp(w, q, x))
  {
    match x
    case ClearDisconnect =>
    case ActivateHandoff =>
    case Begin(_) =>
    case Save =>
    case SaveFails =>
    case PromoteInstall(_) =>
    case Leave =>
    case AckCheck =>
      if q.h !in w.receipts {
      } else if !Holds(w.store, w.receipts[q.h]) {
      } else if w.receipts[q.h].binding == w.binding {
      } else {
      }
    case AckClaim =>
    case AckClaimFails(_) =>
    case AckRetire =>
    case AckUnmark =>
    case Notice =>
  }

  // ---------------------------------------------------------------- how a disconnect worker ends

  /** The worker goes, and will remove its directory whatever is in it: it was superseded, its section failed or
      found another credential, the intent is settled or refused the claim, or it has reported. */
  predicate EndsForGood(w: World, q: Proc, d: DisconnectStep)
    requires DisconnectReady(w, q, d)
  {
    var t := w.intents[q.i];
    || d.PollMarkerGone? || d.PollTerminal? || d.DeleteFails?
    || (d.DeleteBegin? && (w.disconnectMarker != Some(q.i) || (t.target in w.store && !Targeted(w, q.i))))
    || (d.Record? && !MayWrite(ReceiptOf(w.dirs, q.i), DeletePending))
    || (d.ClaimDeletion? && t.status != Confirmed && t.status != Disconnected && (q.present || t.status == Ended))
    || (d.ClaimLost? && q.present)
    || (d.ResumeClaim? && t.status != Confirmed)
    || (d.Complete? && d.heard)
    || (d.CompleteExpired? && !q.polled)
    || (d.UnmarkSelf? && q.verdict == Discard)
  }

  /** It goes and leaves its directory for a later attempt: a claim for a credential that is already absent did
      not come through, or its report was not heard. */
  predicate EndsForNow(w: World, q: Proc, d: DisconnectStep)
    requires DisconnectReady(w, q, d)
  {
    var t := w.intents[q.i];
    || (d.ClaimDeletion? && !q.present && (t.status == Created || t.status == Active))
    || (d.ClaimLost? && !q.present)
    || (d.GiveUp? && !(q.CompletingExpired? && q.polled))
    || (d.UnmarkSelf? && q.verdict == Retain)
  }

  /** It goes by an exception, or meets a receipt that it may not write over; only a receipt keeps the
      directory then. */
  predicate EndsUndecided(w: World, q: Proc, d: DisconnectStep)
    requires DisconnectReady(w, q, d)
  {
    || d.Raise?
    || (d.ResumeCheck? && w.intents[q.i].target !in w.store && !MayWrite(ReceiptOf(w.dirs, q.i), CompletionPending))
    || (d.ExpireCheck? && ReceiptOf(w.dirs, q.i).Some? && ReceiptOf(w.dirs, q.i) != Some(ExpiredPending))
    || (d.UnmarkSelf? && q.verdict == Unknown)
  }

  lemma WorkerEndsForGood(w: World, q: Proc, d: DisconnectStep)
    requires DisconnectReady(w, q, d)
    ensures DisconnectPlan(w, q, d).next == Some(Exiting(q.i, Discard)) <==> EndsForGood(w, q, d)
  {
  }

  lemma WorkerEndsForNow(w: World, q: Proc, d: DisconnectStep)
    requires DisconnectReady(w, q, d)
    ensures DisconnectPlan(w, q, d).next == Some(Exiting(q.i, Retain)) <==> EndsForNow(w, q, d)
  {
  }

  lemma WorkerEndsUndecided(w: World, q: Proc, d: DisconnectStep)
    requires DisconnectReady(w, q, d)
    ensures DisconnectPlan(w, q, d).next == Some(Exiting(q.i, Unknown)) <==> EndsUndecided(w, q, d)
  {
  }

  /** Which way a worker goes out: exactly these three. */
  lemma WorkerEnds(w: World, q: Proc, d: DisconnectStep)
    requires DisconnectReady(w, q, d)
    ensures var next := DisconnectPlan(w, q, d).next;
            && (next == Some(Exiting(q.i, Discard)) <==> EndsForGood(w, q, d))
            && (next == Some(Exiting(q.i, Retain)) <==> EndsForNow(w, q, d))
            && (next == Some(Exiting(q.i, Unknown)) <==> EndsUndecided(w, q, d))
  {
    WorkerEndsForGood(w, q, d);
    WorkerEndsForNow(w, q, d);
    WorkerEndsUndecided(w, q, d);
  }

  /** A worker that leaves in a reachable state removes the whole directory of a superseded, settled or reported
      intent, and nothing of one that it leaves for later; with an exception it depends on the receipt. */
  lemma ExitMeans(s: State, p: Pid, r: Removal)
    requires Enabled(s, Disconnect(p, Exit(r)))
    ensures var q, z := s.procs[p], Apply(s, Disconnect(p, Exit(r)));
            && p !in z.procs
            && DirOf(z.w, q.i)
               == if q.verdict == Discard || (q.verdict == Unknown && ReceiptOf(s.w.dirs, q.i).None?)
                  then Remains(DirOf(s.w, q.i), r) else DirOf(s.w, q.i)
  {
    DirectoryMoves(s, Disconnect(p, Exit(r)), s.procs[p].i);
    assert DisconnectPlan(s.w, s.procs[p], Exit(r)).next.None?;
  }
}
