/** Handing stored mail over to the runtime's inbox: accept first and the ledger afterwards, with a process
    that can be killed, and writes that can raise, in between. */
module OwnerHandoff {
  import opened Text
  import opened Ledger

  type Pid = nat

  /** One row of the arrivals query; processing marks a turn that was interrupted. */
  datatype Arrival = Arrival(key: Key, processing: bool)

  /** The welcome is left to another adapter. */
  const WELCOME := Message("onboarding-welcome")

  /** The arrivals query gives each key once, for queued and interrupted rows. */
  ghost predicate Due(rows: Rows, arrivals: seq<Arrival>) {
    && (forall i, j | 0 <= i < j < |arrivals| :: arrivals[i].key != arrivals[j].key)
    && (forall i | 0 <= i < |arrivals| ::
          arrivals[i].key in rows
          && rows[arrivals[i].key].status == (if arrivals[i].processing then Processing else Queued))
  }

  // ---------------------------------------------------------------- pollers on one ledger

  /** Where a poller is with the first of its arrivals. */
  datatype Work =
    | Next(todo: seq<Arrival>)
    // accept has returned, and the row is not yet written
    | Taken(todo: seq<Arrival>)
    // the runtime's inbox is full
    | Crowded(todo: seq<Arrival>)
    // something raised, and the failure is not yet noted
    | Broken(todo: seq<Arrival>)

  datatype Hub = Hub(rows: Rows, work: map<Pid, Work>)

  datatype Step =
    | List(p: Pid, arrivals: seq<Arrival>)
    | Pass(p: Pid)
    | Stop(p: Pid, now: real)
    | Reject(p: Pid, now: real)
    | Accept(p: Pid)
    | Crowd(p: Pid)
    | Fail(p: Pid)
    | Save(p: Pid, now: real)
    | Defer(p: Pid, now: real)
    | Note(p: Pid, now: real)
    // the end of the list, a kill, or a write that raises out of the poll
    | Leave(p: Pid)
    // what polls and the other adapter do to the ledger
    | Other(e: Event)

  predicate At(s: Hub, p: Pid) {
    p in s.work && s.work[p].todo != []
  }

  predicate Ordinary(a: Arrival) {
    a.key != WELCOME && !a.processing
  }

  /** The next arrival is mail to be read, checked and accepted. */
  predicate Facing(s: Hub, p: Pid) {
    At(s, p) && s.work[p].Next? && Ordinary(s.work[p].todo[0])
  }

  ghost predicate Enabled(s: Hub, t: Step) {
    match t
    case List(p, arrivals) => p !in s.work && Due(s.rows, arrivals)
    case Pass(p) => At(s, p) && s.work[p].Next? && s.work[p].todo[0].key == WELCOME
    case Stop(p, _) =>
      && At(s, p) && s.work[p].Next? && s.work[p].todo[0].processing && s.work[p].todo[0].key != WELCOME
      && s.work[p].todo[0].key in s.rows
    case Reject(p, _) => Facing(s, p)
    case Accept(p) => Facing(s, p)
    case Crowd(p) => Facing(s, p)
    case Fail(p) => Facing(s, p) || (At(s, p) && s.work[p].Taken?)
    case Save(p, _) => At(s, p) && s.work[p].Taken?
    case Defer(p, _) => At(s, p) && s.work[p].Crowded?
    case Note(p, _) => At(s, p) && s.work[p].Broken? && s.work[p].todo[0].key in s.rows
    case Leave(p) => p in s.work
    case Other(e) => !(e.PutEvent? && e.status == Queued) && !e.HandoffFailedEvent?
  }

  function To(s: Hub, p: Pid, x: Work): Hub {
    s.(work := s.work[p := x])
  }

  /** The row is written, and the poller goes on. */
  function Onward(s: Hub, p: Pid, rows: Rows): Hub
    requires At(s, p)
  {
    Hub(rows, s.work[p := Next(s.work[p].todo[1..])])
  }

  ghost function After(s: Hub, t: Step): Hub
    requires Enabled(s, t)
  {
    match t
    case List(p, arrivals) => To(s, p, Next(arrivals))
    case Pass(p) => Onward(s, p, s.rows)
    case Stop(p, now) =>
      Onward(s, p, AfterHandoffFailed(s.rows, s.work[p].todo[0].key, "framework_switch_interrupted_turn", 0, now))
    case Reject(p, now) => Onward(s, p, AfterPut(s.rows, s.work[p].todo[0].key, Done, None, now))
    case Accept(p) => To(s, p, Taken(s.work[p].todo))
    case Crowd(p) => To(s, p, Crowded(s.work[p].todo))
    case Fail(p) => To(s, p, Broken(s.work[p].todo))
    case Save(p, now) => Onward(s, p, AfterPut(s.rows, s.work[p].todo[0].key, Done, None, now))
    case Defer(p, now) => Onward(s, p, AfterDeferHandoff(s.rows, s.work[p].todo[0].key, now))
    case Note(p, now) =>
      Onward(s, p, AfterHandoffFailed(s.rows, s.work[p].todo[0].key, "native_handoff_failed", 5, now))
    case Leave(p) => s.(work := s.work - {p})
    case Other(e) => s.(rows := Ledger.Apply(s.rows, e))
  }

  ghost predicate IsRun(s: Hub, steps: seq<Step>)
    decreases steps
  {
    steps == [] || (Enabled(s, steps[0]) && IsRun(After(s, steps[0]), steps[1..]))
  }

  ghost function RunAll(s: Hub, steps: seq<Step>): Hub
    requires IsRun(s, steps)
    decreases steps
  {
    if steps == [] then s else RunAll(After(s, steps[0]), steps[1..])
  }

  // ---------------------------------------------------------------- what is counted

  predicate Waits(rows: Rows, k: Key) {
    k !in rows || rows[k].status == Queued
  }

  /** The poller is between accept and put. */
  predicate Holds(x: Work, k: Key) {
    x.Taken? && x.todo != [] && x.todo[0].key == k
  }

  ghost predicate Flying(s: Hub, k: Key) {
    exists p | p in s.work :: Holds(s.work[p], k)
  }

  /** The step of a poller is about the key. */
  predicate Concerns(s: Hub, t: Step, k: Key) {
    !t.List? && !t.Other? && At(s, t.p) && s.work[t.p].todo[0].key == k
  }

  datatype What =
    // accept returned
    | Accepting
    // a kill, or a put that raised, between accept and put
    | Losing
    // an accept that another poller has got ahead of, or a failure noted on a row that is not queued any more
    | Overlapping
    // a failure was committed
    | Noting
    // reading, checking or accepting raised
    | Failing

  ghost predicate Is(what: What, s: Hub, t: Step, k: Key) {
    Concerns(s, t, k)
    && match what
       case Accepting => t.Accept?
       case Losing => (t.Fail? || t.Leave?) && s.work[t.p].Taken?
       case Overlapping => (t.Accept? && (Flying(s, k) || !Waits(s.rows, k))) || (t.Note? && !Waits(s.rows, k))
       case Noting => t.Note?
       case Failing => t.Fail? && s.work[t.p].Next?
  }

  ghost function One(b: bool): nat {
    if b then 1 else 0
  }

  ghost function Count(what: What, s: Hub, steps: seq<Step>, k: Key): nat
    requires IsRun(s, steps)
    decreases steps
  {
    if steps == [] then 0 else One(Is(what, s, steps[0], k)) + Count(what, After(s, steps[0]), steps[1..], k)
  }

  // ---------------------------------------------------------------- how often a message is handed over

  /** The message waits, and nobody is between its accept and its put. */
  ghost predicate Open(s: Hub, k: Key) {
    Waits(s.rows, k) && !Flying(s, k)
  }

  /** Only a failure that is noted makes a message wait again. */
  lemma WaitsOn(s: Hub, t: Step, k: Key)
    requires Enabled(s, t) && Waits(After(s, t).rows, k)
    ensures Waits(s.rows, k) || Is(Overlapping, s, t, k)
  {
    if t.Other? && t.e.IngestEvent? {
      IngestKeeps(s.rows, t.e.mail, t.e.now, k);
    }
  }

  lemma FlyingOn(s: Hub, t: Step, k: Key)
    requires Enabled(s, t) && Flying(s, k)
    ensures Flying(After(s, t), k) || (t.Save? && Concerns(s, t, k)) || Is(Losing, s, t, k)
  {
    var p :| p in s.work && Holds(s.work[p], k);
    if !t.Other? && !t.List? && t.p == p {
      assert Concerns(s, t, k);
    } else {
      assert p in After(s, t).work && After(s, t).work[p] == s.work[p];
    }
  }

  lemma StepAccounts(s: Hub, t: Step, k: Key)
    requires Enabled(s, t)
    ensures One(Is(Accepting, s, t, k)) + One(Open(After(s, t), k))
            <= One(Open(s, k)) + One(Is(Losing, s, t, k)) + One(Is(Overlapping, s, t, k))
  {
    if Is(Accepting, s, t, k) {
      assert Holds(After(s, t).work[t.p], k);
    } else if Open(After(s, t), k) && !Open(s, k) {
      WaitsOn(s, t, k);
      if Flying(s, k) {
        FlyingOn(s, t, k);
      }
    }
  }

  /** With any number of pollers, kills anywhere and writes that raise: accept returns for a message at most
      once, and once more for each time that a poller was killed or its put raised after an accept, or that
      two pollers got in each other's way. */
  lemma {:induction false} AcceptsAccounted(s: Hub, steps: seq<Step>, k: Key)
    requires IsRun(s, steps)
    ensures Count(Accepting, s, steps, k) + One(Open(RunAll(s, steps), k))
            <= One(Open(s, k)) + Count(Losing, s, steps, k) + Count(Overlapping, s, steps, k)
    decreases steps
  {
    if steps != [] {
      StepAccounts(s, steps[0], k);
      AcceptsAccounted(After(s, steps[0]), steps[1..], k);
    }
  }

  // ---------------------------------------------------------------- how many failures are committed

  /** The failures that can still be committed, up to the limit of five. */
  function Left(rows: Rows, k: Key): nat {
    if TurnAttempts(rows, k) < 5 then 5 - TurnAttempts(rows, k) else if Waits(rows, k) then 1 else 0
  }

  lemma StepLeaves(s: Hub, t: Step, k: Key)
    requires Enabled(s, t)
    ensures One(Is(Noting, s, t, k)) + Left(After(s, t).rows, k) <= Left(s.rows, k) + One(Is(Overlapping, s, t, k))
  {
    if t.Other? {
      ApplyKeeps(s.rows, t.e, k);
      if Waits(After(s, t).rows, k) {
        WaitsOn(s, t, k);
      }
    }
  }

  /** At most five failures of a message are ever committed, whatever its first attempts were. */
  lemma {:induction false} FailuresBounded(s: Hub, steps: seq<Step>, k: Key)
    requires IsRun(s, steps)
    ensures Count(Noting, s, steps, k) + Left(RunAll(s, steps).rows, k)
            <= Left(s.rows, k) + Count(Overlapping, s, steps, k)
    ensures Left(s.rows, k) <= 5
    decreases steps
  {
    if steps != [] {
      StepLeaves(s, steps[0], k);
      FailuresBounded(After(s, steps[0]), steps[1..], k);
    }
  }

  // ---------------------------------------------------------------- one poller at a time

  /** Nobody else is at work when a round starts, and the ledger is left alone during a round. */
  predicate AloneStep(s: Hub, t: Step) {
    t.List? || t.Other? ==> s.work == map[]
  }

  ghost predicate AloneRun(s: Hub, steps: seq<Step>)
    decreases steps
  {
    steps == [] || (Enabled(s, steps[0]) && AloneStep(s, steps[0]) && AloneRun(After(s, steps[0]), steps[1..]))
  }

  lemma {:induction false} AloneIsRun(s: Hub, steps: seq<Step>)
    requires AloneRun(s, steps)
    ensures IsRun(s, steps)
    decreases steps
  {
    if steps != [] {
      AloneIsRun(After(s, steps[0]), steps[1..]);
    }
  }

  /** What the poller has listed is still so. */
  ghost predicate Current(rows: Rows, x: Work) {
    Due(rows, x.todo) && (x.Next? || (x.todo != [] && Ordinary(x.todo[0])))
  }

  ghost predicate Single(s: Hub) {
    && (forall p, q | p in s.work && q in s.work :: p == q)
    && forall p | p in s.work :: Current(s.rows, s.work[p])
  }

  /** Writing the row of the first arrival leaves the others as listed. */
  lemma RestCurrent(before: Rows, after: Rows, todo: seq<Arrival>)
    requires todo != [] && Due(before, todo)
    requires forall k | k != todo[0].key && k in before :: k in after && after[k] == before[k]
    ensures Due(after, todo[1..])
  {
    forall i | 0 <= i < |todo[1..]|
      ensures todo[1..][i].key in after
      ensures after[todo[1..][i].key].status == (if todo[1..][i].processing then Processing else Queued)
    {
      assert todo[1..][i] == todo[i + 1] && todo[0].key != todo[i + 1].key;
    }
  }

  lemma SingleStays(s: Hub, t: Step)
    requires Single(s) && Enabled(s, t) && AloneStep(s, t)
    ensures Single(After(s, t))
  {
    var z := After(s, t);
    if !t.List? && !t.Other? && t.p in s.work {
      var x := s.work[t.p];
      assert Current(s.rows, x);
      if x.todo != [] && t.p in z.work && z.work[t.p].todo == x.todo[1..] && z.work[t.p].Next? {
        RestCurrent(s.rows, z.rows, x.todo);
      }
    }
  }

  lemma SingleNeverOverlaps(s: Hub, t: Step, k: Key)
    requires Single(s) && Enabled(s, t)
    ensures !Is(Overlapping, s, t, k)
  {
    if Concerns(s, t, k) {
      assert Current(s.rows, s.work[t.p]);
      assert s.work[t.p].Next? ==> !Flying(s, k);
    }
  }

  lemma {:induction false} AloneNeverOverlaps(s: Hub, steps: seq<Step>, k: Key)
    requires Single(s) && IsRun(s, steps) && AloneRun(s, steps)
    ensures Count(Overlapping, s, steps, k) == 0 && Single(RunAll(s, steps))
    decreases steps
  {
    if steps != [] {
      SingleStays(s, steps[0]);
      SingleNeverOverlaps(s, steps[0], k);
      AloneNeverOverlaps(After(s, steps[0]), steps[1..], k);
    }
  }

  /** One poller at a time, from any ledger: accept returns at most once more than there are kills and
      failing puts between an accept and its put; so at most once if there are none. At most five failures
      are committed. */
  lemma AcceptsBounded(rows: Rows, steps: seq<Step>, k: Key)
    requires AloneRun(Hub(rows, map[]), steps)
    ensures IsRun(Hub(rows, map[]), steps)
    ensures Count(Accepting, Hub(rows, map[]), steps, k)
            <= One(Waits(rows, k)) + Count(Losing, Hub(rows, map[]), steps, k)
    ensures Count(Noting, Hub(rows, map[]), steps, k) <= Left(rows, k) <= 5
  {
    var s := Hub(rows, map[]);
    AloneIsRun(s, steps);
    AloneNeverOverlaps(s, steps, k);
    AcceptsAccounted(s, steps, k);
    FailuresBounded(s, steps, k);
  }

  // ---------------------------------------------------------------- when it is handed over again

  /** A row that is neither queued nor in flight is done with. */
  lemma {:induction false} NeverAgain(s: Hub, steps: seq<Step>, k: Key)
    requires Single(s) && !Waits(s.rows, k) && !Flying(s, k) && IsRun(s, steps) && AloneRun(s, steps)
    ensures Count(Accepting, s, steps, k) == 0 && !Waits(RunAll(s, steps).rows, k)
    decreases steps
  {
    if steps != [] {
      var t := steps[0];
      SingleStays(s, t);
      SingleNeverOverlaps(s, t, k);
      StepAccounts(s, t, k);
      if Waits(After(s, t).rows, k) {
        WaitsOn(s, t, k);
      }
      assert !Is(Losing, s, t, k);
      assert !Is(Accepting, s, t, k);
      NotFlying(s, t, k);
      NeverAgain(After(s, t), steps[1..], k);
    }
  }

  lemma NotFlying(s: Hub, t: Step, k: Key)
    requires Enabled(s, t) && !Flying(s, k) && !Is(Accepting, s, t, k)
    ensures !Flying(After(s, t), k)
  {
    forall p | p in After(s, t).work ensures !Holds(After(s, t).work[p], k) {
      if p in s.work && After(s, t).work[p] == s.work[p] {
        assert !Holds(s.work[p], k);
      }
    }
  }

  /** The steps that hand over a queued message. */
  function Again(k: Key): seq<Step> {
    [List(0, [Arrival(k, false)]), Accept(0)]
  }

  ghost predicate CanFollow(s: Hub, later: seq<Step>, k: Key) {
    AloneRun(s, later) && IsRun(s, later) && Count(Accepting, s, later, k) > 0
  }

  /** Exactly when a message can be handed over (again) from a state with nobody at work: while its row is
      queued, or not there yet. */
  lemma HandedOverIff(s: Hub, id: string)
    requires s.work == map[] && Message(id) != WELCOME
    ensures (exists later :: CanFollow(s, later, Message(id))) <==> Waits(s.rows, Message(id))
  {
    var k := Message(id);
    if Waits(s.rows, k) {
      if k in s.rows {
        AgainRuns(s, k);
        assert CanFollow(s, Again(k), k);
      } else {
        var e := Other(IngestEvent([Mail(id, "")], 0.0));
        var z := After(s, e);
        IngestOne(s.rows, id);
        AgainRuns(z, k);
        var later := [e] + Again(k);
        assert later[1..] == Again(k);
        assert CanFollow(s, later, k);
      }
    } else if later :| CanFollow(s, later, k) {
      NeverAgain(s, later, k);
    }
  }

  /** A message that was handed over can be handed over again exactly if its row still waits, and then each
      hand-over so far was followed by a kill or a failing put. */
  lemma HandedOverAgainIff(rows: Rows, steps: seq<Step>, id: string)
    requires AloneRun(Hub(rows, map[]), steps) && IsRun(Hub(rows, map[]), steps) && Message(id) != WELCOME
    requires RunAll(Hub(rows, map[]), steps).work == map[]
    ensures var s, z := Hub(rows, map[]), RunAll(Hub(rows, map[]), steps);
            && ((exists later :: CanFollow(z, later, Message(id))) <==> Waits(z.rows, Message(id)))
            && (Waits(z.rows, Message(id)) ==>
                  Count(Accepting, s, steps, Message(id)) <= Count(Losing, s, steps, Message(id)))
  {
    var s := Hub(rows, map[]);
    HandedOverIff(RunAll(s, steps), id);
    AloneNeverOverlaps(s, steps, Message(id));
    AcceptsAccounted(s, steps, Message(id));
  }

  lemma IngestOne(rows: Rows, id: string)
    requires Message(id) !in rows
    ensures var after := AfterIngest(rows, [Mail(id, "")], 0.0);
            Message(id) in after && after[Message(id)].status == Queued
  {
    var mail := [Mail(id, "")];
    assert mail[..0] == [];
    assert AfterIngest(rows, mail[..0], 0.0) == rows;
  }

  lemma BeforeCount(s: Hub, t: Step, rest: seq<Step>, what: What, k: Key)
    requires Enabled(s, t) && IsRun(After(s, t), rest)
    ensures IsRun(s, [t] + rest) && RunAll(s, [t] + rest) == RunAll(After(s, t), rest)
    ensures AloneStep(s, t) && AloneRun(After(s, t), rest) ==> AloneRun(s, [t] + rest)
    ensures Count(what, s, [t] + rest, k) == One(Is(what, s, t, k)) + Count(what, After(s, t), rest, k)
  {
    assert ([t] + rest)[1..] == rest;
  }

  /** A run that starts with one more step. */
  lemma Before(s: Hub, t: Step, rest: seq<Step>)
    requires Enabled(s, t) && IsRun(After(s, t), rest)
    ensures IsRun(s, [t] + rest) && RunAll(s, [t] + rest) == RunAll(After(s, t), rest)
    ensures AloneStep(s, t) && AloneRun(After(s, t), rest) ==> AloneRun(s, [t] + rest)
    ensures forall what, k ::
              Count(what, s, [t] + rest, k) == One(Is(what, s, t, k)) + Count(what, After(s, t), rest, k)
  {
    BeforeCount(s, t, rest, Accepting, WELCOME);
    forall what, k
      ensures Count(what, s, [t] + rest, k) == One(Is(what, s, t, k)) + Count(what, After(s, t), rest, k)
    {
      BeforeCount(s, t, rest, what, k);
    }
  }

  lemma AgainRuns(s: Hub, k: Key)
    requires s.work == map[] && k in s.rows && s.rows[k].status == Queued && k != WELCOME
    ensures AloneRun(s, Again(k)) && IsRun(s, Again(k))
    ensures RunAll(s, Again(k)) == Hub(s.rows, map[0 := Taken([Arrival(k, false)])])
    ensures forall what :: Count(what, s, Again(k), k) == One(what == Accepting)
  {
    var list := List(0, [Arrival(k, false)]);
    var v := After(s, list);
    assert !Flying(v, k);
    Before(v, Accept(0), []);
    Before(s, list, [Accept(0)]);
    assert [list] + [Accept(0)] == Again(k) && [Accept(0)] + [] == [Accept(0)];
  }

  /** What an event between accept and put leaves: after a kill the message waits to be handed over again;
      after a put that raised it does so exactly if its failure, once noted, is not the fifth. */
  lemma LostMeans(s: Hub, t: Step, k: Key, now: real)
    requires Single(s) && Enabled(s, t) && Is(Losing, s, t, k)
    ensures t.Leave? ==> After(s, t).work == map[] && Waits(After(s, t).rows, k)
    ensures t.Fail? ==>
              && Enabled(After(s, t), Note(t.p, now))
              && (Waits(After(After(s, t), Note(t.p, now)).rows, k) <==> TurnAttempts(s.rows, k) + 1 < 5)
  {
    assert Current(s.rows, s.work[t.p]);
    if t.Leave? {
      assert forall q | q in s.work :: q == t.p;
    }
  }

  /** Once a round has stopped an interrupted turn, its message is never handed over. */
  lemma InterruptedIsStopped(s: Hub, p: Pid, now: real, later: seq<Step>, k: Key)
    requires Single(s) && Enabled(s, Stop(p, now)) && Concerns(s, Stop(p, now), k)
    requires IsRun(After(s, Stop(p, now)), later) && AloneRun(After(s, Stop(p, now)), later)
    ensures k in After(s, Stop(p, now)).rows && After(s, Stop(p, now)).rows[k].status == Failed
    ensures Count(Accepting, After(s, Stop(p, now)), later, k) == 0
  {
    assert Current(s.rows, s.work[p]);
    SingleStays(s, Stop(p, now));
    assert !Flying(s, k);
    NotFlying(s, Stop(p, now), k);
    NeverAgain(After(s, Stop(p, now)), later, k);
  }

  // ---------------------------------------------------------------- runs that hand over more than once

  lemma {:induction false} RunOn(s: Hub, a: seq<Step>, b: seq<Step>)
    requires IsRun(s, a) && IsRun(RunAll(s, a), b)
    ensures IsRun(s, a + b) && RunAll(s, a + b) == RunAll(RunAll(s, a), b)
    ensures forall what, k :: Count(what, s, a + b, k) == Count(what, s, a, k) + Count(what, RunAll(s, a), b, k)
    decreases a
  {
    if a == [] {
      assert a + b == b;
    } else {
      RunOn(After(s, a[0]), a[1..], b);
      assert (a + b)[1..] == a[1..] + b;
    }
  }

  lemma {:induction false} AloneOn(s: Hub, a: seq<Step>, b: seq<Step>)
    requires AloneRun(s, a) && IsRun(s, a) && AloneRun(RunAll(s, a), b)
    ensures AloneRun(s, a + b)
    decreases a
  {
    if a == [] {
      assert a + b == b;
    } else {
      AloneOn(After(s, a[0]), a[1..], b);
      assert (a + b)[1..] == a[1..] + b;
    }
  }

  /** n rounds that are killed between accept and put. */
  function Killed(k: Key, n: nat): seq<Step> {
    if n == 0 then [] else Again(k) + [Leave(0)] + Killed(k, n - 1)
  }

  /** A round that is killed right after its accept leaves the ledger as it was. */
  lemma KilledOnce(s: Hub, k: Key)
    requires s.work == map[] && k in s.rows && s.rows[k].status == Queued && k != WELCOME
    ensures var round := Again(k) + [Leave(0)];
            && AloneRun(s, round) && IsRun(s, round) && RunAll(s, round) == s
            && Count(Accepting, s, round, k) == 1 && Count(Losing, s, round, k) == 1
  {
    AgainRuns(s, k);
    Before(RunAll(s, Again(k)), Leave(0), []);
    assert [Leave(0)] + [] == [Leave(0)] && After(RunAll(s, Again(k)), Leave(0)) == s;
    RunOn(s, Again(k), [Leave(0)]);
    AloneOn(s, Again(k), [Leave(0)]);
  }

  /** The bound is met: for every n there is a run of one poller at a time, with n kills between accept and
      put, that hands a queued message over n + 1 times. */
  lemma {:induction false} KillsHandOverAgain(s: Hub, k: Key, n: nat)
    requires s.work == map[] && k in s.rows && s.rows[k].status == Queued && k != WELCOME
    ensures var steps := Killed(k, n) + Again(k);
            && AloneRun(s, steps) && IsRun(s, steps)
            && Count(Accepting, s, steps, k) == n + 1 && Count(Losing, s, steps, k) == n
  {
    AgainRuns(s, k);
    if n == 0 {
      assert Killed(k, 0) + Again(k) == Again(k);
    } else {
      var round, rest := Again(k) + [Leave(0)], Killed(k, n - 1) + Again(k);
      KilledOnce(s, k);
      KillsHandOverAgain(s, k, n - 1);
      RunOn(s, round, rest);
      AloneOn(s, round, rest);
      assert Killed(k, n) + Again(k) == round + rest;
    }
  }

  /** The rest of a round whose put raised, and another run. */
  lemma PutRaises(v: Hub, k: Key, now: real, rest: seq<Step>, what: What)
    requires v.work == map[0 := Taken([Arrival(k, false)])] && k in v.rows && (what == Accepting || what == Losing)
    requires var z := Hub(AfterHandoffFailed(v.rows, k, "native_handoff_failed", 5, now), map[]);
             AloneRun(z, rest) && IsRun(z, rest)
    ensures var z := Hub(AfterHandoffFailed(v.rows, k, "native_handoff_failed", 5, now), map[]);
            var tail := [Fail(0)] + ([Note(0, now)] + ([Leave(0)] + rest));
            && AloneRun(v, tail) && IsRun(v, tail)
            && Count(what, v, tail, k) == Count(what, z, rest, k) + One(what == Losing)
  {
    var v1 := After(v, Fail(0));
    var v2 := After(v1, Note(0, now));
    assert After(v2, Leave(0)) == Hub(v2.rows, map[]);
    BeforeCount(v2, Leave(0), rest, what, k);
    BeforeCount(v1, Note(0, now), [Leave(0)] + rest, what, k);
    BeforeCount(v, Fail(0), [Note(0, now)] + ([Leave(0)] + rest), what, k);
  }

  /** A put that raises is enough: the hand-over counts as failed and is repeated. */
  lemma FailedPutHandsOverAgain(s: Hub, k: Key, now: real) returns (steps: seq<Step>)
    requires s.work == map[] && k in s.rows && s.rows[k].status == Queued && k != WELCOME
    requires s.rows[k].turnAttempts + 1 < 5
    ensures AloneRun(s, steps) && IsRun(s, steps)
    ensures Count(Accepting, s, steps, k) == 2 && Count(Losing, s, steps, k) == 1
  {
    AgainRuns(s, k);
    AgainRuns(Hub(AfterHandoffFailed(s.rows, k, "native_handoff_failed", 5, now), map[]), k);
    PutRaises(RunAll(s, Again(k)), k, now, Again(k), Accepting);
    PutRaises(RunAll(s, Again(k)), k, now, Again(k), Losing);
    var tail := [Fail(0)] + ([Note(0, now)] + ([Leave(0)] + Again(k)));
    RunOn(s, Again(k), tail);
    AloneOn(s, Again(k), tail);
    steps := Again(k) + tail;
  }

  /** n rounds in which accept raises, each killed before that is noted. */
  function Unnoted(k: Key, n: nat): seq<Step> {
    if n == 0 then [] else [List(0, [Arrival(k, false)])] + ([Fail(0)] + ([Leave(0)] + Unnoted(k, n - 1)))
  }

  lemma BreakAndLeave(v: Hub, k: Key, rest: seq<Step>)
    requires v.work == map[0 := Next([Arrival(k, false)])] && k != WELCOME
    requires AloneRun(Hub(v.rows, map[]), rest) && IsRun(Hub(v.rows, map[]), rest)
    ensures var z, steps := Hub(v.rows, map[]), [Fail(0)] + ([Leave(0)] + rest);
            && AloneRun(v, steps) && IsRun(v, steps) && RunAll(v, steps) == RunAll(z, rest)
            && Count(Failing, v, steps, k) == Count(Failing, z, rest, k) + 1
            && Count(Noting, v, steps, k) == Count(Noting, z, rest, k)
  {
    var v1 := After(v, Fail(0));
    assert After(v1, Leave(0)) == Hub(v.rows, map[]);
    BeforeCount(v1, Leave(0), rest, Failing, k);
    BeforeCount(v1, Leave(0), rest, Noting, k);
    BeforeCount(v, Fail(0), [Leave(0)] + rest, Failing, k);
    BeforeCount(v, Fail(0), [Leave(0)] + rest, Noting, k);
  }

  lemma UnnotedOnce(s: Hub, k: Key, rest: seq<Step>)
    requires s.work == map[] && k in s.rows && s.rows[k].status == Queued && k != WELCOME
    requires AloneRun(s, rest) && IsRun(s, rest)
    ensures var steps := [List(0, [Arrival(k, false)])] + ([Fail(0)] + ([Leave(0)] + rest));
            && AloneRun(s, steps) && IsRun(s, steps) && RunAll(s, steps) == RunAll(s, rest)
            && Count(Failing, s, steps, k) == Count(Failing, s, rest, k) + 1
            && Count(Noting, s, steps, k) == Count(Noting, s, rest, k)
  {
    var list, a := List(0, [Arrival(k, false)]), [Arrival(k, false)];
    var v := Hub(s.rows, map[0 := Next(a)]);
    assert Enabled(s, list) && After(s, list) == v;
    BreakAndLeave(v, k, rest);
    Before(s, list, [Fail(0)] + ([Leave(0)] + rest));
  }

  /** Only committed failures count: a message can fail any number of times without one. */
  lemma {:induction false} FailuresUncounted(s: Hub, k: Key, n: nat)
    requires s.work == map[] && k in s.rows && s.rows[k].status == Queued && k != WELCOME
    ensures AloneRun(s, Unnoted(k, n)) && IsRun(s, Unnoted(k, n)) && RunAll(s, Unnoted(k, n)) == s
    ensures Count(Failing, s, Unnoted(k, n), k) == n && Count(Noting, s, Unnoted(k, n), k) == 0
  {
    if n > 0 {
      FailuresUncounted(s, k, n - 1);
      UnnotedOnce(s, k, Unnoted(k, n - 1));
    }
  }

  /** Two pollers with the same message listed hand it over twice, without any kill. */
  lemma TwoPollersHandOver(s: Hub, k: Key) returns (steps: seq<Step>)
    requires s.work == map[] && k in s.rows && s.rows[k].status == Queued && k != WELCOME
    ensures IsRun(s, steps) && Count(Accepting, s, steps, k) == 2 && Count(Losing, s, steps, k) == 0
  {
    var a := [Arrival(k, false)];
    var s1 := After(s, List(0, a));
    var s2 := After(s1, List(1, a));
    var s3 := After(s2, Accept(0));
    Before(s3, Accept(1), []);
    Before(s2, Accept(0), [Accept(1)] + []);
    Before(s1, List(1, a), [Accept(0)] + ([Accept(1)] + []));
    Before(s, List(0, a), [List(1, a)] + ([Accept(0)] + ([Accept(1)] + [])));
    steps := [List(0, a)] + ([List(1, a)] + ([Accept(0)] + ([Accept(1)] + [])));
  }

  // ---------------------------------------------------------------- one round

  /** What became of one arrival whose row was written: Unsaved if accept returned and the put raised. */
  datatype Outcome = Untrusted | Accepted | Unsaved | Full | Raised

  /** What becomes of the row: an interrupted turn is stopped for good, back-pressure costs nothing,
      and a failed hand-off uses one of five attempts. */
  function Settle(rows: Rows, a: Arrival, o: Outcome, now: real): Rows {
    if a.key == WELCOME then rows
    else if a.processing then AfterHandoffFailed(rows, a.key, "framework_switch_interrupted_turn", 0, now)
    else
      match o
      case Untrusted => AfterPut(rows, a.key, Done, None, now)
      case Accepted => AfterPut(rows, a.key, Done, None, now)
      case Full => AfterDeferHandoff(rows, a.key, now)
      case Unsaved => AfterHandoffFailed(rows, a.key, "native_handoff_failed", 5, now)
      case Raised => AfterHandoffFailed(rows, a.key, "native_handoff_failed", 5, now)
  }

  predicate Hands(a: Arrival, o: Outcome) {
    Ordinary(a) && o in {Accepted, Unsaved}
  }

  function SettleAll(rows: Rows, arrivals: seq<Arrival>, outcomes: seq<Outcome>, now: real): Rows
    requires |outcomes| == |arrivals|
  {
    if arrivals == [] then rows
    else
      var n := |arrivals| - 1;
      Settle(SettleAll(rows, arrivals[..n], outcomes[..n], now), arrivals[n], outcomes[n], now)
  }

  function HandedOver(arrivals: seq<Arrival>, outcomes: seq<Outcome>): seq<Key>
    requires |outcomes| == |arrivals|
  {
    if arrivals == [] then []
    else
      var n := |arrivals| - 1;
      HandedOver(arrivals[..n], outcomes[..n]) + if Hands(arrivals[n], outcomes[n]) then [arrivals[n].key] else []
  }

  /** One call: it happens, raises, or the process dies before it has an effect. */
  datatype Fate = Happens | Raises | Dies

  /** What reading and checking a message, and offering it to the runtime, come to. */
  datatype Answer = Trusted | NotTrusted | NoRoom | Error | Death

  /** The steps of one arrival are a run of the pollers' machine from before it to after it, or to the end
      of the round; accept returned in it exactly if taken. */
  ghost predicate Handled(before: Rows, after: Rows, todo: seq<Arrival>, acts: seq<Step>, alive: bool, taken: bool) {
    var s := Hub(before, map[0 := Next(todo)]);
    && todo != [] && IsRun(s, acts)
    && RunAll(s, acts) == Hub(after, if alive then map[0 := Next(todo[1..])] else map[])
    && forall k :: Count(Accepting, s, acts, k) == One(taken && k == todo[0].key)
  }

  lemma ActsOne(before: Rows, after: Rows, todo: seq<Arrival>, t: Step)
    requires todo != [] && !t.Accept? && !t.List? && !t.Other?
    requires var s := Hub(before, map[0 := Next(todo)]);
             Enabled(s, t) && After(s, t) == Hub(after, if t.Leave? then map[] else map[0 := Next(todo[1..])])
    ensures Handled(before, after, todo, [t], !t.Leave?, false)
  {
    Before(Hub(before, map[0 := Next(todo)]), t, []);
    assert [t] + [] == [t];
  }

  lemma ActsTwo(before: Rows, after: Rows, todo: seq<Arrival>, t: Step, u: Step)
    requires todo != [] && (t == Accept(0) || t == Crowd(0)) && Ordinary(todo[0]) && !u.Accept?
    requires var s := After(Hub(before, map[0 := Next(todo)]), t);
             Enabled(s, u) && After(s, u) == Hub(after, if u.Leave? then map[] else map[0 := Next(todo[1..])])
    ensures Handled(before, after, todo, [t, u], !u.Leave?, t.Accept?)
  {
    var s := Hub(before, map[0 := Next(todo)]);
    Before(After(s, t), u, []);
    Before(s, t, [u] + []);
    assert [t] + ([u] + []) == [t, u];
  }

  lemma BreaksSo(rows: Rows, todo: seq<Arrival>, taken: bool)
    requires todo != [] && Ordinary(todo[0])
    ensures Breaks(rows, todo, if taken then [Accept(0), Fail(0)] else [Fail(0)], taken)
  {
    var s := Hub(rows, map[0 := Next(todo)]);
    if taken {
      Before(After(s, Accept(0)), Fail(0), []);
      Before(s, Accept(0), [Fail(0)] + []);
      assert [Accept(0)] + ([Fail(0)] + []) == [Accept(0), Fail(0)];
    } else {
      Before(s, Fail(0), []);
      assert [Fail(0)] + [] == [Fail(0)];
    }
  }

  /** The steps up to here have brought the poller to a failure that is to be noted. */
  ghost predicate Breaks(rows: Rows, todo: seq<Arrival>, acts: seq<Step>, taken: bool) {
    var s := Hub(rows, map[0 := Next(todo)]);
    && todo != [] && IsRun(s, acts) && RunAll(s, acts) == Hub(rows, map[0 := Broken(todo)])
    && forall k :: Count(Accepting, s, acts, k) == One(taken && k == todo[0].key)
  }

  /** The handler of every other exception; a write that raises here ends the round. */
  method NoteFailure(state: InboxState, todo: seq<Arrival>, now: real, ghost acts: seq<Step>, ghost taken: bool)
    returns (alive: bool, ghost all: seq<Step>)
    requires todo != [] && todo[0].key in state.rows && Ordinary(todo[0])
    requires acts == if taken then [Accept(0), Fail(0)] else [Fail(0)]
    modifies state`rows
    ensures Handled(old(state.rows), state.rows, todo, all, alive, taken)
    ensures state.rows == if alive then old(Settle(state.rows, todo[0], Raised, now)) else old(state.rows)
  {
    ghost var before := state.rows;
    BreaksSo(before, todo, taken);
    var noted: Fate := *;
    alive := noted == Happens;
    if alive {
      var failed := state.NativeHandoffFailed(todo[0].key, "native_handoff_failed", 5, now);
    }
    ghost var last := if alive then Note(0, now) else Leave(0);
    all := acts + [last];
    var s := Hub(before, map[0 := Broken(todo)]);
    Before(s, last, []);
    assert [last] + [] == [last];
    RunOn(Hub(before, map[0 := Next(todo)]), acts, [last]);
  }

  /** A turn that was interrupted is stopped for good. */
  method StopTurn(state: InboxState, todo: seq<Arrival>, now: real) returns (alive: bool, ghost acts: seq<Step>)
    requires todo != [] && todo[0].key in state.rows && todo[0].processing && todo[0].key != WELCOME
    modifies state`rows
    ensures Handled(old(state.rows), state.rows, todo, acts, alive, false)
    ensures state.rows == if alive then old(Settle(state.rows, todo[0], Untrusted, now)) else old(state.rows)
  {
    ghost var before := state.rows;
    var fate: Fate := *;
    alive := fate == Happens;
    if alive {
      var failed := state.NativeHandoffFailed(todo[0].key, "framework_switch_interrupted_turn", 0, now);
    }
    ghost var act := if alive then Stop(0, now) else Leave(0);
    acts := [act];
    ActsOne(before, state.rows, todo, act);
  }

  /** Mail that is not the owner's, or automatic, is done with. */
  method RejectMail(state: InboxState, todo: seq<Arrival>, now: real)
    returns (o: Outcome, alive: bool, ghost acts: seq<Step>)
    requires todo != [] && todo[0].key in state.rows && Ordinary(todo[0])
    modifies state`rows
    ensures Handled(old(state.rows), state.rows, todo, acts, alive, false)
    ensures state.rows == if alive then old(Settle(state.rows, todo[0], o, now)) else old(state.rows)
    ensures o in {Untrusted, Raised}
  {
    ghost var before := state.rows;
    var put: Fate := *;
    if put == Raises {
      o := Raised;
      alive, acts := NoteFailure(state, todo, now, [Fail(0)], false);
      return;
    }
    o, alive := Untrusted, put == Happens;
    if alive {
      state.Put(todo[0].key, Done, None, now);
    }
    ghost var act := if alive then Reject(0, now) else Leave(0);
    acts := [act];
    ActsOne(before, state.rows, todo, act);
  }

  /** The runtime has no room: the row waits, and no attempt is used. */
  method DeferMail(state: InboxState, todo: seq<Arrival>, now: real) returns (alive: bool, ghost acts: seq<Step>)
    requires todo != [] && todo[0].key in state.rows && Ordinary(todo[0])
    modifies state`rows
    ensures Handled(old(state.rows), state.rows, todo, acts, alive, false)
    ensures state.rows == if alive then old(Settle(state.rows, todo[0], Full, now)) else old(state.rows)
  {
    ghost var before := state.rows;
    var fate: Fate := *;
    alive := fate == Happens;
    if alive {
      state.DeferNativeHandoff(todo[0].key, now);
    }
    ghost var act := if alive then Defer(0, now) else Leave(0);
    acts := [Crowd(0), act];
    ActsTwo(before, state.rows, todo, Crowd(0), act);
  }

  /** accept has returned; the row is written afterwards. */
  method SaveMail(state: InboxState, todo: seq<Arrival>, now: real)
    returns (o: Outcome, alive: bool, ghost acts: seq<Step>)
    requires todo != [] && todo[0].key in state.rows && Ordinary(todo[0])
    modifies state`rows
    ensures Handled(old(state.rows), state.rows, todo, acts, alive, true)
    ensures state.rows == if alive then old(Settle(state.rows, todo[0], o, now)) else old(state.rows)
    ensures o in {Accepted, Unsaved}
  {
    ghost var before := state.rows;
    var put: Fate := *;
    if put == Raises {
      o := Unsaved;
      alive, acts := NoteFailure(state, todo, now, [Accept(0), Fail(0)], true);
      return;
    }
    o, alive := Accepted, put == Happens;
    if alive {
      state.Put(todo[0].key, Done, None, now);
    }
    ghost var act := if alive then Save(0, now) else Leave(0);
    acts := [Accept(0), act];
    ActsTwo(before, state.rows, todo, Accept(0), act);
  }

  /** One arrival. alive: the round goes on; taken: accept returned. */
  method HandOne(state: InboxState, todo: seq<Arrival>, now: real)
    returns (o: Outcome, alive: bool, taken: bool, ghost acts: seq<Step>)
    requires todo != [] && todo[0].key in state.rows
    modifies state`rows
    ensures Handled(old(state.rows), state.rows, todo, acts, alive, taken)
    ensures state.rows == if alive then old(Settle(state.rows, todo[0], o, now)) else old(state.rows)
    ensures alive ==> (taken <==> Hands(todo[0], o))
  {
    o, alive, taken := Untrusted, true, false;
    if todo[0].key == WELCOME {
      acts := [Pass(0)];
      ActsOne(state.rows, state.rows, todo, Pass(0));
      return;
    }
    if todo[0].processing {
      alive, acts := StopTurn(state, todo, now);
      return;
    }
    var answer: Answer := *;
    match answer {
      case Death =>
        alive, acts := false, [Leave(0)];
        ActsOne(state.rows, state.rows, todo, Leave(0));
      case NotTrusted =>
        o, alive, acts := RejectMail(state, todo, now);
      case NoRoom =>
        o := Full;
        alive, acts := DeferMail(state, todo, now);
      case Error =>
        o := Raised;
        alive, acts := NoteFailure(state, todo, now, [Fail(0)], false);
      case Trusted =>
        taken := true;
        o, alive, acts := SaveMail(state, todo, now);
    }
  }

  /** The steps are a run of a poller with these arrivals, with an Accepting step for each hand-over. */
  ghost predicate Traced(start: Rows, arrivals: seq<Arrival>, steps: seq<Step>, rows: Rows, work: map<Pid, Work>,
                         accepted: seq<Key>)
  {
    var s := Hub(start, map[0 := Next(arrivals)]);
    && IsRun(s, steps) && RunAll(s, steps) == Hub(rows, work)
    && forall k :: Count(Accepting, s, steps, k) == multiset(accepted)[k]
  }

  lemma TraceOn(start: Rows, arrivals: seq<Arrival>, i: nat, steps: seq<Step>, before: Rows, accepted: seq<Key>,
                acts: seq<Step>, after: Rows, alive: bool, taken: bool)
    requires i < |arrivals| && Traced(start, arrivals, steps, before, map[0 := Next(arrivals[i..])], accepted)
    requires Handled(before, after, arrivals[i..], acts, alive, taken)
    ensures Traced(start, arrivals, steps + acts, after, if alive then map[0 := Next(arrivals[i + 1..])] else map[],
                   accepted + if taken then [arrivals[i].key] else [])
  {
    RunOn(Hub(start, map[0 := Next(arrivals)]), steps, acts);
    assert arrivals[i..][1..] == arrivals[i + 1..];
  }

  lemma TraceEnds(start: Rows, arrivals: seq<Arrival>, steps: seq<Step>, rows: Rows, accepted: seq<Key>)
    requires Traced(start, arrivals, steps, rows, map[0 := Next([])], accepted)
    ensures Traced(start, arrivals, steps + [Leave(0)], rows, map[], accepted)
  {
    var s := Hub(start, map[0 := Next(arrivals)]);
    Before(RunAll(s, steps), Leave(0), []);
    assert [Leave(0)] + [] == [Leave(0)];
    RunOn(s, steps, [Leave(0)]);
  }

  lemma RoundOn(rows: Rows, arrivals: seq<Arrival>, outcomes: seq<Outcome>, o: Outcome, now: real)
    requires |outcomes| < |arrivals|
    ensures var i := |outcomes|;
            && SettleAll(rows, arrivals[..i + 1], outcomes + [o], now)
               == Settle(SettleAll(rows, arrivals[..i], outcomes, now), arrivals[i], o, now)
            && HandedOver(arrivals[..i + 1], outcomes + [o])
               == HandedOver(arrivals[..i], outcomes) + if Hands(arrivals[i], o) then [arrivals[i].key] else []
  {
    var i := |outcomes|;
    assert arrivals[..i + 1][..i] == arrivals[..i] && (outcomes + [o])[..i] == outcomes;
  }

  lemma SettleKeepsRows(rows: Rows, a: Arrival, o: Outcome, now: real)
    ensures rows.Keys <= Settle(rows, a, o, now).Keys
  {
  }

  /** The loop over the arrivals, which are as the query gave them. The outcomes are those of the arrivals
      whose rows were written; the round may end earlier, with one more message handed over. */
  method HandOff(state: InboxState, arrivals: seq<Arrival>, now: real)
    returns (accepted: seq<Key>, outcomes: seq<Outcome>, ghost steps: seq<Step>)
    requires Due(state.rows, arrivals)
    modifies state`rows
    ensures |outcomes| <= |arrivals|
    ensures state.rows == old(SettleAll(state.rows, arrivals[..|outcomes|], outcomes, now))
    ensures var n := |outcomes|;
            || accepted == HandedOver(arrivals[..n], outcomes)
            || (n < |arrivals| && accepted == HandedOver(arrivals[..n], outcomes) + [arrivals[n].key])
    ensures Traced(old(state.rows), arrivals, steps, state.rows, map[], accepted)
  {
    accepted, outcomes, steps := [], [], [];
    ghost var start := state.rows;
    for i := 0 to |arrivals|
      invariant |outcomes| == i
      invariant state.rows == SettleAll(start, arrivals[..i], outcomes, now)
      invariant accepted == HandedOver(arrivals[..i], outcomes)
      invariant start.Keys <= state.rows.Keys
      invariant Traced(start, arrivals, steps, state.rows, map[0 := Next(arrivals[i..])], accepted)
    {
      ghost var before := state.rows;
      var o, alive, taken;
      ghost var acts;
      o, alive, taken, acts := HandOne(state, arrivals[i..], now);
      TraceOn(start, arrivals, i, steps, before, accepted, acts, state.rows, alive, taken);
      steps := steps + acts;
      accepted := accepted + if taken then [arrivals[i].key] else [];
      if !alive {
        return;
      }
      RoundOn(start, arrivals, outcomes, o, now);
      SettleKeepsRows(before, arrivals[i], o, now);
      outcomes := outcomes + [o];
    }
    TraceEnds(start, arrivals, steps, state.rows, accepted);
    steps := steps + [Leave(0)];
    assert arrivals[..|arrivals|] == arrivals;
  }

  lemma SettleElsewhere(rows: Rows, a: Arrival, o: Outcome, now: real, key: Key)
    requires key != a.key
    ensures key in Settle(rows, a, o, now) <==> key in rows
    ensures key in rows ==> Settle(rows, a, o, now)[key] == rows[key]
    ensures a.key in rows ==> a.key in Settle(rows, a, o, now)
  {
  }

  lemma {:induction false} SettleAllElsewhere(rows: Rows, arrivals: seq<Arrival>, outcomes: seq<Outcome>,
                                              now: real, key: Key)
    requires |outcomes| == |arrivals| && forall i | 0 <= i < |arrivals| :: arrivals[i].key != key
    ensures key in SettleAll(rows, arrivals, outcomes, now) <==> key in rows
    ensures key in rows ==> SettleAll(rows, arrivals, outcomes, now)[key] == rows[key]
  {
    if arrivals != [] {
      var n := |arrivals| - 1;
      SettleAllElsewhere(rows, arrivals[..n], outcomes[..n], now, key);
      SettleElsewhere(SettleAll(rows, arrivals[..n], outcomes[..n], now), arrivals[n], outcomes[n], now, key);
    }
  }

  /** One arrival never starves or changes another: each row ends as if it had been handled alone. */
  lemma {:induction false} EachSettledAlone(rows: Rows, arrivals: seq<Arrival>, outcomes: seq<Outcome>,
                                            now: real, i: nat)
    requires |outcomes| == |arrivals| && i < |arrivals| && arrivals[i].key in rows
    requires forall j | 0 <= j < |arrivals| && j != i :: arrivals[j].key != arrivals[i].key
    ensures var key := arrivals[i].key;
            && key in SettleAll(rows, arrivals, outcomes, now)
            && key in Settle(rows, arrivals[i], outcomes[i], now)
            && SettleAll(rows, arrivals, outcomes, now)[key] == Settle(rows, arrivals[i], outcomes[i], now)[key]
  {
    var n, key := |arrivals| - 1, arrivals[i].key;
    var before := SettleAll(rows, arrivals[..n], outcomes[..n], now);
    if i == n {
      SettleAllElsewhere(rows, arrivals[..n], outcomes[..n], now, key);
    } else {
      EachSettledAlone(rows, arrivals[..n], outcomes[..n], now, i);
      SettleElsewhere(before, arrivals[n], outcomes[n], now, key);
    }
  }

  /** What one arrival does to its own row: an interrupted turn ends it, a full inbox costs nothing, and a
      failed hand-off, or one whose put raised, costs one of five attempts. */
  lemma SettleMeans(rows: Rows, a: Arrival, o: Outcome, now: real)
    requires a.key in rows && rows[a.key].status == (if a.processing then Processing else Queued)
    requires a.key != WELCOME
    ensures var row, spent := rows[a.key], rows[a.key].turnAttempts + 1;
            var later := now + Backoff(spent);
            && later > now
            && Settle(rows, a, o, now)
               == rows[a.key :=
                    if a.processing then
                      row.(status := Failed, turnAttempts := spent, error := Some("framework_switch_interrupted_turn"),
                           updated := now, retryAt := later)
                    else
                      match o
                      case Untrusted => row.(status := Done, payload := None, updated := now)
                      case Accepted => row.(status := Done, payload := None, updated := now)
                      case Full => row.(retryAt := now + 60.0, updated := now)
                      case _ => row.(status := if spent >= 5 then Failed else Queued, turnAttempts := spent,
                                     error := Some("native_handoff_failed"), updated := now, retryAt := later)]
  {
  }

  /** The welcome is not touched. */
  lemma WelcomeStays(rows: Rows, a: Arrival, o: Outcome, now: real)
    requires a.key == WELCOME
    ensures Settle(rows, a, o, now) == rows && !Hands(a, o)
  {
  }
}
