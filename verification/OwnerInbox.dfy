/** The mailbox poller: a paged and then incremental sync (sections 5.5 and 5.6 of RFC 8620, sections
    4.4 and 4.5 of RFC 8621) that loses no message. */
module OwnerInbox {
  import opened Text
  import opened Ledger

  type Id = string

  const PAGE_SIZE := 50

  // ---------------------------------------------------------------- one poll

  /** What the server answers: a page, the changes since a state, or that it cannot tell. */
  datatype Response =
    | Page(ids: seq<Id>, queryState: nat)
    | Changes(added: seq<Id>, newState: nat)
    | CannotCalculate

  function Position(c: Cursor): nat {
    if c.Paging? then c.position else 0
  }

  /** A listing is asked for while the cursor is not complete, and changes after that. */
  predicate Answers(c: Cursor, r: Response) {
    if c.Complete? then !r.Page? else r.Page?
  }

  /** The state of the first page is kept for the whole listing. */
  function NextCursor(c: Cursor, r: Response): Cursor
    requires Answers(c, r)
  {
    match r
    case CannotCalculate => Fresh
    case Changes(_, newState) => Complete(newState)
    case Page(ids, queryState) =>
      var state := if c.Paging? then c.state else queryState;
      if |ids| < PAGE_SIZE then Complete(state) else Paging(state, Position(c) + |ids|)
  }

  function Listed(r: Response): seq<Id> {
    match r
    case CannotCalculate => []
    case Changes(added, _) => added
    case Page(ids, _) => ids
  }

  predicate Stored(rows: Rows, id: Id) {
    Message(id) in rows
  }

  /** The ids that still have to be fetched. */
  function Missing(rows: Rows, ids: seq<Id>): seq<Id> {
    if ids == [] then []
    else (if Stored(rows, ids[0]) then [] else [ids[0]]) + Missing(rows, ids[1..])
  }

  lemma {:induction false} MissingMeans(rows: Rows, ids: seq<Id>, id: Id)
    ensures id in Missing(rows, ids) <==> id in ids && !Stored(rows, id)
  {
    if ids != [] {
      MissingMeans(rows, ids[1..], id);
      assert ids == [ids[0]] + ids[1..];
    }
  }

  /** The part of poll between the server's answer and the commit, given the cursor that was read before the
      question: what to fetch, and then messages and cursor in one transaction. A server that cannot
      calculate changes clears the cursor. */
  method Commit(state: InboxState, cursor: Cursor, r: Response, fetched: seq<Mail>, now: real)
    requires Answers(cursor, r)
    requires r.CannotCalculate? || Missing(state.rows, Listed(r)) == [] ==> fetched == []
    modifies state
    ensures state.rows == old(AfterIngest(state.rows, fetched, now))
    ensures r.CannotCalculate? ==> state.cursor == Fresh
    ensures r.Changes? ==> state.cursor == Complete(r.newState)
    ensures r.Page? ==>
              var first := if cursor.Paging? then cursor.state else r.queryState;
              var seen := (if cursor.Paging? then cursor.position else 0) + |r.ids|;
              state.cursor == if |r.ids| < PAGE_SIZE then Complete(first) else Paging(first, seen)
    ensures state.cursor == NextCursor(cursor, r)
  {
    if r.CannotCalculate? {
      state.Ingest([], Fresh, now);
      return;
    }
    var ids := if r.Changes? then r.added else r.ids;
    var next := if r.Changes? then Complete(r.newState)
                else
                  var first := if cursor.Paging? then cursor.state else r.queryState;
                  if |ids| < PAGE_SIZE then Complete(first) else Paging(first, Position(cursor) + |ids|);
    ids := Missing(state.rows, ids);
    var messages: seq<Mail> := [];
    if ids != [] {
      messages := fetched;
    }
    state.Ingest(messages, next, now);
  }

  // ---------------------------------------------------------------- the server

  /** The query's result list at each state so far, and the messages destroyed for good. */
  datatype Mailbox = Mailbox(history: seq<seq<Id>>, gone: set<Id>)

  function Current(mb: Mailbox): seq<Id>
    requires mb.history != []
  {
    mb.history[|mb.history| - 1]
  }

  function Insert<T>(s: seq<T>, at: nat, x: T): seq<T>
    requires at <= |s|
  {
    s[..at] + [x] + s[at..]
  }

  function RemoveAt<T>(s: seq<T>, at: nat): seq<T>
    requires at < |s|
  {
    s[..at] + s[at + 1..]
  }

  function Slice<T>(s: seq<T>, from: nat, limit: nat): seq<T> {
    if from >= |s| then [] else if from + limit <= |s| then s[from..from + limit] else s[from..]
  }

  /** A page holds limit entries unless the list ends first; changes list everything that is new. */
  ghost predicate Honest(mb: Mailbox, c: Cursor, r: Response)
    requires mb.history != []
  {
    && Answers(c, r)
    && (r.Page? ==> r.queryState == |mb.history| - 1 && r.ids == Slice(Current(mb), Position(c), PAGE_SIZE))
    && (r.Changes? ==> && r.newState == |mb.history| - 1
                       && c.state < |mb.history|
                       && forall id | id in Current(mb) && id !in mb.history[c.state] :: id in r.added)
  }

  // ---------------------------------------------------------------- pollers and server together

  /** A poll that has read the stored cursor, then one that has its answer, and then one that has fetched
      what was missing. */
  datatype Poll = Reading(cursor: Cursor) | Asked(ids: seq<Id>, next: Cursor) | Fetched(mail: seq<Mail>, next: Cursor)

  /** The cursor that the poll works from, or is about to store. */
  function CursorOf(p: Poll): Cursor {
    if p.Reading? then p.cursor else p.next
  }

  datatype World = World(mb: Mailbox, rows: Rows, cursor: Cursor, polls: map<nat, Poll>)

  datatype Step =
    | Arrive(id: Id, at: nat)
    | Destroy(at: nat)
    | Depart(at: nat)
    | Expunge(id: Id)
    | Read(poll: nat)
    | Query(poll: nat, response: Response)
    | Fetch(poll: nat, found: seq<Mail>)
    | Store(poll: nat, now: real)
    | Crash(poll: nat)
    | Other(event: Event)

  /** Everything that the server and any number of pollers might do. */
  ghost predicate Possible(w: World, s: Step) {
    w.mb.history != [] &&
    match s
    case Arrive(id, at) => at <= |Current(w.mb)| && id !in w.mb.gone
    case Destroy(at) => at < |Current(w.mb)|
    case Depart(at) => at < |Current(w.mb)|
    case Expunge(id) => id !in Current(w.mb)
    case Read(poll) => poll !in w.polls
    case Query(poll, r) => poll in w.polls && w.polls[poll].Reading? && Honest(w.mb, w.polls[poll].cursor, r)
    case Fetch(poll, found) =>
      && poll in w.polls && w.polls[poll].Asked?
      && forall id | id in Missing(w.rows, w.polls[poll].ids) && id !in w.mb.gone ::
           Carries(found, id)
    case Store(poll, _) => poll in w.polls && w.polls[poll].Fetched?
    case Crash(poll) => poll in w.polls
    case Other(_) => true
  }

  function After(w: World, s: Step): World
    requires w.mb.history != []
    requires s.Arrive? ==> s.at <= |Current(w.mb)|
    requires s.Destroy? || s.Depart? ==> s.at < |Current(w.mb)|
    requires s.Query? ==> s.poll in w.polls && w.polls[s.poll].Reading? && Answers(w.polls[s.poll].cursor, s.response)
    requires s.Fetch? ==> s.poll in w.polls && w.polls[s.poll].Asked?
    requires s.Store? ==> s.poll in w.polls && w.polls[s.poll].Fetched?
  {
    var list := Current(w.mb);
    match s
    case Arrive(id, at) => w.(mb := w.mb.(history := w.mb.history + [Insert(list, at, id)]))
    case Destroy(at) => w.(mb := Mailbox(w.mb.history + [RemoveAt(list, at)], w.mb.gone + {list[at]}))
    case Depart(at) => w.(mb := w.mb.(history := w.mb.history + [RemoveAt(list, at)]))
    case Expunge(id) => w.(mb := w.mb.(gone := w.mb.gone + {id}))
    case Read(poll) => w.(polls := w.polls[poll := Reading(w.cursor)])
    case Query(poll, r) => w.(polls := w.polls[poll := Asked(Listed(r), NextCursor(w.polls[poll].cursor, r))])
    case Fetch(poll, found) => w.(polls := w.polls[poll := Fetched(found, w.polls[poll].next)])
    case Store(poll, now) =>
      w.(rows := AfterIngest(w.rows, w.polls[poll].mail, now), cursor := w.polls[poll].next, polls := w.polls - {poll})
    case Crash(poll) => w.(polls := w.polls - {poll})
    case Other(e) => w.(rows := Apply(w.rows, e))
  }

  /** A cursor that is in use: the stored one, one that some poll has read, perhaps long ago, or one that a
      poll is about to store. */
  ghost predicate InUse(w: World, c: Cursor) {
    c == w.cursor || exists p | p in w.polls :: CursorOf(w.polls[p]) == c
  }

  /** While a listing is under way nothing leaves the result list, except that an entry not yet
      reached by any listing in use may be destroyed. */
  ghost predicate Gentle(w: World, s: Step) {
    && Possible(w, s)
    && (s.Destroy? ==> forall c | InUse(w, c) && c.Paging? :: c.position <= s.at)
    && (s.Depart? ==> forall c | InUse(w, c) :: !c.Paging?)
  }

  /** The message is stored, destroyed, or still ahead of the listing. */
  ghost predicate Covered(mb: Mailbox, known: iset<Id>, c: Cursor, id: Id)
    requires mb.history != []
  {
    id in mb.gone || id in known || (c.Paging? && id in Slice(Current(mb), c.position, |Current(mb)|))
  }

  /** Everything that matched the query at the cursor's state is covered. */
  ghost predicate CursorOk(mb: Mailbox, known: iset<Id>, c: Cursor)
    requires mb.history != []
  {
    c.Fresh? || (c.state < |mb.history| && forall id | id in mb.history[c.state] :: Covered(mb, known, c, id))
  }

  ghost function KnownRows(rows: Rows): iset<Id> {
    iset id | Stored(rows, id)
  }

  predicate Carries(mail: seq<Mail>, id: Id) {
    exists m | m in mail :: m.id == id
  }

  ghost function KnownMail(mail: seq<Mail>): iset<Id> {
    iset id | Carries(mail, id)
  }

  ghost function KnownIds(ids: seq<Id>): iset<Id> {
    iset id | id in ids
  }

  /** What the poll will have stored together with its next cursor. */
  ghost function Promised(p: Poll): iset<Id> {
    match p
    case Reading(_) => iset{}
    case Asked(ids, _) => KnownIds(ids)
    case Fetched(mail, _) => KnownMail(mail)
  }

  ghost predicate PollOk(mb: Mailbox, rows: Rows, p: Poll)
    requires mb.history != []
  {
    CursorOk(mb, KnownRows(rows) + Promised(p), CursorOf(p))
  }

  ghost predicate Inv(w: World) {
    && w.mb.history != []
    && CursorOk(w.mb, KnownRows(w.rows), w.cursor)
    && forall p | p in w.polls :: PollOk(w.mb, w.rows, w.polls[p])
  }

  /** Learning of more messages never hurts a cursor. */
  lemma KnowingMore(mb: Mailbox, a: iset<Id>, b: iset<Id>, c: Cursor)
    requires mb.history != [] && a <= b && CursorOk(mb, a, c)
    ensures CursorOk(mb, b, c)
  {
    if !c.Fresh? {
      forall id | id in mb.history[c.state] ensures Covered(mb, b, c, id) {
        assert Covered(mb, a, c, id);
      }
    }
  }

  lemma InTail<T>(s: seq<T>, from: nat, x: T)
    ensures x in Slice(s, from, |s|) <==> exists j | from <= j < |s| :: s[j] == x
  {
    var tail := Slice(s, from, |s|);
    if j :| from <= j < |s| && s[j] == x {
      assert tail[j - from] == x;
    }
    if x in tail {
      var k :| 0 <= k < |tail| && tail[k] == x;
      assert s[from + k] == x;
    }
  }

  /** An arrival only pushes entries further ahead. */
  lemma ArriveKeeps(mb: Mailbox, known: iset<Id>, c: Cursor, at: nat, x: Id)
    requires mb.history != [] && at <= |Current(mb)| && CursorOk(mb, known, c)
    ensures CursorOk(mb.(history := mb.history + [Insert(Current(mb), at, x)]), known, c)
  {
    var list := Current(mb);
    var mb' := mb.(history := mb.history + [Insert(list, at, x)]);
    assert Current(mb') == Insert(list, at, x);
    if !c.Fresh? {
      forall id | id in mb'.history[c.state] ensures Covered(mb', known, c, id) {
        assert Covered(mb, known, c, id);
        if c.Paging? {
          InTail(list, c.position, id);
          InTail(Current(mb'), c.position, id);
          if j :| c.position <= j < |list| && list[j] == id {
            assert Current(mb')[if j < at then j else j + 1] == id;
          }
        }
      }
    }
  }

  /** Destroying an entry keeps a cursor in order exactly when the entry that slips under the
      listing's position, if there is one, owes nothing. */
  lemma DestroyKeepsIff(mb: Mailbox, known: iset<Id>, c: Cursor, at: nat)
    requires mb.history != [] && at < |Current(mb)| && CursorOk(mb, known, c)
    requires forall i, j | 0 <= i < j < |Current(mb)| :: Current(mb)[i] != Current(mb)[j]
    ensures var list := Current(mb);
            CursorOk(Mailbox(mb.history + [RemoveAt(list, at)], mb.gone + {list[at]}), known, c)
            <==> (c.Paging? && at < c.position < |list| ==>
                    var slipped := list[c.position];
                    slipped in mb.gone || slipped in known || slipped !in mb.history[c.state])
  {
    var list := Current(mb);
    var mb' := Mailbox(mb.history + [RemoveAt(list, at)], mb.gone + {list[at]});
    assert Current(mb') == RemoveAt(list, at);
    if !c.Fresh? {
      assert mb'.history[c.state] == mb.history[c.state];
      forall id | id in mb.history[c.state] && !(c.Paging? && at < c.position < |list| && id == list[c.position])
        ensures Covered(mb', known, c, id)
      {
        assert Covered(mb, known, c, id);
        if c.Paging? {
          InTail(list, c.position, id);
          InTail(Current(mb'), c.position, id);
          if j :| c.position <= j < |list| && list[j] == id {
            if j != at {
              assert Current(mb')[if j < at then j else j - 1] == id;
            }
          }
        }
      }
      if c.Paging? && at < c.position < |list| {
        var slipped := list[c.position];
        InTail(Current(mb'), c.position, slipped);
        forall j | c.position <= j < |Current(mb')| ensures Current(mb')[j] != slipped {
          assert Current(mb')[j] == list[j + 1];
        }
      }
    }
  }

  lemma DestroyAheadKeeps(mb: Mailbox, known: iset<Id>, c: Cursor, at: nat)
    requires mb.history != [] && at < |Current(mb)| && CursorOk(mb, known, c)
    requires c.Paging? ==> c.position <= at
    ensures CursorOk(Mailbox(mb.history + [RemoveAt(Current(mb), at)], mb.gone + {Current(mb)[at]}), known, c)
  {
    var list := Current(mb);
    var mb' := Mailbox(mb.history + [RemoveAt(list, at)], mb.gone + {list[at]});
    assert Current(mb') == RemoveAt(list, at);
    if !c.Fresh? {
      forall id | id in mb'.history[c.state] ensures Covered(mb', known, c, id) {
        assert Covered(mb, known, c, id);
        if c.Paging? {
          InTail(list, c.position, id);
          InTail(Current(mb'), c.position, id);
          if j :| c.position <= j < |list| && list[j] == id {
            if j != at {
              assert Current(mb')[if j < at then j else j - 1] == id;
            }
          }
        }
      }
    }
  }

  lemma DepartKeeps(mb: Mailbox, known: iset<Id>, c: Cursor, at: nat)
    requires mb.history != [] && at < |Current(mb)| && CursorOk(mb, known, c) && !c.Paging?
    ensures CursorOk(mb.(history := mb.history + [RemoveAt(Current(mb), at)]), known, c)
  {
    if !c.Fresh? {
      forall id | id in mb.history[c.state] ensures id in mb.gone || id in known {
        assert Covered(mb, known, c, id);
      }
    }
  }

  lemma ExpungeKeeps(mb: Mailbox, known: iset<Id>, c: Cursor, x: Id)
    requires mb.history != [] && CursorOk(mb, known, c)
    ensures CursorOk(mb.(gone := mb.gone + {x}), known, c)
  {
    var mb' := mb.(gone := mb.gone + {x});
    assert Current(mb') == Current(mb);
    if !c.Fresh? {
      forall id | id in mb'.history[c.state] ensures Covered(mb', known, c, id) {
        assert Covered(mb, known, c, id);
      }
    }
  }

  /** The cursor computed from an honest answer is in order once the listed messages are known. */
  lemma AnswerOk(mb: Mailbox, known: iset<Id>, c: Cursor, r: Response)
    requires mb.history != [] && CursorOk(mb, known, c) && Honest(mb, c, r)
    ensures CursorOk(mb, known + KnownIds(Listed(r)), NextCursor(c, r))
  {
    var next := NextCursor(c, r);
    var more := known + KnownIds(Listed(r));
    var list := Current(mb);
    if !next.Fresh? {
      forall id | id in mb.history[next.state] ensures Covered(mb, more, next, id) {
        if r.Changes? {
          if id in mb.history[c.state] {
            assert Covered(mb, known, c, id);
          }
        } else {
          var p := Position(c);
          if c.Paging? {
            assert Covered(mb, known, c, id);
          } else {
            assert id in list;
          }
          InTail(list, p, id);
          if j :| p <= j < |list| && list[j] == id {
            if j < p + PAGE_SIZE {
              assert r.ids[j - p] == id;
              assert id in KnownIds(Listed(r));
            } else {
              InTail(list, p + PAGE_SIZE, id);
            }
          }
        }
      }
    }
  }

  lemma RowsGrow(rows: Rows, e: Event)
    ensures KnownRows(rows) <= KnownRows(Apply(rows, e))
  {
    forall id | Stored(rows, id) ensures Stored(Apply(rows, e), id) {
      ApplyKeeps(rows, e, Message(id));
    }
  }

  lemma MailStored(rows: Rows, mail: seq<Mail>, now: real)
    ensures KnownRows(rows) + KnownMail(mail) <= KnownRows(AfterIngest(rows, mail, now))
  {
    forall id | id in KnownRows(rows) + KnownMail(mail) ensures Stored(AfterIngest(rows, mail, now), id) {
      IngestKeeps(rows, mail, now, Message(id));
    }
  }

  lemma PollKeeps(mb: Mailbox, rows: Rows, rows': Rows, p: Poll)
    requires mb.history != [] && PollOk(mb, rows, p) && KnownRows(rows) <= KnownRows(rows')
    ensures PollOk(mb, rows', p)
  {
    KnowingMore(mb, KnownRows(rows) + Promised(p), KnownRows(rows') + Promised(p), CursorOf(p));
  }

  lemma FetchOk(w: World, poll: nat, found: seq<Mail>)
    requires Inv(w) && Possible(w, Fetch(poll, found))
    ensures PollOk(w.mb, w.rows, Fetched(found, w.polls[poll].next))
  {
    var p := w.polls[poll];
    assert PollOk(w.mb, w.rows, p);
    if !p.next.Fresh? {
      forall id | id in w.mb.history[p.next.state]
        ensures Covered(w.mb, KnownRows(w.rows) + KnownMail(found), p.next, id)
      {
        assert Covered(w.mb, KnownRows(w.rows) + KnownIds(p.ids), p.next, id);
        MissingMeans(w.rows, p.ids, id);
      }
    }
  }

  lemma ServerStepKeeps(w: World, s: Step)
    requires Inv(w) && Gentle(w, s) && (s.Arrive? || s.Destroy? || s.Depart? || s.Expunge?)
    ensures Inv(After(w, s))
  {
    var w' := After(w, s);
    forall known: iset<Id>, c | InUse(w, c) && CursorOk(w.mb, known, c) ensures CursorOk(w'.mb, known, c) {
      match s
      case Arrive(id, at) => ArriveKeeps(w.mb, known, c, at, id);
      case Destroy(at) => DestroyAheadKeeps(w.mb, known, c, at);
      case Depart(at) => DepartKeeps(w.mb, known, c, at);
      case Expunge(id) => ExpungeKeeps(w.mb, known, c, id);
    }
    assert InUse(w, w.cursor);
    forall p | p in w'.polls ensures PollOk(w'.mb, w'.rows, w'.polls[p]) {
      assert PollOk(w.mb, w.rows, w.polls[p]) && InUse(w, CursorOf(w.polls[p]));
    }
  }

  lemma StepKeeps(w: World, s: Step)
    requires Inv(w) && Gentle(w, s)
    ensures Inv(After(w, s))
  {
    match s
    case Read(poll) =>
      assert KnownRows(w.rows) + Promised(Reading(w.cursor)) == KnownRows(w.rows);
    case Query(poll, r) =>
      var p := w.polls[poll];
      assert PollOk(w.mb, w.rows, p) && KnownRows(w.rows) + Promised(p) == KnownRows(w.rows);
      AnswerOk(w.mb, KnownRows(w.rows), p.cursor, r);
    case Fetch(poll, found) =>
      FetchOk(w, poll, found);
    case Store(poll, now) =>
      var mail := w.polls[poll].mail;
      MailStored(w.rows, mail, now);
      var rows' := AfterIngest(w.rows, mail, now);
      assert PollOk(w.mb, w.rows, w.polls[poll]);
      KnowingMore(w.mb, KnownRows(w.rows) + KnownMail(mail), KnownRows(rows'), w.polls[poll].next);
      forall p | p in w.polls ensures PollOk(w.mb, rows', w.polls[p]) {
        PollKeeps(w.mb, w.rows, rows', w.polls[p]);
      }
    case Crash(_) =>
    case Other(e) =>
      RowsGrow(w.rows, e);
      KnowingMore(w.mb, KnownRows(w.rows), KnownRows(Apply(w.rows, e)), w.cursor);
      forall p | p in w.polls ensures PollOk(w.mb, Apply(w.rows, e), w.polls[p]) {
        PollKeeps(w.mb, w.rows, Apply(w.rows, e), w.polls[p]);
      }
    case _ =>
      ServerStepKeeps(w, s);
  }

  ghost predicate GentleRun(w: World, steps: seq<Step>)
    decreases steps
  {
    steps == [] || (Gentle(w, steps[0]) && GentleRun(After(w, steps[0]), steps[1..]))
  }

  ghost function RunAll(w: World, steps: seq<Step>): World
    requires GentleRun(w, steps)
    decreases steps
  {
    if steps == [] then w else RunAll(After(w, steps[0]), steps[1..])
  }

  lemma {:induction false} RunKeeps(w: World, steps: seq<Step>)
    requires Inv(w) && GentleRun(w, steps)
    ensures Inv(RunAll(w, steps))
    decreases steps
  {
    if steps != [] {
      StepKeeps(w, steps[0]);
      RunKeeps(After(w, steps[0]), steps[1..]);
    }
  }

  /** No missed mail: start from any ledger and no cursor, and let any number of pollers, crashes,
      cursor resets, ledger events and arrivals interleave. Whenever the stored cursor is complete,
      every message that matched the query at its state is in the ledger, unless it was destroyed. */
  lemma NoMissedMail(w: World, steps: seq<Step>)
    requires w.mb.history != [] && w.cursor == Fresh && w.polls == map[]
    requires GentleRun(w, steps)
    ensures var w' := RunAll(w, steps);
            w'.cursor.Complete? ==>
              && w'.cursor.state < |w'.mb.history|
              && forall id | id in w'.mb.history[w'.cursor.state] && id !in w'.mb.gone :: Stored(w'.rows, id)
  {
    RunKeeps(w, steps);
    var w' := RunAll(w, steps);
    if w'.cursor.Complete? {
      forall id | id in w'.mb.history[w'.cursor.state] && id !in w'.mb.gone ensures Stored(w'.rows, id) {
        assert Covered(w'.mb, KnownRows(w'.rows), w'.cursor, id);
      }
    }
  }

  // ---------------------------------------------------------------- catching up

  /** Steps of one poll, one after the other; where the server cannot calculate changes it says so. */
  predicate OnlyPolls(steps: seq<Step>, poll: nat, able: bool) {
    forall s | s in steps ::
      && (s.Read? || s.Query? || s.Fetch? || s.Store?) && s.poll == poll
      && (s.Query? && !able ==> !s.response.Changes?)
  }

  ghost predicate CatchesUp(w: World, steps: seq<Step>, poll: nat, able: bool, z: World) {
    GentleRun(w, steps) && OnlyPolls(steps, poll, able) && RunAll(w, steps) == z
  }

  lemma {:induction false} RunsJoin(w: World, a: seq<Step>, b: seq<Step>)
    requires GentleRun(w, a) && GentleRun(RunAll(w, a), b)
    ensures GentleRun(w, a + b) && RunAll(w, a + b) == RunAll(RunAll(w, a), b)
    decreases a
  {
    if a == [] {
      assert a + b == b;
    } else {
      RunsJoin(After(w, a[0]), a[1..], b);
      assert (a + b)[1..] == a[1..] + b;
    }
  }

  lemma Joined(w: World, a: seq<Step>, y: World, b: seq<Step>, z: World, poll: nat, able: bool)
    requires CatchesUp(w, a, poll, able, y) && CatchesUp(y, b, poll, able, z)
    ensures CatchesUp(w, a + b, poll, able, z)
  {
    RunsJoin(w, a, b);
  }

  lemma MailsCarry(rows: Rows, ids: seq<Id>)
    ensures forall id | id in Missing(rows, ids) :: Carries(Mails(ids), id)
  {
    forall id | id in Missing(rows, ids) ensures Carries(Mails(ids), id) {
      MissingMeans(rows, ids, id);
      var i :| 0 <= i < |ids| && ids[i] == id;
      assert Mails(ids)[i] == Mail(id, "");
    }
  }

  /** The world after a whole poll that got this answer. */
  function Polled(w: World, r: Response): World
    requires Answers(w.cursor, r)
  {
    w.(rows := AfterIngest(w.rows, Mails(Listed(r)), 0.0), cursor := NextCursor(w.cursor, r))
  }

  lemma PollOnce(w: World, poll: nat, able: bool, r: Response) returns (steps: seq<Step>)
    requires w.mb.history != [] && poll !in w.polls && Honest(w.mb, w.cursor, r) && (!able ==> !r.Changes?)
    ensures CatchesUp(w, steps, poll, able, Polled(w, r))
  {
    var found := Mails(Listed(r));
    steps := [Read(poll), Query(poll, r), Fetch(poll, found), Store(poll, 0.0)];
    var a := After(w, steps[0]);
    var b := After(a, steps[1]);
    MailsCarry(b.rows, Listed(r));
    assert b.polls[poll] == Asked(Listed(r), NextCursor(w.cursor, r));
    assert Possible(b, steps[2]);
    var d := After(b, steps[2]);
    RunOfFour(w, steps, a, b, d);
    assert After(d, steps[3]).polls == w.polls;
  }

  /** The page that an honest server answers. */
  function HonestPage(w: World): Response
    requires w.mb.history != [] && !w.cursor.Complete?
  {
    Page(Slice(Current(w.mb), Position(w.cursor), PAGE_SIZE), |w.mb.history| - 1)
  }

  /** A listing ends, however many pages are left, at the state of its first page. */
  lemma {:induction false} ListingEnds(w: World, poll: nat, able: bool) returns (steps: seq<Step>, z: World)
    requires w.mb.history != [] && poll !in w.polls && !w.cursor.Complete?
    ensures CatchesUp(w, steps, poll, able, z) && z.mb == w.mb && z.polls == w.polls
    ensures z.cursor == Complete(if w.cursor.Paging? then w.cursor.state else |w.mb.history| - 1)
    decreases |Current(w.mb)| - Position(w.cursor)
  {
    var r := HonestPage(w);
    steps := PollOnce(w, poll, able, r);
    z := Polled(w, r);
    if |r.ids| == PAGE_SIZE {
      var first := if w.cursor.Paging? then w.cursor.state else |w.mb.history| - 1;
      assert z.cursor == Paging(first, Position(w.cursor) + PAGE_SIZE);
      var rest, end := ListingEnds(z, poll, able);
      Joined(w, steps, z, rest, end, poll, able);
      steps, z := steps + rest, end;
    }
  }

  /** From a complete cursor: the changes since then, or everything anew. */
  lemma ChangesEnd(w: World, poll: nat, able: bool) returns (steps: seq<Step>, z: World)
    requires w.mb.history != [] && poll !in w.polls
    requires w.cursor.Complete? && w.cursor.state < |w.mb.history|
    ensures CatchesUp(w, steps, poll, able, z) && z.mb == w.mb && z.cursor == Complete(|w.mb.history| - 1)
  {
    var r := if able then Changes(Current(w.mb), |w.mb.history| - 1) else CannotCalculate;
    steps := PollOnce(w, poll, able, r);
    z := Polled(w, r);
    if !able {
      assert z.cursor == Fresh;
      var rest, end := ListingEnds(z, poll, able);
      Joined(w, steps, z, rest, end, poll, able);
      steps, z := steps + rest, end;
    }
  }

  /** No mail is held up: after any run, while nothing arrives, polls one after the other bring the cursor to
      the server's current state, also if it cannot calculate changes; everything that matches then is in
      the ledger, unless it was destroyed. */
  lemma MailCatchesUp(w: World, run: seq<Step>, poll: nat, able: bool) returns (steps: seq<Step>, z: World)
    requires w.mb.history != [] && w.cursor == Fresh && w.polls == map[]
    requires GentleRun(w, run) && poll !in RunAll(w, run).polls
    ensures CatchesUp(RunAll(w, run), steps, poll, able, z)
    ensures z.mb == RunAll(w, run).mb && z.mb.history != [] && z.cursor == Complete(|z.mb.history| - 1)
    ensures forall id | id in Current(z.mb) && id !in z.mb.gone :: Stored(z.rows, id)
  {
    var here := RunAll(w, run);
    RunKeeps(w, run);
    steps, z := [], here;
    if !here.cursor.Complete? {
      steps, z := ListingEnds(here, poll, able);
      RunKeeps(here, steps);
    }
    var rest, end := ChangesEnd(z, poll, able);
    Joined(here, steps, z, rest, end, poll, able);
    RunsJoin(w, run, steps + rest);
    steps, z := steps + rest, end;
    NoMissedMail(w, run + steps);
  }

  // ---------------------------------------------------------------- why nothing may leave

  function Name(n: nat): Id {
    seq(n, _ => 'x')
  }

  function Names(n: nat): seq<Id> {
    seq(n, i requires 0 <= i < n => Name(i))
  }

  function Mails(ids: seq<Id>): seq<Mail> {
    seq(|ids|, i requires 0 <= i < |ids| => Mail(ids[i], ""))
  }

  lemma NamesApart(n: nat)
    ensures Name(n) !in Names(n) && !Carries(Mails(Names(n)), Name(n))
    ensures forall i | 0 <= i < n :: Name(i) in Names(n) && Carries(Mails(Names(n)), Name(i))
  {
    assert forall i | 0 <= i < n :: |Names(n)[i]| == i;
    assert forall m | m in Mails(Names(n)) :: |m.id| < n;
    forall i | 0 <= i < n ensures Name(i) in Names(n) && Carries(Mails(Names(n)), Name(i)) {
      assert Names(n)[i] == Name(i) && Mails(Names(n))[i] == Mail(Name(i), "");
    }
  }

  ghost predicate Leads(w: World, steps: seq<Step>, z: World) {
    GentleRun(w, steps) && RunAll(w, steps) == z
  }

  function OnePoll(page: Response, found: seq<Mail>): seq<Step> {
    [Read(0), Query(0, page), Fetch(0, found), Store(0, 0.0)]
  }

  function FiftyOne(): World {
    World(Mailbox([Names(51)], {}), map[], Fresh, map[])
  }

  /** Fifty-one messages: a poll stores the first page, the first message is destroyed, a second poll
      reads the second page. The listing is complete, and the fifty-first message, which was there at
      its state and was never destroyed, is not in the ledger. */
  lemma RemovalBehindLosesMail() returns (w0: World, w1: World, w2: World)
    ensures Leads(FiftyOne(), OnePoll(Page(Names(50), 0), Mails(Names(50))), w0)
    ensures Possible(w0, Destroy(0)) && w1 == After(w0, Destroy(0))
    ensures Leads(w1, OnePoll(Page([], 1), []), w2)
    ensures w2.cursor == Complete(0)
    ensures w2.mb.history != [] && Name(50) in w2.mb.history[0] && Name(50) !in w2.mb.gone
    ensures !Stored(w2.rows, Name(50))
  {
    NamesApart(50);
    w0 := FirstPage();
    w1 := After(w0, Destroy(0));
    w2 := SecondPage(w1);
    IngestKeeps(map[], Mails(Names(50)), 0.0, Message(Name(50)));
    NamesApart(51);
    assert |Name(50)| == 50 && |Names(51)[0]| == 0;
  }

  lemma SecondPage(w1: World) returns (w2: World)
    requires w1.mb.history == [Names(51), RemoveAt(Names(51), 0)]
    requires w1.cursor == Paging(0, 50) && w1.polls == map[]
    ensures Leads(w1, OnePoll(Page([], 1), []), w2)
    ensures w2 == w1.(cursor := Complete(0))
  {
    var steps := OnePoll(Page([], 1), []);
    assert Slice(Current(w1.mb), 50, PAGE_SIZE) == [];
    var a := After(w1, steps[0]);
    var b := After(a, steps[1]);
    var d := After(b, steps[2]);
    w2 := After(d, steps[3]);
    RunOfFour(w1, steps, a, b, d);
  }

  lemma AllFetched()
    ensures forall id | id in Missing(map[], Names(50)) :: Carries(Mails(Names(50)), id)
  {
    forall id | id in Missing(map[], Names(50)) ensures Carries(Mails(Names(50)), id) {
      MissingMeans(map[], Names(50), id);
      var i :| 0 <= i < 50 && Names(50)[i] == id;
      NamesApart(50);
    }
  }

  lemma FirstPage() returns (w0: World)
    ensures Leads(FiftyOne(), OnePoll(Page(Names(50), 0), Mails(Names(50))), w0)
    ensures w0 == World(Mailbox([Names(51)], {}), AfterIngest(map[], Mails(Names(50)), 0.0), Paging(0, 50), map[])
  {
    var start, steps := FiftyOne(), OnePoll(Page(Names(50), 0), Mails(Names(50)));
    assert Slice(Names(51), 0, PAGE_SIZE) == Names(50);
    var a := After(start, steps[0]);
    var b := After(a, steps[1]);
    AllFetched();
    assert Possible(b, steps[2]);
    var d := After(b, steps[2]);
    w0 := After(d, steps[3]);
    RunOfFour(start, steps, a, b, d);
  }

  lemma RunOfFour(w: World, steps: seq<Step>, a: World, b: World, d: World)
    requires |steps| == 4
    requires Gentle(w, steps[0]) && a == After(w, steps[0])
    requires Gentle(a, steps[1]) && b == After(a, steps[1])
    requires Gentle(b, steps[2]) && d == After(b, steps[2])
    requires Gentle(d, steps[3])
    ensures GentleRun(w, steps) && RunAll(w, steps) == After(d, steps[3])
  {
    var last := steps[1..][1..][1..];
    assert last[0] == steps[3] && last[1..] == [];
    var end := After(d, steps[3]);
    assert GentleRun(end, last[1..]) && RunAll(end, last[1..]) == end;
    assert GentleRun(d, last) && RunAll(d, last) == end;
    assert GentleRun(b, steps[1..][1..]) && RunAll(b, steps[1..][1..]) == end;
    assert GentleRun(a, steps[1..]) && RunAll(a, steps[1..]) == end;
  }
}
