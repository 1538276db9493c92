/** Passes over the offline queue that may overlap.  A pass reads the pending entries once, then
    fetches and updates one after another, from copies that can be out of date by then; a closed
    tab cuts it off anywhere.  Nothing keeps two passes apart: coming back online starts two. */
module OfflinePasses {
  import opened Rows
  import opened OfflineStore

  type PassId = nat

  /** What a pass has read, what it still has to send, and the reply it has yet to write. */
  datatype Pass = Pass(read: Queue, todo: seq<EntryId>, reply: Option<Response>)

  datatype Sending = Sending(pass: PassId, id: EntryId, reply: Response)

  /** The store, the open passes and how many there have been, everything sent, and what was sent
      without its reply being written, because the pass was cut off. */
  datatype Browser = Browser(store: Local, passes: map<PassId, Pass>, started: nat,
                             log: seq<Sending>, lost: multiset<EntryId>)

  datatype Act =
    | Enqueue(op: string, at: Time)
    | Open
    | Fetch(pass: PassId, reply: Response)
    | Update(pass: PassId)
    | Close(pass: PassId, at: Time)
    | Cut(pass: PassId)

  /** The update writes the status and, after an attempt that decided nothing, the copy's retries
      plus one. */
  function Written(row: Entry, copy: Entry, r: Response): Entry
  {
    if Decisive(r) then row.(status := React(copy, r).status)
    else row.(status := React(copy, r).status, retries := React(copy, r).retries)
  }

  /** A row that is gone by now is not written. */
  function WriteBack(q: Queue, id: EntryId, read: Queue, r: Response): Queue
  {
    if id in q && id in read then q[id := Written(q[id], read[id], r)] else q
  }

  function Step(b: Browser, a: Act): Browser
  {
    match a
    case Enqueue(op, at) => b.(store := WithOperation(b.store, op, at))
    case Open =>
      var q := b.store.queue;
      b.(passes := b.passes[b.started + 1 := Pass(q, ByCreation(q, PendingIds(q)), None)],
         started := b.started + 1)
    case Fetch(p, r) =>
      if p !in b.passes || b.passes[p].todo == [] || b.passes[p].reply.Some? then b
      else b.(passes := b.passes[p := b.passes[p].(reply := Some(r))],
              log := b.log + [Sending(p, b.passes[p].todo[0], r)])
    case Update(p) =>
      if p !in b.passes || b.passes[p].todo == [] || b.passes[p].reply == None then b
      else
        var s := b.passes[p];
        b.(store := b.store.(queue := WriteBack(b.store.queue, s.todo[0], s.read, s.reply.value)),
           passes := b.passes[p := Pass(s.read, s.todo[1..], None)])
    case Close(p, at) =>
      if p !in b.passes || b.passes[p].todo != [] then b
      else b.(store := b.store.(queue := WithoutExpired(b.store.queue, at)),
              passes := b.passes - {p})
    case Cut(p) =>
      if p !in b.passes then b
      else b.(passes := b.passes - {p},
              lost := if b.passes[p].reply.Some? && b.passes[p].todo != []
                      then b.lost + multiset{b.passes[p].todo[0]} else b.lost)
  }

  function Run(b: Browser, acts: seq<Act>): Browser
    decreases |acts|
  {
    if acts == [] then b else Run(Step(b, acts[0]), acts[1..])
  }

  function Fresh(): Browser
  {
    Browser(Local(map[], 0), map[], 0, [], multiset{})
  }

  // ── What the log says of an entry ─────────────────────────────────

  function Sends(log: seq<Sending>, id: EntryId): nat
  {
    if log == [] then 0
    else Sends(log[..|log| - 1], id) + (if log[|log| - 1].id == id then 1 else 0)
  }

  /** The sendings that decided nothing. */
  function Tries(log: seq<Sending>, id: EntryId): nat
  {
    if log == [] then 0
    else
      var last := log[|log| - 1];
      Tries(log[..|log| - 1], id) + (if last.id == id && !Decisive(last.reply) then 1 else 0)
  }

  predicate Replied(log: seq<Sending>, id: EntryId, r: Response)
  {
    exists i :: 0 <= i < |log| && log[i].id == id && log[i].reply == r
  }

  lemma LogGrows(log: seq<Sending>, s: Sending, id: EntryId)
    ensures Sends(log + [s], id) == Sends(log, id) + (if s.id == id then 1 else 0)
    ensures Tries(log + [s], id)
            == Tries(log, id) + (if s.id == id && !Decisive(s.reply) then 1 else 0)
    ensures forall r :: Replied(log, id, r) ==> Replied(log + [s], id, r)
    ensures Replied(log + [s], s.id, s.reply)
  {
    assert (log + [s])[..|log|] == log;
    forall r | Replied(log, id, r) ensures Replied(log + [s], id, r) {
      var i :| 0 <= i < |log| && log[i].id == id && log[i].reply == r;
      assert (log + [s])[i] == log[i];
    }
    assert (log + [s])[|log|] == s;
  }

  // ── Every status has its reasons ──────────────────────────────────

  ghost predicate RowTraced(log: seq<Sending>, q: Queue, id: EntryId)
  {
    if id in q then
      && q[id].retries <= Tries(log, id)
      && (q[id].status == Synced ==> Replied(log, id, Accepted))
      && (q[id].status == Conflicted ==> Replied(log, id, Refused(true)))
      && (q[id].status == Failed ==> Tries(log, id) >= 6)
    else
      Replied(log, id, Accepted)
  }

  /** A copy has no more retries than there were tries before it; the reply not yet written is one
      more. */
  ghost predicate PassTraced(log: seq<Sending>, s: Pass, nextId: EntryId)
  {
    && (forall i :: 0 <= i < |s.todo| ==>
          s.todo[i] in s.read && s.todo[i] < nextId
          && s.read[s.todo[i]].retries <= Tries(log, s.todo[i]))
    && (s.reply.Some? ==>
          s.todo != []
          && if Decisive(s.reply.value) then Replied(log, s.todo[0], s.reply.value)
             else s.read[s.todo[0]].retries + 1 <= Tries(log, s.todo[0]))
  }

  ghost predicate Traced(b: Browser)
  {
    && b.store.Valid()
    && (forall id :: 0 <= id < b.store.nextId ==> RowTraced(b.log, b.store.queue, id))
    && (forall p :: p in b.passes ==> PassTraced(b.log, b.passes[p], b.store.nextId))
  }

  lemma PassTracedGrows(log: seq<Sending>, s: Pass, nextId: EntryId, more: Sending)
    requires PassTraced(log, s, nextId)
    ensures PassTraced(log + [more], s, nextId)
  {
    forall i | 0 <= i < |s.todo|
      ensures s.read[s.todo[i]].retries <= Tries(log + [more], s.todo[i])
    {
      LogGrows(log, more, s.todo[i]);
    }
    if s.reply.Some? { LogGrows(log, more, s.todo[0]); }
  }

  lemma {:induction false} OpenIsTraced(b: Browser)
    requires Traced(b)
    ensures Traced(Step(b, Open))
  {
    var q := b.store.queue;
    var s := Pass(q, ByCreation(q, PendingIds(q)), None);
    forall i | 0 <= i < |s.todo|
      ensures s.todo[i] in q && q[s.todo[i]].retries <= Tries(b.log, s.todo[i])
    {
      ByCreationAt(q, PendingIds(q), i);
      assert RowTraced(b.log, q, s.todo[i]);
    }
  }

  lemma {:induction false} FetchIsTraced(b: Browser, p: PassId, r: Response)
    requires Traced(b) && p in b.passes && b.passes[p].todo != [] && b.passes[p].reply == None
    ensures Traced(Step(b, Fetch(p, r)))
  {
    var b' := Step(b, Fetch(p, r));
    var more := Sending(p, b.passes[p].todo[0], r);
    forall id | 0 <= id < b.store.nextId ensures RowTraced(b'.log, b.store.queue, id) {
      assert RowTraced(b.log, b.store.queue, id);
      LogGrows(b.log, more, id);
    }
    forall o | o in b'.passes ensures PassTraced(b'.log, b'.passes[o], b.store.nextId) {
      PassTracedGrows(b.log, b.passes[o], b.store.nextId, more);
      LogGrows(b.log, more, more.id);
    }
  }

  lemma {:induction false} UpdateIsTraced(b: Browser, p: PassId)
    requires Traced(b) && p in b.passes && b.passes[p].reply.Some?
    ensures Traced(Step(b, Update(p)))
  {
    var s := b.passes[p];
    var id, b' := s.todo[0], Step(b, Update(p));
    assert PassTraced(b.log, s, b.store.nextId);
    forall i | 0 <= i < b.store.nextId ensures RowTraced(b.log, b'.store.queue, i) {
      assert RowTraced(b.log, b.store.queue, i);
    }
    forall o | o in b'.passes ensures PassTraced(b.log, b'.passes[o], b.store.nextId) {
      assert PassTraced(b.log, b.passes[o], b.store.nextId);
    }
  }

  lemma {:induction false} StepIsTraced(b: Browser, a: Act)
    requires Traced(b)
    ensures Traced(Step(b, a))
  {
    var b' := Step(b, a);
    match a
    case Open => OpenIsTraced(b);
    case Fetch(p, r) => if b' != b { FetchIsTraced(b, p, r); }
    case Update(p) => if b' != b { UpdateIsTraced(b, p); }
    case Enqueue(op, at) =>
      forall p | p in b.passes ensures PassTraced(b.log, b.passes[p], b'.store.nextId) {
        assert PassTraced(b.log, b.passes[p], b.store.nextId);
      }
      forall id | 0 <= id < b'.store.nextId ensures RowTraced(b.log, b'.store.queue, id) {
        if id < b.store.nextId { assert RowTraced(b.log, b.store.queue, id); }
      }
    case Close(p, at) =>
      forall id | 0 <= id < b.store.nextId ensures RowTraced(b.log, b'.store.queue, id) {
        assert RowTraced(b.log, b.store.queue, id);
      }
    case Cut(p) =>
  }

  lemma {:induction false} RunIsTraced(b: Browser, acts: seq<Act>)
    requires Traced(b)
    ensures Traced(Run(b, acts))
    decreases |acts|
  {
    if acts != [] {
      StepIsTraced(b, acts[0]);
      hide Step, Traced;
      RunIsTraced(Step(b, acts[0]), acts[1..]);
    }
  }

  /** Main theorem: however the passes overlap or are cut off, an entry marked synced, or gone, was
      accepted by the server; one marked a conflict was answered so; and one given up was sent in
      vain at least six times. */
  lemma {:induction false} StatusHasReason(acts: seq<Act>, id: EntryId)
    requires id < Run(Fresh(), acts).store.nextId
    ensures
      var b := Run(Fresh(), acts);
      var q := b.store.queue;
      && (id !in q || q[id].status == Synced ==> Replied(b.log, id, Accepted))
      && (id in q && q[id].status == Conflicted ==> Replied(b.log, id, Refused(true)))
      && (id in q && q[id].status == Failed ==> Tries(b.log, id) >= 6)
  {
    RunIsTraced(Fresh(), acts);
    assert RowTraced(Run(Fresh(), acts).log, Run(Fresh(), acts).store.queue, id);
  }

  // ── One sending for each pass ─────────────────────────────────────

  /** What the pass has not sent yet. */
  function Unsent(s: Pass): seq<EntryId>
  {
    if s.reply.Some? && s.todo != [] then s.todo[1..] else s.todo
  }

  ghost predicate Distinct(ids: seq<EntryId>)
  {
    forall i, j :: 0 <= i < j < |ids| ==> ids[i] != ids[j]
  }

  ghost predicate SentByOnce(log: seq<Sending>)
  {
    forall i, j :: 0 <= i < j < |log| && log[i].pass == log[j].pass ==> log[i].id != log[j].id
  }

  /** Open passes have been opened, and have sent nothing of what they have yet to send. */
  ghost predicate PassUnsent(log: seq<Sending>, p: PassId, s: Pass)
  {
    && Distinct(s.todo) && (s.reply.Some? ==> s.todo != [])
    && forall i :: 0 <= i < |log| && log[i].pass == p ==> log[i].id !in Unsent(s)
  }

  ghost predicate OncePerPass(b: Browser)
  {
    && SentByOnce(b.log)
    && (forall i :: 0 <= i < |b.log| ==> 1 <= b.log[i].pass <= b.started)
    && (forall p :: p in b.passes ==> 1 <= p <= b.started && PassUnsent(b.log, p, b.passes[p]))
  }

  lemma {:induction false} StepKeepsOncePerPass(b: Browser, a: Act)
    requires OncePerPass(b)
    ensures OncePerPass(Step(b, a))
  {
    var b' := Step(b, a);
    hide WriteBack, WithoutExpired, WithOperation;
    match a
    case Open =>
      ByCreationListsAll(b.store.queue, PendingIds(b.store.queue));
    case Fetch(p, r) =>
      if b' != b {
        var s := b.passes[p];
        assert PassUnsent(b.log, p, s) && s.todo[0] in Unsent(s);
        forall o | o in b'.passes ensures PassUnsent(b'.log, o, b'.passes[o]) {
          assert PassUnsent(b.log, o, b.passes[o]);
        }
      }
    case Update(p) =>
      if b' != b {
        assert PassUnsent(b.log, p, b.passes[p]);
        assert Unsent(b'.passes[p]) == Unsent(b.passes[p]);
      }
    case _ =>
  }

  lemma {:induction false} RunKeepsOncePerPass(b: Browser, acts: seq<Act>)
    requires OncePerPass(b)
    ensures OncePerPass(Run(b, acts))
    decreases |acts|
  {
    if acts != [] {
      StepKeepsOncePerPass(b, acts[0]);
      hide Step, OncePerPass;
      RunKeepsOncePerPass(Step(b, acts[0]), acts[1..]);
    }
  }

  function PassesOf(log: seq<Sending>, id: EntryId): set<PassId>
  {
    set i | 0 <= i < |log| && log[i].id == id :: log[i].pass
  }

  lemma PassesOfMore(log: seq<Sending>, id: EntryId)
    requires log != []
    ensures
      var n := |log| - 1;
      PassesOf(log, id)
      == PassesOf(log[..n], id) + (if log[n].id == id then {log[n].pass} else {})
  {
    var n := |log| - 1;
    var more := PassesOf(log[..n], id) + (if log[n].id == id then {log[n].pass} else {});
    forall p | p in more ensures p in PassesOf(log, id) {
      if p in PassesOf(log[..n], id) {
        var i :| 0 <= i < n && log[..n][i].id == id && log[..n][i].pass == p;
        assert log[i].id == id && log[i].pass == p;
      }
    }
    forall p | p in PassesOf(log, id) ensures p in more {
      var i :| 0 <= i < |log| && log[i].id == id && log[i].pass == p;
      if i < n { assert log[..n][i] == log[i]; }
    }
  }

  lemma {:induction false} AsManyPasses(log: seq<Sending>, id: EntryId)
    requires SentByOnce(log)
    ensures |PassesOf(log, id)| == Sends(log, id)
  {
    if log == [] {
      assert PassesOf(log, id) == {};
    } else {
      var n := |log| - 1;
      AsManyPasses(log[..n], id);
      if log[n].id == id {
        assert log[n].pass !in PassesOf(log[..n], id);
      }
      PassesOfMore(log, id);
    }
  }

  /** Main theorem: however the passes overlap, no pass sends an entry twice, so it is sent at most
      as often as passes were opened. */
  lemma {:induction false} SentAtMostOncePerPass(acts: seq<Act>, id: EntryId)
    ensures
      var b := Run(Fresh(), acts);
      SentByOnce(b.log) && Sends(b.log, id) <= b.started
  {
    var b := Run(Fresh(), acts);
    RunKeepsOncePerPass(Fresh(), acts);
    AsManyPasses(b.log, id);
    SubsetSize(PassesOf(b.log, id), OneTo(b.started));
  }

  // ── One pass at a time ────────────────────────────────────────────

  /** No pass is opened while another is open. */
  predicate Apart(b: Browser, acts: seq<Act>)
    decreases |acts|
  {
    acts == []
    || ((acts[0].Open? ==> b.passes == map[]) && Apart(Step(b, acts[0]), acts[1..]))
  }

  /** Sent, with the reply still to be written. */
  ghost predicate InFlight(b: Browser, id: EntryId)
  {
    exists p :: p in b.passes && b.passes[p].reply.Some? && b.passes[p].todo != []
                && b.passes[p].todo[0] == id
  }

  /** What a row accounts for of the times its entry was sent. */
  function Accounted(q: Queue, id: EntryId): nat
  {
    if id !in q then 6
    else q[id].retries + (if q[id].status == Synced || q[id].status == Conflicted then 1 else 0)
  }

  ghost predicate RowSpent(b: Browser, id: EntryId)
  {
    && (id in b.store.queue ==>
          b.store.queue[id].retries <= if b.store.queue[id].status == Failed then 6 else 5)
    && Sends(b.log, id) <= Accounted(b.store.queue, id) + b.lost[id]
                           + (if InFlight(b, id) then 1 else 0)
  }

  /** The copies of the pass are what the rows still are. */
  ghost predicate Current(q: Queue, s: Pass)
  {
    && Distinct(s.todo) && (s.reply.Some? ==> s.todo != [])
    && forall i :: 0 <= i < |s.todo| ==>
         s.todo[i] in q && s.todo[i] in s.read && q[s.todo[i]] == s.read[s.todo[i]]
         && q[s.todo[i]].status == Pending
  }

  ghost predicate Alone(b: Browser)
  {
    && b.store.Valid()
    && (forall p, o :: p in b.passes && o in b.passes ==> p == o)
    && (forall p :: p in b.passes ==> Current(b.store.queue, b.passes[p]))
    && (forall id :: 0 <= id < b.store.nextId ==> RowSpent(b, id))
    && (forall id :: id >= b.store.nextId ==> Sends(b.log, id) == 0)
  }

  lemma {:induction false} EnqueueStaysAlone(b: Browser, op: string, at: Time)
    requires Alone(b)
    ensures Alone(Step(b, Enqueue(op, at)))
  {
    var b' := Step(b, Enqueue(op, at));
    forall id | 0 <= id < b'.store.nextId ensures RowSpent(b', id) {
      if id < b.store.nextId { assert RowSpent(b, id); }
      assert InFlight(b, id) <==> InFlight(b', id);
    }
    forall p | p in b'.passes ensures Current(b'.store.queue, b'.passes[p]) {
      assert Current(b.store.queue, b.passes[p]);
    }
  }

  lemma {:induction false} OpenStaysAlone(b: Browser)
    requires Alone(b) && b.passes == map[]
    ensures Alone(Step(b, Open))
  {
    var b', q := Step(b, Open), b.store.queue;
    ByCreationListsAll(q, PendingIds(q));
    forall id | 0 <= id < b.store.nextId ensures RowSpent(b', id) {
      assert RowSpent(b, id) && !InFlight(b, id);
    }
    var todo := ByCreation(q, PendingIds(q));
    forall i | 0 <= i < |todo| ensures todo[i] in PendingIds(q) { assert todo[i] in todo; }
    hide ByCreation, RowSpent;
  }

  lemma {:induction false} FetchStaysAlone(b: Browser, p: PassId, r: Response)
    requires Alone(b) && p in b.passes && b.passes[p].todo != [] && b.passes[p].reply == None
    ensures Alone(Step(b, Fetch(p, r)))
  {
    var b', sent := Step(b, Fetch(p, r)), b.passes[p].todo[0];
    assert Current(b.store.queue, b.passes[p]);
    assert b'.passes[p].reply.Some? && InFlight(b', sent);
    forall id ensures Sends(b'.log, id) == Sends(b.log, id) + (if id == sent then 1 else 0) {
      LogGrows(b.log, Sending(p, sent, r), id);
    }
    hide Sends;
    forall id | 0 <= id < b.store.nextId ensures RowSpent(b', id) {
      assert RowSpent(b, id) && !InFlight(b, id);
    }
  }

  lemma {:induction false} UpdateStaysAlone(b: Browser, p: PassId)
    requires Alone(b) && p in b.passes && b.passes[p].reply.Some?
    ensures Alone(Step(b, Update(p)))
  {
    var b', s := Step(b, Update(p)), b.passes[p];
    assert Current(b.store.queue, s);
    hide Sends;
    forall id | 0 <= id < b.store.nextId ensures RowSpent(b', id) {
      assert RowSpent(b, id) && !InFlight(b', id);
      assert RowSpent(b, s.todo[0]);
      if id != s.todo[0] { assert !InFlight(b, id); }
    }
    assert Current(b'.store.queue, b'.passes[p]);
  }

  lemma {:induction false} EndStaysAlone(b: Browser, p: PassId, at: Time)
    requires Alone(b) && p in b.passes
    ensures Alone(Step(b, Close(p, at))) && Alone(Step(b, Cut(p)))
  {
    hide Sends;
    var closed, cut := Step(b, Close(p, at)), Step(b, Cut(p));
    assert Current(b.store.queue, b.passes[p]);
    forall id | 0 <= id < b.store.nextId ensures RowSpent(closed, id) && RowSpent(cut, id) {
      assert RowSpent(b, id);
      assert !InFlight(cut, id);
      if b.passes[p].todo == [] { assert !InFlight(b, id) && !InFlight(closed, id); }
    }
  }

  lemma {:induction false} StepStaysAlone(b: Browser, a: Act)
    requires Alone(b) && (a.Open? ==> b.passes == map[])
    ensures Alone(Step(b, a))
  {
    var b' := Step(b, a);
    hide Alone;
    match a
    case Enqueue(op, at) => EnqueueStaysAlone(b, op, at);
    case Open => OpenStaysAlone(b);
    case Fetch(p, r) => if b' != b { FetchStaysAlone(b, p, r); }
    case Update(p) => if b' != b { UpdateStaysAlone(b, p); }
    case Close(p, at) => if b' != b { EndStaysAlone(b, p, at); }
    case Cut(p) => if b' != b { EndStaysAlone(b, p, 0); }
  }

  lemma {:induction false} RunStaysAlone(b: Browser, acts: seq<Act>)
    requires Alone(b) && Apart(b, acts)
    ensures Alone(Run(b, acts))
    decreases |acts|
  {
    if acts != [] {
      StepStaysAlone(b, acts[0]);
      hide Step, Alone;
      RunStaysAlone(Step(b, acts[0]), acts[1..]);
    }
  }

  /** Main theorem: when no pass is opened while another is open, an entry is sent at most six times,
      and once more for each time its pass was cut off before it wrote the reply. */
  lemma {:induction false} ApartSendsAtMostSix(acts: seq<Act>, id: EntryId)
    requires Apart(Fresh(), acts)
    ensures Sends(Run(Fresh(), acts).log, id) <= 6 + Run(Fresh(), acts).lost[id]
  {
    var b := Run(Fresh(), acts);
    RunStaysAlone(Fresh(), acts);
    if id < b.store.nextId {
      assert RowSpent(b, id);
      if InFlight(b, id) {
        var p :| p in b.passes && b.passes[p].reply.Some? && b.passes[p].todo != []
                 && b.passes[p].todo[0] == id;
        assert Current(b.store.queue, b.passes[p]);
      }
    }
  }

  // ── A pass without interruption ───────────────────────────────────

  function PassActs(p: PassId, todo: seq<EntryId>, replies: EntryId -> Response): seq<Act>
  {
    if todo == [] then []
    else [Fetch(p, replies(todo[0]))] + ([Update(p)] + PassActs(p, todo[1..], replies))
  }

  lemma {:induction false} RunSplit(b: Browser, a: seq<Act>, c: seq<Act>)
    ensures Run(b, a + c) == Run(Run(b, a), c)
    decreases |a|
  {
    hide Step;
    if a == [] {
      assert a + c == c;
    } else {
      assert (a + c)[1..] == a[1..] + c;
      RunSplit(Step(b, a[0]), a[1..], c);
    }
  }

  lemma OneAct(b: Browser, a: Act, rest: seq<Act>)
    ensures Run(b, [a] + rest) == Run(Step(b, a), rest)
  {
    assert ([a] + rest)[1..] == rest;
  }

  lemma WrittenIsReact(e: Entry, r: Response)
    ensures Written(e, e, r) == React(e, r)
  {
  }

  lemma {:induction false} PassRuns(b: Browser, p: PassId, q: Queue, order: seq<EntryId>, i: nat,
                                    replies: EntryId -> Response)
    requires order == ByCreation(q, PendingIds(q)) && i <= |order|
    requires p in b.passes && b.passes[p] == Pass(q, order[i..], None)
    requires b.store.queue == Attempted(q, Sent(order, i), replies)
    ensures
      var b' := Run(b, PassActs(p, order[i..], replies));
      && b'.store == Local(Attempted(q, PendingIds(q), replies), b.store.nextId)
      && p in b'.passes && b'.passes[p].todo == [] && b'.passes - {p} == b.passes - {p}
    decreases |order| - i
  {
    hide Attempted, Sent, ByCreation, PendingIds, React;
    if i == |order| {
      AllSent(q, order);
    } else {
      var id := order[i];
      NotYetSent(q, order, i);
      SentOneMore(q, order, i, replies);
      var sent := Step(b, Fetch(p, replies(id)));
      var next := Step(sent, Update(p));
      assert order[i..][0] == id && order[i..][1..] == order[i + 1..];
      assert Written(q[id], q[id], replies(id)) == React(q[id], replies(id)) by {
        WrittenIsReact(q[id], replies(id));
      }
      var rest := PassActs(p, order[i + 1..], replies);
      OneAct(b, Fetch(p, replies(id)), [Update(p)] + rest);
      OneAct(sent, Update(p), rest);
      PassRuns(next, p, q, order, i + 1, replies);
      assert next.passes - {p} == b.passes - {p};
    }
  }

  /** A pass whose steps follow one another, whatever passes are open beside it, leaves the store as
      one complete pass. */
  lemma {:induction false} UninterruptedIsAfterPass(b: Browser, replies: EntryId -> Response,
                                                    at: Time)
    ensures
      var q, p := b.store.queue, b.started + 1;
      var acts := [Open] + (PassActs(p, ByCreation(q, PendingIds(q)), replies) + [Close(p, at)]);
      Run(b, acts).store == Local(AfterPass(q, replies, at), b.store.nextId)
  {
    var q, p := b.store.queue, b.started + 1;
    var order := ByCreation(q, PendingIds(q));
    var acts := PassActs(p, order, replies);
    OneAct(b, Open, acts + [Close(p, at)]);
    var start := Step(b, Open);
    assert order[0..] == order && Attempted(q, Sent(order, 0), replies) == q;
    PassRuns(start, p, q, order, 0, replies);
    RunSplit(start, acts, [Close(p, at)]);
    OneAct(Run(start, acts), Close(p, at), []);
    assert [Close(p, at)] + [] == [Close(p, at)];
    IsAfterPass(q, replies, at);
  }

  // ── When an entry is sent again ───────────────────────────────────

  /** An open pass has the entry still to send. */
  ghost predicate StillUnsent(b: Browser, id: EntryId)
  {
    exists p :: p in b.passes && id in Unsent(b.passes[p])
  }

  predicate Reopens(s: Pass, id: EntryId)
  {
    s.reply.Some? && !Decisive(s.reply.value) && s.todo != [] && s.todo[0] == id
    && id in s.read && s.read[id].retries < 5
  }

  /** An open pass is about to write over the row a reply that decided nothing, from a copy with
      less than five retries. */
  ghost predicate AboutToReopen(b: Browser, id: EntryId)
  {
    id in b.store.queue
    && exists p :: p in b.passes && Reopens(b.passes[p], id)
  }

  ghost predicate MayBeSent(b: Browser, id: EntryId)
  {
    id in PendingIds(b.store.queue) || StillUnsent(b, id) || AboutToReopen(b, id)
  }

  lemma {:induction false} OpenSendsNoMore(b: Browser, id: EntryId)
    requires !MayBeSent(b, id)
    ensures !MayBeSent(Step(b, Open), id)
  {
    var b', q := Step(b, Open), b.store.queue;
    ByCreationListsAll(q, PendingIds(q));
    forall p | p in b'.passes
      ensures id !in Unsent(b'.passes[p]) && !(id in q && Reopens(b'.passes[p], id))
    {
      if p != b.started + 1 { assert b'.passes[p] == b.passes[p]; }
    }
  }

  lemma {:induction false} FetchSendsNoMore(b: Browser, p: PassId, r: Response, id: EntryId)
    requires !MayBeSent(b, id)
    requires p in b.passes && b.passes[p].todo != [] && b.passes[p].reply == None
    ensures b.passes[p].todo[0] != id && !MayBeSent(Step(b, Fetch(p, r)), id)
  {
    var b' := Step(b, Fetch(p, r));
    assert b.passes[p].todo[0] in Unsent(b.passes[p]);
    forall o | o in b'.passes
      ensures id !in Unsent(b'.passes[o])
      ensures !(id in b.store.queue && Reopens(b'.passes[o], id))
    {
      assert id !in Unsent(b.passes[o]) && !(id in b.store.queue && Reopens(b.passes[o], id));
    }
  }

  lemma {:induction false} UpdateSendsNoMore(b: Browser, p: PassId, id: EntryId)
    requires !MayBeSent(b, id) && p in b.passes && b.passes[p].todo != []
    requires b.passes[p].reply.Some?
    ensures !MayBeSent(Step(b, Update(p)), id)
  {
    var b' := Step(b, Update(p));
    assert id in b.store.queue ==> !Reopens(b.passes[p], id);
    forall o | o in b'.passes
      ensures id !in Unsent(b'.passes[o])
      ensures !(id in b'.store.queue && Reopens(b'.passes[o], id))
    {
      assert id !in Unsent(b.passes[o]) && !(id in b.store.queue && Reopens(b.passes[o], id));
    }
  }

  lemma {:induction false} EndSendsNoMore(b: Browser, a: Act, id: EntryId)
    requires !MayBeSent(b, id) && (a.Close? || a.Cut?)
    ensures !MayBeSent(Step(b, a), id)
  {
    var b' := Step(b, a);
    forall o | o in b'.passes
      ensures id !in Unsent(b'.passes[o])
      ensures !(id in b'.store.queue && Reopens(b'.passes[o], id))
    {
      assert id !in Unsent(b.passes[o]) && !(id in b.store.queue && Reopens(b.passes[o], id));
    }
  }

  lemma {:induction false} EnqueueSendsNoMore(b: Browser, op: string, at: Time, id: EntryId)
    requires !MayBeSent(b, id) && id < b.store.nextId
    ensures !MayBeSent(Step(b, Enqueue(op, at)), id)
  {
  }

  lemma {:induction false} StepSendsNoMore(b: Browser, a: Act, id: EntryId)
    requires !MayBeSent(b, id) && id < b.store.nextId
    ensures !MayBeSent(Step(b, a), id) && id < Step(b, a).store.nextId
    ensures Sends(Step(b, a).log, id) == Sends(b.log, id)
  {
    hide Sends, MayBeSent, PendingIds, ByCreation, WithoutExpired, WriteBack;
    var b' := Step(b, a);
    match a
    case Open => OpenSendsNoMore(b, id);
    case Fetch(p, r) =>
      if b' != b {
        FetchSendsNoMore(b, p, r, id);
        LogGrows(b.log, Sending(p, b.passes[p].todo[0], r), id);
      }
    case Update(p) => if b' != b { UpdateSendsNoMore(b, p, id); }
    case Enqueue(op, at) => EnqueueSendsNoMore(b, op, at, id);
    case _ => EndSendsNoMore(b, a, id);
  }

  lemma {:induction false} RunSendsNoMore(b: Browser, acts: seq<Act>, id: EntryId)
    requires !MayBeSent(b, id) && id < b.store.nextId
    ensures Sends(Run(b, acts).log, id) == Sends(b.log, id)
    decreases |acts|
  {
    hide Step, MayBeSent, Sends;
    if acts != [] {
      StepSendsNoMore(b, acts[0], id);
      RunSendsNoMore(Step(b, acts[0]), acts[1..], id);
    }
  }

  lemma NothingRuns(b: Browser)
    ensures Run(b, []) == b
  {
  }

  /** A pass goes on until it has sent the entry. */
  lemma {:induction false} PassSends(b: Browser, p: PassId, id: EntryId) returns (acts: seq<Act>)
    requires p in b.passes && b.passes[p].reply == None && id in b.passes[p].todo
    ensures Sends(Run(b, acts).log, id) > Sends(b.log, id)
    decreases |b.passes[p].todo|
  {
    hide Sends, WriteBack, Run;
    var todo := b.passes[p].todo;
    var sent := Step(b, Fetch(p, NoReply));
    LogGrows(b.log, Sending(p, todo[0], NoReply), id);
    if todo[0] == id {
      acts := [Fetch(p, NoReply)] + [];
      OneAct(b, Fetch(p, NoReply), []);
      NothingRuns(sent);
    } else {
      var next := Step(sent, Update(p));
      assert next.log == sent.log && next.passes[p].todo == todo[1..];
      var rest := PassSends(next, p, id);
      acts := [Fetch(p, NoReply)] + ([Update(p)] + rest);
      OneAct(b, Fetch(p, NoReply), [Update(p)] + rest);
      OneAct(sent, Update(p), rest);
    }
  }

  lemma {:induction false} UnsentIsSent(b: Browser, p: PassId, id: EntryId)
    returns (acts: seq<Act>)
    requires p in b.passes && id in Unsent(b.passes[p])
    ensures Sends(Run(b, acts).log, id) > Sends(b.log, id)
  {
    hide Sends, WriteBack, Run;
    if b.passes[p].reply == None {
      acts := PassSends(b, p, id);
    } else {
      var next := Step(b, Update(p));
      var rest := PassSends(next, p, id);
      acts := [Update(p)] + rest;
      OneAct(b, Update(p), rest);
    }
  }

  lemma {:induction false} PendingIsSent(b: Browser, id: EntryId) returns (acts: seq<Act>)
    requires id in PendingIds(b.store.queue)
    ensures Sends(Run(b, acts).log, id) > Sends(b.log, id)
  {
    hide Sends, Run;
    ByCreationListsAll(b.store.queue, PendingIds(b.store.queue));
    hide ByCreation, PendingIds;
    var rest := PassSends(Step(b, Open), b.started + 1, id);
    acts := [Open] + rest;
    OneAct(b, Open, rest);
  }

  lemma {:induction false} ReopenedIsSent(b: Browser, id: EntryId) returns (acts: seq<Act>)
    requires AboutToReopen(b, id)
    ensures Sends(Run(b, acts).log, id) > Sends(b.log, id)
  {
    hide Sends, Run;
    var p :| p in b.passes && Reopens(b.passes[p], id);
    var rest := PendingIsSent(Step(b, Update(p)), id);
    acts := [Update(p)] + rest;
    OneAct(b, Update(p), rest);
  }

  /** Main theorem: however the passes have overlapped so far, an entry is ever sent again exactly
      when it is pending, an open pass has it still to send, or an open pass is about to make it
      pending again. */
  lemma {:induction false} SentAgainIff(b: Browser, id: EntryId)
    requires id < b.store.nextId
    ensures (exists acts :: Sends(Run(b, acts).log, id) > Sends(b.log, id)) <==> MayBeSent(b, id)
  {
    hide Run, Sends;
    if MayBeSent(b, id) {
      var acts;
      if id in PendingIds(b.store.queue) {
        acts := PendingIsSent(b, id);
      } else if p :| p in b.passes && id in Unsent(b.passes[p]) {
        acts := UnsentIsSent(b, p, id);
      } else {
        acts := ReopenedIsSent(b, id);
      }
      assert Sends(Run(b, acts).log, id) > Sends(b.log, id);
    } else {
      forall acts ensures Sends(Run(b, acts).log, id) == Sends(b.log, id) {
        RunSendsNoMore(b, acts, id);
      }
    }
  }

  /** So an entry that is no longer pending after passes that kept apart is never sent again, however
      passes overlap from then on. */
  lemma {:induction false} SettledApartIsFinal(before: seq<Act>, acts: seq<Act>, id: EntryId)
    requires Apart(Fresh(), before)
    requires
      var b := Run(Fresh(), before);
      id < b.store.nextId && id !in PendingIds(b.store.queue)
    ensures
      var b := Run(Fresh(), before);
      Sends(Run(b, acts).log, id) == Sends(b.log, id)
  {
    var b := Run(Fresh(), before);
    RunStaysAlone(Fresh(), before);
    forall p | p in b.passes
      ensures id !in Unsent(b.passes[p])
      ensures !(id in b.store.queue && Reopens(b.passes[p], id))
    {
      assert Current(b.store.queue, b.passes[p]);
    }
    RunSendsNoMore(b, acts, id);
  }

  // ── Back online ───────────────────────────────────────────────────

  lemma RunOneMore(acts: seq<Act>, i: nat, b: Browser)
    requires i < |acts| && Run(Fresh(), acts[..i]) == b
    ensures Run(Fresh(), acts[..i + 1]) == Step(b, acts[i])
  {
    hide Step;
    assert acts[..i + 1] == acts[..i] + [acts[i]];
    RunSplit(Fresh(), acts[..i], [acts[i]]);
    OneAct(b, acts[i], []);
    assert [acts[i]] + [] == [acts[i]];
  }

  /** One operation waits, the page starts two passes, the first has it accepted and the second gets
      no reply. */
  function Reconnected(): seq<Act>
  {
    [Enqueue("charge", 0), Open, Open, Fetch(1, Accepted), Update(1), Fetch(2, NoReply), Update(2),
     Close(1, 0), Close(2, 0)]
  }

  lemma OnlyEntry(e: Entry)
    requires e.status == Pending
    ensures
      var q: Queue := map[0 := e];
      PendingIds(q) == {0} && ByCreation(q, PendingIds(q)) == [0]
  {
    var q: Queue := map[0 := e];
    assert PendingIds(q) == {0};
    ByCreationListsAll(q, {0});
    assert ByCreation(q, {0})[0] in ByCreation(q, {0});
  }

  lemma {:induction false} TwoPassesRead(b: Browser)
    requires b == Step(Fresh(), Enqueue("charge", 0))
    ensures
      var q: Queue := map[0 := Entry("charge", 0, Pending, 0)];
      Step(Step(b, Open), Open)
      == Browser(Local(q, 1), map[1 := Pass(q, [0], None), 2 := Pass(q, [0], None)], 2, [],
                 multiset{})
  {
    OnlyEntry(Entry("charge", 0, Pending, 0));
    hide ByCreation;
  }

  /** The state after both passes. */
  function Reopened(): Browser
  {
    Browser(Local(map[0 := Entry("charge", 0, Pending, 1)], 1), map[], 2,
            [Sending(1, 0, Accepted), Sending(2, 0, NoReply)], multiset{})
  }

  lemma FollowsReconnected(b1: Browser, b2: Browser, b3: Browser, b4: Browser, b5: Browser,
                           b6: Browser, b7: Browser, b8: Browser)
    requires
      var acts := Reconnected();
      && Step(Fresh(), acts[0]) == b1 && Step(b1, acts[1]) == b2 && Step(b2, acts[2]) == b3
      && Step(b3, acts[3]) == b4 && Step(b4, acts[4]) == b5 && Step(b5, acts[5]) == b6
      && Step(b6, acts[6]) == b7 && Step(b7, acts[7]) == b8
    ensures Run(Fresh(), Reconnected()) == Step(b8, Reconnected()[8])
  {
    hide Step;
    var acts := Reconnected();
    assert acts[..0] == [];
    RunOneMore(acts, 0, Fresh());
    RunOneMore(acts, 1, b1);
    RunOneMore(acts, 2, b2);
    RunOneMore(acts, 3, b3);
    RunOneMore(acts, 4, b4);
    RunOneMore(acts, 5, b5);
    RunOneMore(acts, 6, b6);
    RunOneMore(acts, 7, b7);
    RunOneMore(acts, 8, b8);
    assert acts[..9] == acts;
  }

  /** A pass sends its only entry and writes what came back. */
  lemma SendsTheOnly(b: Browser, p: PassId, q: Queue, row: Entry, r: Response)
    requires p in b.passes && b.passes[p] == Pass(q, [0], None) && 0 in q
    requires b.store == Local(map[0 := row], 1)
    ensures Step(Step(b, Fetch(p, r)), Update(p))
            == b.(store := Local(map[0 := Written(row, q[0], r)], 1),
                  passes := b.passes[p := Pass(q, [], None)], log := b.log + [Sending(p, 0, r)])
  {
    hide Written;
    assert [0 as EntryId][1..] == [];
    assert WriteBack(b.store.queue, 0, q, r) == map[0 := Written(row, q[0], r)];
    assert b.passes[p := Pass(q, [0], Some(r))][p := Pass(q, [], None)]
           == b.passes[p := Pass(q, [], None)];
  }

  lemma BothClose(b: Browser, q: Queue, row: Entry)
    requires b.store == Local(map[0 := row], 1) && row.status == Pending
    requires b.passes.Keys == {1, 2} && b.passes[1].todo == [] && b.passes[2].todo == []
    ensures Step(Step(b, Close(1, 0)), Close(2, 0)) == b.(passes := map[])
  {
    assert WithoutExpired(b.store.queue, 0) == b.store.queue;
  }

  lemma {:induction false} ReconnectingReopens()
    ensures Run(Fresh(), Reconnected()) == Reopened()
  {
    hide Step, Run;
    var acts := Reconnected();
    var e := Entry("charge", 0, Pending, 0);
    var q: Queue := map[0 := e];
    var b1 := Step(Fresh(), acts[0]);
    var b2 := Step(b1, acts[1]);
    var b3 := Step(b2, acts[2]);
    TwoPassesRead(b1);
    var b4 := Step(b3, acts[3]);
    var b5 := Step(b4, acts[4]);
    SendsTheOnly(b3, 1, q, e, Accepted);
    var b6 := Step(b5, acts[5]);
    var b7 := Step(b6, acts[6]);
    SendsTheOnly(b5, 2, q, e.(status := Synced), NoReply);
    var b8 := Step(b7, acts[7]);
    BothClose(b7, q, e.(retries := 1));
    FollowsReconnected(b1, b2, b3, b4, b5, b6, b7, b8);
  }

  /** The store with one entry waiting. */
  function OneWaiting(): Local
  {
    Local(map[0 := Entry("charge", 0, Pending, 0)], 1)
  }

  /** One more pass opens and sends the entry. */
  lemma OneMoreSends(b: Browser)
    requires b.store == OneWaiting()
    ensures
      var p := b.started + 1;
      var b' := Step(Step(b, Open), Fetch(p, NoReply));
      && b'.started == p && b'.store == b.store && b'.log == b.log + [Sending(p, 0, NoReply)]
  {
    OnlyEntry(Entry("charge", 0, Pending, 0));
    hide ByCreation, PendingIds;
  }

  lemma OneWaits()
    ensures
      var b := Run(Fresh(), [Enqueue("charge", 0)]);
      && b.started == 0 && Sends(b.log, 0) == 0
      && b.store == OneWaiting()
  {
    OneAct(Fresh(), Enqueue("charge", 0), []);
    assert [Enqueue("charge", 0)] + [] == [Enqueue("charge", 0)];
  }

  lemma {:induction false} RunOpensAndSends(before: seq<Act>, p: PassId, b: Browser)
    returns (acts: seq<Act>)
    requires Run(Fresh(), before) == b
    ensures Run(Fresh(), acts) == Step(Step(b, Open), Fetch(p, NoReply))
  {
    hide *;
    acts := before + [Open];
    RunSplit(Fresh(), before, [Open]);
    NothingMore([Open]);
    OneAct(b, Open, []);
    NothingRuns(Step(b, Open));
    var more := acts + [Fetch(p, NoReply)];
    RunSplit(Fresh(), acts, [Fetch(p, NoReply)]);
    NothingMore([Fetch(p, NoReply)]);
    OneAct(Step(b, Open), Fetch(p, NoReply), []);
    NothingRuns(Step(Step(b, Open), Fetch(p, NoReply)));
    acts := more;
  }

  /** The bound is reached for any number of passes: n passes that overlap send one entry n times. */
  lemma {:induction false} OverlappingPassesSendEach(n: nat) returns (acts: seq<Act>)
    ensures
      var b := Run(Fresh(), acts);
      && b.started == n && Sends(b.log, 0) == n
      && b.store == OneWaiting()
  {
    if n == 0 {
      hide *;
      acts := [Enqueue("charge", 0)];
      OneWaits();
    } else {
      hide *;
      var before := OverlappingPassesSendEach(n - 1);
      var b := Run(Fresh(), before);
      OneMoreSends(b);
      LogGrows(b.log, Sending(n, 0, NoReply), 0);
      acts := RunOpensAndSends(before, n, b);
    }
  }

  /** An accepted operation is sent again: after the two passes of a reconnection it is pending, and
      the next pass sends it once more. */
  lemma {:induction false} AcceptedIsSentAgain()
    ensures
      var b := Run(Fresh(), Reconnected());
      && b.passes == map[] && Replied(b.log, 0, Accepted) && 0 in PendingIds(b.store.queue)
      && Step(Step(b, Open), Fetch(3, Accepted)).log == b.log + [Sending(3, 0, Accepted)]
  {
    ReconnectingReopens();
    OnlyEntry(Entry("charge", 0, Pending, 1));
    hide Run, ByCreation;
    assert Reopened().log[0].reply == Accepted;
  }
}
