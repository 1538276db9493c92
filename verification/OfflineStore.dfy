/** The browser's offline queue (static/js/offline-store.js): entries wait as `pending` and each
    online pass sends every one of them once. */
module OfflineStore {
  import opened Rows

  type EntryId = nat
  type Time = int

  const WEEK := 7 * 24 * 60 * 60 * 1000

  datatype EntryStatus = Pending | Synced | Conflicted | Failed

  datatype Entry = Entry(op: string, createdAt: Time, status: EntryStatus, retries: nat)

  /** How a request ends: accepted, a 409 whose body may or may not parse, any other status, or no
      reply at all. */
  datatype Response = Accepted | Refused(readable: bool) | OtherStatus | NoReply

  type Queue = map<EntryId, Entry>

  /** The update after one attempt. */
  function React(e: Entry, r: Response): Entry
  {
    if r == Accepted then e.(status := Synced)
    else if r == Refused(true) then e.(status := Conflicted)
    else e.(retries := e.retries + 1, status := if e.retries >= 5 then Failed else Pending)
  }

  function PendingIds(q: Queue): set<EntryId>
  {
    set id | id in q && q[id].status == Pending
  }

  // ── Sending order ─────────────────────────────────────────────────

  predicate Before(q: Queue, a: EntryId, b: EntryId)
    requires a in q && b in q
  {
    q[a].createdAt < q[b].createdAt || (q[a].createdAt == q[b].createdAt && a <= b)
  }

  lemma {:induction false} OldestExists(q: Queue, ids: set<EntryId>) returns (m: EntryId)
    requires ids != {} && ids <= q.Keys
    ensures m in ids && forall x :: x in ids ==> Before(q, m, x)
    decreases |ids|
  {
    m :| m in ids;
    var rest := ids - {m};
    assert ids == rest + {m};
    if rest != {} {
      var first := OldestExists(q, rest);
      if Before(q, first, m) { m := first; }
    }
  }

  function Oldest(q: Queue, ids: set<EntryId>): (m: EntryId)
    requires ids != {} && ids <= q.Keys
    ensures m in ids && forall x :: x in ids ==> Before(q, m, x)
  {
    assert exists m :: m in ids && forall x :: x in ids ==> Before(q, m, x) by {
      var m := OldestExists(q, ids);
    }
    var m :| m in ids && forall x :: x in ids ==> Before(q, m, x);
    m
  }

  /** sortBy('created_at'), ties by key. */
  function ByCreation(q: Queue, ids: set<EntryId>): seq<EntryId>
    requires ids <= q.Keys
    decreases |ids|
  {
    if ids == {} then []
    else
      var m := Oldest(q, ids);
      [m] + ByCreation(q, ids - {m})
  }

  /** Every id once. */
  lemma {:induction false} ByCreationListsAll(q: Queue, ids: set<EntryId>)
    requires ids <= q.Keys
    ensures |ByCreation(q, ids)| == |ids|
    ensures forall x :: x in ByCreation(q, ids) <==> x in ids
    ensures forall i, j :: 0 <= i < j < |ByCreation(q, ids)| ==>
              ByCreation(q, ids)[i] != ByCreation(q, ids)[j]
    decreases |ids|
  {
    if ids != {} {
      var m := Oldest(q, ids);
      ByCreationListsAll(q, ids - {m});
      var rest := ByCreation(q, ids - {m});
      assert ByCreation(q, ids) == [m] + rest;
      hide ByCreation, Oldest;
    }
  }

  lemma {:induction false} ByCreationAt(q: Queue, ids: set<EntryId>, i: nat)
    requires ids <= q.Keys && i < |ByCreation(q, ids)|
    ensures ByCreation(q, ids)[i] in ids
  {
    ByCreationListsAll(q, ids);
    assert ByCreation(q, ids)[i] in ByCreation(q, ids);
  }

  /** Oldest first. */
  lemma {:induction false} ByCreationIsSorted(q: Queue, ids: set<EntryId>, i: nat, j: nat)
    requires ids <= q.Keys && i < j < |ByCreation(q, ids)|
    ensures ByCreation(q, ids)[i] in q && ByCreation(q, ids)[j] in q
    ensures Before(q, ByCreation(q, ids)[i], ByCreation(q, ids)[j])
    decreases |ids|
  {
    ByCreationAt(q, ids, j);
    if i > 0 {
      ByCreationIsSorted(q, ids - {Oldest(q, ids)}, i - 1, j - 1);
    }
  }

  // ── One pass ──────────────────────────────────────────────────────

  predicate Expired(e: Entry, now: Time)
  {
    e.status == Synced && e.createdAt < now - WEEK
  }

  function Attempted(q: Queue, ids: set<EntryId>, replies: EntryId -> Response): Queue
  {
    map id | id in q :: if id in ids then React(q[id], replies(id)) else q[id]
  }

  function WithoutExpired(q: Queue, now: Time): Queue
  {
    map id | id in q && !Expired(q[id], now) :: q[id]
  }

  /** A complete online pass. */
  function AfterPass(q: Queue, replies: EntryId -> Response, now: Time): Queue
  {
    WithoutExpired(Attempted(q, PendingIds(q), replies), now)
  }

  function Sent(order: seq<EntryId>, i: nat): set<EntryId>
    requires i <= |order|
  {
    set k | 0 <= k < i :: order[k]
  }

  lemma SentOneMore(q: Queue, order: seq<EntryId>, i: nat, replies: EntryId -> Response)
    requires i < |order| && order[i] in q && order[i] !in Sent(order, i)
    ensures order[i] in Attempted(q, Sent(order, i), replies)
    ensures Attempted(q, Sent(order, i), replies)[order[i]] == q[order[i]]
    ensures Attempted(q, Sent(order, i + 1), replies)
            == Attempted(q, Sent(order, i), replies)[order[i] := React(q[order[i]],
                                                                        replies(order[i]))]
  {
    assert Sent(order, i + 1) == Sent(order, i) + {order[i]};
  }

  /** The queue table and its auto-increment counter. */
  datatype Local = Local(queue: Queue, nextId: EntryId)
  {
    ghost predicate Valid()
    {
      forall id :: id in queue ==> id < nextId
    }
  }

  function WithOperation(s: Local, op: string, now: Time): Local
  {
    Local(s.queue[s.nextId := Entry(op, now, Pending, 0)], s.nextId + 1)
  }

  lemma NotYetSent(q: Queue, order: seq<EntryId>, i: nat)
    requires order == ByCreation(q, PendingIds(q)) && i < |order|
    ensures order[i] in q && order[i] !in Sent(order, i)
  {
    ByCreationAt(q, PendingIds(q), i);
    ByCreationListsAll(q, PendingIds(q));
  }

  lemma AllSent(q: Queue, order: seq<EntryId>)
    requires order == ByCreation(q, PendingIds(q))
    ensures Sent(order, |order|) == PendingIds(q)
  {
    ByCreationListsAll(q, PendingIds(q));
    forall x | x in PendingIds(q) ensures x in Sent(order, |order|) {
      assert x in order;
    }
    forall x | x in Sent(order, |order|) ensures x in PendingIds(q) {
      assert x in order;
    }
  }

  lemma IsAfterPass(q: Queue, replies: EntryId -> Response, now: Time)
    ensures WithoutExpired(Attempted(q, PendingIds(q), replies), now) == AfterPass(q, replies, now)
  {
  }

  class Store {
    var syncQueue: Queue
    var nextId: EntryId

    function Rows(): Local
      reads this
    {
      Local(syncQueue, nextId)
    }

    constructor ()
      ensures Rows() == Local(map[], 0)
    {
      syncQueue, nextId := map[], 0;
    }

    method QueueOperation(op: string, now: Time) returns (id: EntryId)
      modifies this
      ensures Rows() == WithOperation(old(Rows()), op, now) && id == old(nextId)
    {
      id := nextId;
      syncQueue := syncQueue[id := Entry(op, now, Pending, 0)];
      nextId := nextId + 1;
    }

    /** One fetch and the update that follows its reply. */
    method Send(id: EntryId, response: Response)
      requires id in syncQueue
      modifies this`syncQueue
      ensures syncQueue == old(syncQueue)[id := React(old(syncQueue)[id], response)]
    {
      var op := syncQueue[id];
      if response.Accepted? {
        syncQueue := syncQueue[id := op.(status := Synced)];
      } else if response == Refused(true) {
        syncQueue := syncQueue[id := op.(status := Conflicted)];
      } else {
        syncQueue := syncQueue[id := op.(retries := op.retries + 1,
                                         status := if op.retries >= 5 then Failed else Pending)];
      }
    }

    /** Sends the pending entries oldest first; the entries used are those read at the start. */
    method SyncPendingOperations(online: bool, replies: EntryId -> Response, now: Time)
      returns (sent: seq<EntryId>, remaining: nat)
      modifies this`syncQueue
      ensures !online ==> syncQueue == old(syncQueue) && sent == []
      ensures online ==> syncQueue == AfterPass(old(syncQueue), replies, now)
                         && sent == ByCreation(old(syncQueue), PendingIds(old(syncQueue)))
                         && remaining == |PendingIds(syncQueue)|
    {
      sent, remaining := [], 0;
      if !online {
        return;
      }
      ghost var was := syncQueue;
      var pending := ByCreation(syncQueue, PendingIds(syncQueue));
      assert Attempted(was, Sent(pending, 0), replies) == was;
      hide *;
      for i := 0 to |pending|
        invariant sent == pending[..i]
        invariant syncQueue == Attempted(was, Sent(pending, i), replies)
      {
        NotYetSent(was, pending, i);
        SentOneMore(was, pending, i, replies);
        Send(pending[i], replies(pending[i]));
        sent := sent + [pending[i]];
      }
      AllSent(was, pending);
      IsAfterPass(was, replies, now);
      syncQueue := WithoutExpired(syncQueue, now);
      remaining := |PendingIds(syncQueue)|;
    }
  }

  // ── Whole runs ────────────────────────────────────────────────────

  /** What happens to the store: an operation is queued, or a complete online pass is made, no two
      passes at once. */
  datatype Event = Queued(op: string, at: Time) | Passed(replies: EntryId -> Response, at: Time)

  function After(s: Local, e: Event): Local
  {
    match e
    case Queued(op, at) => WithOperation(s, op, at)
    case Passed(replies, at) => s.(queue := AfterPass(s.queue, replies, at))
  }

  function Final(s: Local, run: seq<Event>): Local
    decreases |run|
  {
    if run == [] then s else Final(After(s, run[0]), run[1..])
  }

  predicate IsPending(s: Local, id: EntryId)
  {
    id in s.queue && s.queue[id].status == Pending
  }

  /** The replies an entry gets over a run, in order: one for each pass that finds it pending. */
  function RepliesTo(s: Local, run: seq<Event>, id: EntryId): seq<Response>
    decreases |run|
  {
    if run == [] then []
    else
      (if run[0].Passed? && IsPending(s, id) then [run[0].replies(id)] else [])
      + RepliesTo(After(s, run[0]), run[1..], id)
  }

  function Passes(run: seq<Event>): nat
  {
    if run == [] then 0 else (if run[0].Passed? then 1 else 0) + Passes(run[1..])
  }

  predicate Decisive(r: Response)
  {
    r == Accepted || r == Refused(true)
  }

  /** An entry no longer pending gets no more replies, keeps its status, and disappears only if it
      was synced. */
  lemma {:induction false} SettledStays(s: Local, run: seq<Event>, id: EntryId, status: EntryStatus)
    requires s.Valid() && id < s.nextId && !IsPending(s, id)
    requires if id in s.queue then s.queue[id].status == status else status == Synced
    ensures RepliesTo(s, run, id) == []
    ensures
      var end := Final(s, run).queue;
      if id in end then end[id].status == status else status == Synced
    decreases |run|
  {
    if run != [] {
      SettledStays(After(s, run[0]), run[1..], id, status);
    }
  }

  /** The status replies lead to, for an entry that has `tries` unsuccessful attempts behind it. */
  function Verdict(tries: nat, replies: seq<Response>): EntryStatus
  {
    if replies != [] && replies[|replies| - 1] == Accepted then Synced
    else if replies != [] && replies[|replies| - 1] == Refused(true) then Conflicted
    else if tries + |replies| >= 6 then Failed
    else Pending
  }

  lemma {:induction false} VerdictStep(tries: nat, r: Response, rest: seq<Response>)
    requires !Decisive(r)
    ensures Verdict(tries, [r] + rest) == Verdict(tries + 1, rest)
  {
  }

  /** Main theorem: over any run a pending entry is sent until the first decisive reply, at most six
      times in all; its status is the one its last reply and their number call for; while it waits
      every pass has sent it; and an entry that is gone was accepted. */
  lemma {:induction false} RepliesDecide(s: Local, run: seq<Event>, id: EntryId)
    requires s.Valid() && IsPending(s, id) && s.queue[id].retries <= 5
    ensures
      var tries, replies, end := s.queue[id].retries, RepliesTo(s, run, id), Final(s, run);
      && tries + |replies| <= 6
      && (forall i :: 0 <= i < |replies| - 1 ==> !Decisive(replies[i]))
      && (id in end.queue ==> end.queue[id].status == Verdict(tries, replies))
      && (id !in end.queue ==> Verdict(tries, replies) == Synced)
      && (IsPending(end, id) ==> |replies| == Passes(run))
    decreases |run|
  {
    if run != [] {
      var s' := After(s, run[0]);
      var rest := RepliesTo(s', run[1..], id);
      if run[0].Queued? {
        assert s'.queue[id] == s.queue[id];
        RepliesDecide(s', run[1..], id);
        assert RepliesTo(s, run, id) == rest;
      } else {
        var r := run[0].replies(id);
        var e' := React(s.queue[id], r);
        assert RepliesTo(s, run, id) == [r] + rest;
        if e'.status == Pending {
          assert s'.queue[id] == e';
          RepliesDecide(s', run[1..], id);
          VerdictStep(s.queue[id].retries, r, rest);
        } else {
          assert id in s'.queue ==> s'.queue[id] == e';
          SettledStays(s', run[1..], id, e'.status);
        }
      }
    }
  }

  /** Queueing and passing never leave more than five retries on a pending entry. */
  ghost predicate WithinLimit(s: Local)
  {
    s.Valid() && forall id :: IsPending(s, id) ==> s.queue[id].retries <= 5
  }

  lemma {:induction false} RunsStayWithinLimit(s: Local, run: seq<Event>)
    requires WithinLimit(s)
    ensures WithinLimit(Final(s, run))
    decreases |run|
  {
    if run != [] {
      var s' := After(s, run[0]);
      forall id | IsPending(s', id) ensures s'.queue[id].retries <= 5 {
        if run[0].Passed? { assert id in s.queue; }
      }
      RunsStayWithinLimit(s', run[1..]);
    }
  }

  /** Main theorem: whatever has happened since the store was empty, six complete passes settle
      everything that was waiting before them. */
  lemma {:induction false} SixPassesClearTheQueue(before: seq<Event>, run: seq<Event>)
    requires Passes(run) >= 6
    ensures
      var s := Final(Local(map[], 0), before);
      PendingIds(s.queue) !! PendingIds(Final(s, run).queue)
  {
    RunsStayWithinLimit(Local(map[], 0), before);
    var s := Final(Local(map[], 0), before);
    forall id | id in PendingIds(s.queue) ensures id !in PendingIds(Final(s, run).queue) {
      RepliesDecide(s, run, id);
    }
  }

  /** From the empty store: no entry is ever sent more than six times. */
  lemma {:induction false} SentAtMostSixTimes(op: string, now: Time, s: Local, run: seq<Event>)
    requires s.Valid()
    ensures |RepliesTo(WithOperation(s, op, now), run, s.nextId)| <= 6
  {
    RepliesDecide(WithOperation(s, op, now), run, s.nextId);
  }
}
