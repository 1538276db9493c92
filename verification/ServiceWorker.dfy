/** The service worker's mutation queue (static/js/serviceworker.js): one sync shifts requests from
    the front, sends each, and on an exception puts the request back and stops. */
module ServiceWorker {

  /** How a fetch goes: it never arrives, it arrives but the reply is lost, it is answered (with any
      HTTP status: the loop does not look at it), or it is answered but telling the open tabs
      fails. */
  datatype Fate = NotReached | ReplyLost | Answered | TellingFailed

  predicate Arrives(f: Fate)
  {
    f != NotReached
  }

  function AnsweredFrom(i: nat, n: nat, fates: nat -> Fate): (k: nat)
    requires i <= n
    ensures i <= k <= n
    ensures forall j :: i <= j < k ==> fates(j) == Answered
    ensures k < n ==> fates(k) != Answered
    decreases n - i
  {
    if i < n && fates(i) == Answered then AnsweredFrom(i + 1, n, fates) else i
  }

  /** Requests answered before the first exception, when the next ones meet these fates. */
  function AnsweredFirst(n: nat, fates: nat -> Fate): (k: nat)
    ensures k <= n
    ensures forall i :: 0 <= i < k ==> fates(i) == Answered
    ensures k < n ==> fates(k) != Answered
  {
    AnsweredFrom(0, n, fates)
  }

  class SyncQueue<Request(0)> {
    var requests: seq<Request>

    constructor ()
      ensures requests == []
    {
      requests := [];
    }

    /** A failed mutation is appended. */
    method PushRequest(r: Request)
      modifies this
      ensures requests == old(requests) + [r]
    {
      requests := requests + [r];
    }

    /** fates(i) is what happens to the i-th fetch of this sync.  `arrived` is what the server gets,
        in order; done is false when the sync ends by an exception.  The requests answered are a
        prefix of the queue, in order, and the rest of the queue is intact; a request that arrived
        without an accepted answer is both at the server and at the front of the queue. */
    method OnSync(fates: nat -> Fate) returns (arrived: seq<Request>, done: bool)
      modifies this
      ensures
        var k := AnsweredFirst(|old(requests)|, fates);
        && requests == old(requests)[k..]
        && done == (k == |old(requests)|)
        && arrived == old(requests)[..k]
                      + (if k < |old(requests)| && Arrives(fates(k)) then [old(requests)[k]]
                         else [])
    {
      ghost var was := requests;
      arrived, done := [], false;
      ghost var i := 0;
      while requests != []
        invariant i <= |was| && requests == was[i..] && arrived == was[..i]
        invariant forall j :: 0 <= j < i ==> fates(j) == Answered
        invariant AnsweredFrom(0, |was|, fates) == AnsweredFrom(i, |was|, fates)
        decreases |requests|
      {
        var entry := requests[0];
        requests := requests[1..];
        var fate := fates(|arrived|);
        if Arrives(fate) {
          arrived := arrived + [entry];
        }
        if fate != Answered {
          requests := [entry] + requests;
          return;
        }
        i := i + 1;
      }
      done := true;
    }
  }

  /** Delivered and still queued overlap in at most the one front request: the split is exact
      exactly when the sync did not end on a request that arrived. */
  lemma {:induction false} ExactPrefixIff<Request>(q: seq<Request>, fates: nat -> Fate)
    ensures
      var k := AnsweredFirst(|q|, fates);
      var stopped := k < |q| && Arrives(fates(k));
      var arrived := q[..k] + (if stopped then [q[k]] else []);
      arrived + q[k..] == q <==> !stopped
  {
  }

  // ── Many syncs ────────────────────────────────────────────────────

  /** Requests are pushed and syncs are run, one at a time. */
  datatype Event = Pushed | Synced(fates: nat -> Fate)

  /** Requests are named by their position among all ever pushed: `answered` of them are done,
      `total` have been pushed, and `arrivals` is what the server has seen. */
  datatype Progress = Progress(answered: nat, total: nat, arrivals: seq<nat>)

  function Positions(start: nat, n: nat): (s: seq<nat>)
    ensures |s| == n && forall i :: 0 <= i < n ==> s[i] == start + i
  {
    seq(n, i => start + i)
  }

  function After(p: Progress, e: Event): Progress
    requires p.answered <= p.total
  {
    match e
    case Pushed => p.(total := p.total + 1)
    case Synced(fates) =>
      var n := p.total - p.answered;
      var k := AnsweredFirst(n, fates);
      var sent := if k < n && Arrives(fates(k)) then k + 1 else k;
      Progress(p.answered + k, p.total, p.arrivals + Positions(p.answered, sent))
  }

  function Final(p: Progress, run: seq<Event>): Progress
    requires p.answered <= p.total
    decreases |run|
  {
    if run == [] then p else Final(After(p, run[0]), run[1..])
  }

  /** A sync of the queue is the step of the progress: with `all` ever pushed, what arrives are the
      requests at the new positions and what is left starts at the new `answered`. */
  lemma {:induction false} SyncIsAStep<Request>(all: seq<Request>, answered: nat,
                                                fates: nat -> Fate)
    requires answered <= |all|
    ensures
      var q, p := all[answered..], After(Progress(answered, |all|, []), Synced(fates));
      var k := AnsweredFirst(|q|, fates);
      var arrived := q[..k] + (if k < |q| && Arrives(fates(k)) then [q[k]] else []);
      && q[k..] == all[p.answered..]
      && |arrived| == |p.arrivals|
      && forall i :: 0 <= i < |arrived| ==> arrived[i] == all[p.arrivals[i]]
  {
  }

  /** Every arrival is the same request as the one before it or the next one; everything answered
      has arrived, and at most one request more. */
  ghost predicate InTurn(p: Progress)
  {
    && p.answered <= p.total
    && (p.arrivals != [] ==> p.arrivals[0] == 0)
    && (forall i :: 0 < i < |p.arrivals| ==>
          p.arrivals[i] == p.arrivals[i - 1] || p.arrivals[i] == p.arrivals[i - 1] + 1)
    && (if p.arrivals == [] then p.answered == 0
        else p.answered - 1 <= p.arrivals[|p.arrivals| - 1] <= p.answered)
    && (p.arrivals != [] ==> p.arrivals[|p.arrivals| - 1] < p.total)
  }

  lemma {:induction false} StepsStayInTurn(p: Progress, e: Event)
    requires InTurn(p)
    ensures InTurn(After(p, e))
  {
  }

  lemma {:induction false} RunsStayInTurn(p: Progress, run: seq<Event>)
    requires InTurn(p)
    ensures InTurn(Final(p, run))
    decreases |run|
  {
    if run != [] {
      StepsStayInTurn(p, run[0]);
      RunsStayInTurn(After(p, run[0]), run[1..]);
    }
  }

  /** Main theorem: over any run of pushes and syncs the server sees the requests in the order they
      were queued, skipping none and repeating one only immediately. */
  lemma {:induction false} DeliveredInTurn(run: seq<Event>)
    ensures InTurn(Final(Progress(0, 0, []), run))
  {
    RunsStayInTurn(Progress(0, 0, []), run);
  }
}
