/** Payments delivered at the same time.  The sync handler and the billing service look for a payment
    with the same reference or charge id first and insert afterwards, without a lock and without a
    unique constraint; each sees committed rows only. */
module PaymentRaces {
  import opened Rows

  type Key = string
  type DeliveryId = nat

  /** An open delivery, and whether its look-up found a row; an empty key is not looked up. */
  datatype Delivery = Delivery(key: Key, found: bool)

  datatype State = State(rows: seq<Key>, active: map<DeliveryId, Delivery>)

  datatype Action = Arrive(t: DeliveryId, key: Key) | Commit(t: DeliveryId) | Abort(t: DeliveryId)

  function Step(s: State, a: Action): State
  {
    match a
    case Arrive(t, key) =>
      if t in s.active then s
      else s.(active := s.active[t := Delivery(key, key != "" && key in s.rows)])
    case Commit(t) =>
      if t !in s.active then s
      else State(if s.active[t].found then s.rows else s.rows + [s.active[t].key], s.active - {t})
    case Abort(t) => s.(active := s.active - {t})
  }

  function Run(s: State, actions: seq<Action>): State
    decreases |actions|
  {
    if actions == [] then s else Run(Step(s, actions[0]), actions[1..])
  }

  function Count(rows: seq<Key>, key: Key): nat
  {
    multiset(rows)[key]
  }

  /** The open deliveries of the key that found nothing: each commit of one is a row. */
  function Claims(s: State, key: Key): set<DeliveryId>
  {
    set t | t in s.active && s.active[t].key == key && !s.active[t].found
  }

  /** However the open deliveries end, the key gets no second row. */
  predicate AtMostOne(s: State, key: Key)
  {
    Count(s.rows, key) + |Claims(s, key)| <= 1
  }

  /** Finishing deliveries that are open. */
  predicate Finishing(actions: seq<Action>)
  {
    forall i :: 0 <= i < |actions| ==> !actions[i].Arrive?
  }

  // ── One step ──────────────────────────────────────────────────────

  lemma {:induction false} CommitCounts(s: State, t: DeliveryId, key: Key)
    requires t in s.active
    ensures
      var s' := Step(s, Commit(t));
      && Claims(s', key) == Claims(s, key) - {t}
      && Count(s'.rows, key) == Count(s.rows, key) + (if t in Claims(s, key) then 1 else 0)
  {
  }

  lemma {:induction false} FinishingKeepsTheSum(s: State, a: Action, key: Key)
    requires !a.Arrive?
    ensures
      var s' := Step(s, a);
      Count(s'.rows, key) + |Claims(s', key)| <= Count(s.rows, key) + |Claims(s, key)|
  {
    var s' := Step(s, a);
    if a.Commit? && a.t in s.active { CommitCounts(s, a.t, key); }
    assert Claims(s', key) <= Claims(s, key);
    SubsetSize(Claims(s', key), Claims(s, key));
  }

  /** A delivery that arrives keeps the key single exactly when it finds a row or nobody else is about
      to add one. */
  lemma {:induction false} ArrivalIff(s: State, t: DeliveryId, key: Key)
    requires key != "" && t !in s.active && AtMostOne(s, key)
    ensures AtMostOne(Step(s, Arrive(t, key)), key) <==> Claims(s, key) == {}
  {
    var s' := Step(s, Arrive(t, key));
    if key in s.rows {
      assert Claims(s', key) == Claims(s, key);
      assert |Claims(s, key)| == 0;
    } else {
      assert Claims(s', key) == Claims(s, key) + {t};
    }
  }

  lemma {:induction false} OtherArrivalsKeep(s: State, t: DeliveryId, other: Key, key: Key)
    requires other != key || t in s.active
    ensures AtMostOne(Step(s, Arrive(t, other)), key) <==> AtMostOne(s, key)
  {
    assert Claims(Step(s, Arrive(t, other)), key) == Claims(s, key);
  }

  // ── What the open deliveries can do ───────────────────────────────

  lemma {:induction false} FinishingRuns(s: State, actions: seq<Action>, key: Key)
    requires Finishing(actions)
    ensures Count(Run(s, actions).rows, key) <= Count(s.rows, key) + |Claims(s, key)|
    decreases |actions|
  {
    if actions != [] {
      FinishingKeepsTheSum(s, actions[0], key);
      FinishingRuns(Step(s, actions[0]), actions[1..], key);
    }
  }

  lemma {:induction false} AllCommit(s: State, key: Key) returns (actions: seq<Action>)
    ensures Finishing(actions)
    ensures Count(Run(s, actions).rows, key) == Count(s.rows, key) + |Claims(s, key)|
    decreases |Claims(s, key)|
  {
    if Claims(s, key) == {} {
      actions := [];
    } else {
      var t :| t in Claims(s, key);
      CommitCounts(s, t, key);
      var rest := AllCommit(Step(s, Commit(t)), key);
      actions := [Commit(t)] + rest;
      assert actions[1..] == rest;
    }
  }

  /** The open deliveries can leave the key more than one row exactly when its rows and its claims
      are more than one. */
  lemma {:induction false} CanDoubleIff(s: State, key: Key)
    ensures (exists actions :: Finishing(actions) && Count(Run(s, actions).rows, key) > 1)
            <==> !AtMostOne(s, key)
  {
    if AtMostOne(s, key) {
      forall actions | Finishing(actions) ensures Count(Run(s, actions).rows, key) <= 1 {
        FinishingRuns(s, actions, key);
      }
    } else {
      var actions := AllCommit(s, key);
      assert Finishing(actions) && Count(Run(s, actions).rows, key) > 1;
    }
  }

  // ── Whole runs ────────────────────────────────────────────────────

  /** In no state of the run can the open deliveries leave the key more than one row. */
  ghost predicate NeverDoubles(s: State, actions: seq<Action>, key: Key)
    decreases |actions|
  {
    && (forall more :: Finishing(more) ==> Count(Run(s, more).rows, key) <= 1)
    && (actions == [] || NeverDoubles(Step(s, actions[0]), actions[1..], key))
  }

  /** No delivery of the key arrives while another that found nothing is open. */
  predicate Apart(s: State, actions: seq<Action>, key: Key)
    decreases |actions|
  {
    actions == []
    || ((actions[0].Arrive? && actions[0].t !in s.active && actions[0].key == key ==>
           Claims(s, key) == {})
        && Apart(Step(s, actions[0]), actions[1..], key))
  }

  lemma {:induction false} SingleIff(s: State, key: Key)
    ensures (forall more :: Finishing(more) ==> Count(Run(s, more).rows, key) <= 1)
            <==> AtMostOne(s, key)
  {
    CanDoubleIff(s, key);
  }

  lemma FinishingKeeps(s: State, a: Action, key: Key)
    requires !a.Arrive? && AtMostOne(s, key)
    ensures AtMostOne(Step(s, a), key)
  {
    FinishingKeepsTheSum(s, a, key);
  }

  lemma {:induction false} StepIff(s: State, a: Action, key: Key)
    requires key != "" && AtMostOne(s, key)
    ensures AtMostOne(Step(s, a), key)
            <==> (a.Arrive? && a.t !in s.active && a.key == key ==> Claims(s, key) == {})
  {
    hide AtMostOne, Claims, Count;
    match a
    case Arrive(t, other) =>
      if t !in s.active && other == key {
        ArrivalIff(s, t, key);
      } else {
        OtherArrivalsKeep(s, t, other, key);
      }
    case _ => FinishingKeeps(s, a, key);
  }

  /** Main theorem: from a table where the reference or charge id has at most one row, a run never
      gives it a second one, however its deliveries end, exactly when none arrives while another
      that found nothing is open. */
  lemma {:induction false} NeverDoublesIff(s: State, actions: seq<Action>, key: Key)
    requires key != "" && AtMostOne(s, key)
    ensures NeverDoubles(s, actions, key) <==> Apart(s, actions, key)
    decreases |actions|
  {
    hide Step, AtMostOne, Claims, Count, Run, Finishing;
    SingleIff(s, key);
    if actions != [] {
      StepIff(s, actions[0], key);
      var s' := Step(s, actions[0]);
      SingleIff(s', key);
      if AtMostOne(s', key) { NeverDoublesIff(s', actions[1..], key); }
    }
  }

  lemma RunOn(s: State, a: Action, rest: seq<Action>)
    ensures Run(s, [a] + rest) == Run(Step(s, a), rest)
  {
    assert ([a] + rest)[1..] == rest;
  }

  /** A delivery on its own adds a row exactly when it has no key or no row has it. */
  lemma {:induction false} OnItsOwn(s: State, t: DeliveryId, key: Key)
    requires t !in s.active
    ensures Run(s, [Arrive(t, key)] + [Commit(t)])
            == s.(rows := if key != "" && key in s.rows then s.rows else s.rows + [key])
  {
    var s1 := Step(s, Arrive(t, key));
    assert s1.active - {t} == s.active;
    RunOn(s, Arrive(t, key), [Commit(t)]);
    RunOn(s1, Commit(t), []);
    assert [Commit(t)] + [] == [Commit(t)];
  }

  /** Two deliveries of one reference at the same time are two payments. */
  lemma {:induction false} TwoAtOnceAreTwoRows(key: Key)
    ensures Run(State([], map[]), [Arrive(1, key), Arrive(2, key), Commit(1), Commit(2)])
            == State([key, key], map[])
  {
    var s1 := Step(State([], map[]), Arrive(1, key));
    var s2 := Step(s1, Arrive(2, key));
    var s3 := Step(s2, Commit(1));
    assert Step(s3, Commit(2)) == State([key, key], map[]);
    hide Step;
    RunOn(State([], map[]), Arrive(1, key), [Arrive(2, key), Commit(1), Commit(2)]);
    RunOn(s1, Arrive(2, key), [Commit(1), Commit(2)]);
    RunOn(s2, Commit(1), [Commit(2)]);
    RunOn(s3, Commit(2), []);
    assert [Arrive(1, key)] + [Arrive(2, key), Commit(1), Commit(2)]
           == [Arrive(1, key), Arrive(2, key), Commit(1), Commit(2)];
    assert [Arrive(2, key)] + [Commit(1), Commit(2)] == [Arrive(2, key), Commit(1), Commit(2)];
    assert [Commit(1)] + [Commit(2)] == [Commit(1), Commit(2)] && [Commit(2)] + [] == [Commit(2)];
  }
}
