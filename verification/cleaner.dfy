/** `CartCleaner`: list every cart of the account, then visit each one,
    deleting it outright (`clean_all_carts`) or only when its details say it
    has expired (`clean_expired_carts`). An error on one cart is counted and
    the sweep goes on; an error fetching the list is raised to the caller. */
module Cleaner {
  import opened Wrappers
  import opened Remote
  import opened Carts

  /** What happened to one listed cart. */
  datatype Outcome =
    | Deleted               // `delete_cart` answered True
    | Missing               // `delete_cart` answered False: the cart was gone
    | Failed(message: string) // an exception while handling this cart
    | Skipped               // not expired: counted in neither tally

  /** The two tallies a sweep returns. */
  datatype Tally = Tally(success: nat, failed: nat)

  /** Which of the two sweeps runs. */
  datatype Mode = All | ExpiredOnly

  datatype Step = Step(after: Session, outcome: Outcome)

  /** `delete_cart`'s answer, as the sweep books it. */
  function Classify(r: Result<bool>): Outcome
  {
    match r
    case Ok(true) => Deleted
    case Ok(false) => Missing
    case Err(m) => Failed(m)
  }

  /** A cart's details say it has expired: `expire` is present and non-empty
      and `readOnly` is true. A successful reply of any other shape has
      neither key, so `.get` gives `None` for both. */
  predicate Expired(r: Reply)
  {
    r.CartDetails? && r.expire.Some? && r.expire.value != "" && r.readOnly
  }

  /** One cart of `clean_all_carts`: `delete_cart`, every exception caught. */
  function DeleteStep(s: Session, cartId: string): (st: Step)
    ensures st.after.oracle == s.oracle
    ensures st.outcome == Deleted <==> DeleteCart(s, cartId).result == Ok(true)
    ensures st.outcome == Missing <==> DeleteCart(s, cartId).result == Ok(false)
    ensures st.outcome.Failed? <==> DeleteCart(s, cartId).result.Err?
    ensures st.after == DeleteCart(s, cartId).after
  {
    var p := DeleteCart(s, cartId);
    Step(p.after, Classify(p.result))
  }

  /** One cart of `clean_expired_carts`: fetch its details, and delete it
      only when they say it has expired. */
  function ExpiredStep(s: Session, cartId: string): (st: Step)
    ensures st.after.oracle == s.oracle
    // a failed details fetch is one failure, and nothing is deleted
    ensures Pending(s).Fail? ==>
              st == Step(s.(trace := s.trace + [GetCart(cartId)]), Failed(Pending(s).message))
    // a cart that has not expired is left alone and counted nowhere
    ensures st.outcome.Skipped? <==> !Pending(s).Fail? && !Expired(Pending(s))
    ensures st.outcome.Skipped? ==> st.after.trace == s.trace + [GetCart(cartId)]
    // an expired cart goes through `delete_cart`
    ensures Expired(Pending(s)) ==>
              st == DeleteStep(s.(trace := s.trace + [GetCart(cartId)]), cartId)
  {
    var e := Issue(s, GetCart(cartId));
    if e.reply.Fail? then Step(e.after, Failed(e.reply.message))
    else if Expired(e.reply) then DeleteStep(e.after, cartId)
    else Step(e.after, Skipped)
  }

  function StepFor(mode: Mode, s: Session, cartId: string): Step
  {
    match mode
    case All => DeleteStep(s, cartId)
    case ExpiredOnly => ExpiredStep(s, cartId)
  }

  /** The outcome of every cart and the session after the last one. */
  datatype Swept = Swept(after: Session, outcomes: seq<Outcome>)

  /** The `for cart_id in carts` loop: each cart is handled from the session
      the previous one left, whatever its outcome. */
  function Sweep(mode: Mode, s: Session, ids: seq<string>): (w: Swept)
    ensures |w.outcomes| == |ids|
    ensures w.after.oracle == s.oracle
    decreases |ids|
  {
    if ids == [] then Swept(s, [])
    else
      var p := Sweep(mode, s, ids[..|ids| - 1]);
      var st := StepFor(mode, p.after, ids[|ids| - 1]);
      Swept(st.after, p.outcomes + [st.outcome])
  }

  /** The sweep over one more cart is one more step. */
  lemma SweepSnoc(mode: Mode, s: Session, ids: seq<string>, i: nat)
    requires i < |ids|
    ensures var p := Sweep(mode, s, ids[..i]);
            var st := StepFor(mode, p.after, ids[i]);
            Sweep(mode, s, ids[..i + 1]) == Swept(st.after, p.outcomes + [st.outcome])
  {
    assert ids[..i + 1][..i] == ids[..i];
  }

  /** The tallies of one more outcome. */
  lemma TallySnoc(outs: seq<Outcome>, o: Outcome)
    ensures Successes(outs + [o]) == Successes(outs) + (if o == Deleted then 1 else 0)
    ensures Failures(outs + [o]) == Failures(outs) + (if o.Missing? || o.Failed? then 1 else 0)
  {
    assert (outs + [o])[..|outs|] == outs;
  }

  /** Carts `delete_cart` removed. */
  function Successes(outs: seq<Outcome>): (n: nat)
    ensures n <= |outs|
  {
    if outs == [] then 0
    else Successes(outs[..|outs| - 1]) + (if outs[|outs| - 1] == Deleted then 1 else 0)
  }

  /** Carts that were gone already or raised an error. */
  function Failures(outs: seq<Outcome>): (n: nat)
    ensures n <= |outs|
  {
    if outs == [] then 0
    else Failures(outs[..|outs| - 1]) + (if outs[|outs| - 1].Missing? || outs[|outs| - 1].Failed? then 1 else 0)
  }

  /** Carts left alone. */
  function Skips(outs: seq<Outcome>): (n: nat)
    ensures n <= |outs|
  {
    if outs == [] then 0
    else Skips(outs[..|outs| - 1]) + (if outs[|outs| - 1].Skipped? then 1 else 0)
  }

  /** Every cart lands in exactly one of the two tallies or is skipped. */
  lemma {:induction false} TalliesPartition(outs: seq<Outcome>)
    ensures Successes(outs) + Failures(outs) + Skips(outs) == |outs|
    decreases |outs|
  {
    if outs != [] {
      TalliesPartition(outs[..|outs| - 1]);
    }
  }

  /** Without a skipped cart the tallies add up to the number of carts. */
  lemma {:induction false} NoSkipsWhenDeletingAll(s: Session, ids: seq<string>)
    ensures Skips(Sweep(All, s, ids).outcomes) == 0
    ensures Successes(Sweep(All, s, ids).outcomes) + Failures(Sweep(All, s, ids).outcomes) == |ids|
    decreases |ids|
  {
    var outs := Sweep(All, s, ids).outcomes;
    if ids != [] {
      NoSkipsWhenDeletingAll(s, ids[..|ids| - 1]);
      assert outs[..|outs| - 1] == Sweep(All, s, ids[..|ids| - 1]).outcomes;
    }
    TalliesPartition(outs);
  }

  /** The sweep over a prefix of the list is a prefix of the sweep. */
  lemma {:induction false} SweepPrefix(mode: Mode, s: Session, ids: seq<string>, i: nat)
    requires i <= |ids|
    ensures Sweep(mode, s, ids).outcomes[..i] == Sweep(mode, s, ids[..i]).outcomes
    decreases |ids|
  {
    if i < |ids| {
      var init := ids[..|ids| - 1];
      SweepPrefix(mode, s, init, i);
      assert init[..i] == ids[..i];
      assert Sweep(mode, s, ids).outcomes[..i] == Sweep(mode, s, init).outcomes[..i];
    } else {
      assert ids[..i] == ids;
    }
  }

  /** Error isolation: cart `i` is handled, whatever happened to the carts
      before it, from the session they left behind. */
  lemma SweepVisits(mode: Mode, s: Session, ids: seq<string>, i: nat)
    requires i < |ids|
    ensures Sweep(mode, s, ids).outcomes[i] == StepFor(mode, Sweep(mode, s, ids[..i]).after, ids[i]).outcome
  {
    SweepPrefix(mode, s, ids, i + 1);
    assert ids[..i + 1][..i] == ids[..i];
  }

  /** The cart identifiers probed (`GET /order/cart/{id}`), in order. */
  function Probes(trace: seq<Call>): seq<string>
  {
    if trace == [] then []
    else Probes(trace[..|trace| - 1]) + (if trace[|trace| - 1].GetCart? then [trace[|trace| - 1].cartId] else [])
  }

  /** Probes of a concatenation. */
  lemma {:induction false} ProbesAppend(a: seq<Call>, b: seq<Call>)
    ensures Probes(a + b) == Probes(a) + Probes(b)
    decreases |b|
  {
    if b == [] {
      assert a + b == a;
    } else {
      ProbesAppend(a, b[..|b| - 1]);
      assert (a + b)[..|a + b| - 1] == a + b[..|b| - 1];
    }
  }

  /** One cart of `clean_all_carts` extends the trace and probes that cart
      once. */
  lemma DeleteStepProbesOnce(s: Session, cartId: string)
    ensures |s.trace| < |DeleteStep(s, cartId).after.trace|
    ensures DeleteStep(s, cartId).after.trace[..|s.trace|] == s.trace
    ensures Probes(DeleteStep(s, cartId).after.trace[|s.trace|..]) == [cartId]
  {
    var t := DeleteStep(s, cartId).after.trace;
    if Pending(s).Fail? {
      assert t[|s.trace|..] == [GetCart(cartId)];
      assert Probes([GetCart(cartId)]) == Probes([]) + [cartId];
    } else {
      var added := [GetCart(cartId), DeleteCartRequest(cartId)];
      assert t[|s.trace|..] == added;
      assert added[..1] == [GetCart(cartId)];
      assert Probes([GetCart(cartId)]) == Probes([]) + [cartId];
    }
  }

  /** `clean_all_carts` probes every listed cart exactly once, in list
      order, however many of them fail. */
  lemma {:induction false} SweepAllProbesEveryCart(s: Session, ids: seq<string>)
    ensures |s.trace| <= |Sweep(All, s, ids).after.trace|
    ensures Sweep(All, s, ids).after.trace[..|s.trace|] == s.trace
    ensures Probes(Sweep(All, s, ids).after.trace[|s.trace|..]) == ids
    decreases |ids|
  {
    if ids != [] {
      var n := |ids| - 1;
      var p := Sweep(All, s, ids[..n]);
      SweepSnoc(All, s, ids, n);
      assert ids[..n + 1] == ids;
      SweepAllProbesEveryCart(s, ids[..n]);
      DeleteStepProbesOnce(p.after, ids[n]);
      ProbesExtend(s.trace, p.after.trace, Sweep(All, s, ids).after.trace, ids[..n], ids[n]);
      assert ids[..n] + [ids[n]] == ids;
    } else {
      assert Sweep(All, s, ids).after.trace[|s.trace|..] == [];
    }
  }

  /** A trace extending `t`, which probed `ids` after `s0`, by a segment
      probing `id` has probed `ids + [id]` after `s0`. */
  lemma ProbesExtend(s0: seq<Call>, t: seq<Call>, t': seq<Call>, ids: seq<string>, id: string)
    requires |s0| <= |t| && t[..|s0|] == s0 && Probes(t[|s0|..]) == ids
    requires |t| < |t'| && t'[..|t|] == t && Probes(t'[|t|..]) == [id]
    ensures |s0| <= |t'| && t'[..|s0|] == s0 && Probes(t'[|s0|..]) == ids + [id]
  {
    var d := t'[|t|..];
    assert t' == t + d;
    assert t'[|s0|..] == t[|s0|..] + d;
    ProbesAppend(t[|s0|..], d);
  }

  /** The cart identifiers deleted (`DELETE /order/cart/{id}`), in order. */
  function Deletions(trace: seq<Call>): seq<string>
  {
    if trace == [] then []
    else Deletions(trace[..|trace| - 1])
         + (if trace[|trace| - 1].DeleteCartRequest? then [trace[|trace| - 1].cartId] else [])
  }

  /** Deletions of a concatenation. */
  lemma {:induction false} DeletionsAppend(a: seq<Call>, b: seq<Call>)
    ensures Deletions(a + b) == Deletions(a) + Deletions(b)
    decreases |b|
  {
    if b == [] {
      assert a + b == a;
    } else {
      DeletionsAppend(a, b[..|b| - 1]);
      assert (a + b)[..|a + b| - 1] == a + b[..|b| - 1];
    }
  }

  /** One cart of `clean_expired_carts` extends the trace, and deletes only
      that cart and only when its details say it has expired. */
  lemma ExpiredStepDeletes(s: Session, cartId: string)
    ensures |s.trace| < |ExpiredStep(s, cartId).after.trace|
    ensures ExpiredStep(s, cartId).after.trace[..|s.trace|] == s.trace
    ensures forall c | c in Deletions(ExpiredStep(s, cartId).after.trace[|s.trace|..]) ::
              c == cartId && Expired(Pending(s))
  {
    var t := ExpiredStep(s, cartId).after.trace;
    var probe := [GetCart(cartId)];
    assert Deletions(probe) == Deletions([]) + [];
    if !Expired(Pending(s)) {
      assert t[|s.trace|..] == probe;
    } else {
      var s1 := s.(trace := s.trace + probe);
      var added := if Pending(s1).Fail? then probe + probe else probe + probe + [DeleteCartRequest(cartId)];
      assert t == s.trace + added;
      assert t[|s.trace|..] == added;
      assert Deletions(probe + probe) == [] by {
        assert (probe + probe)[..1] == probe;
      }
      if |added| == 3 {
        assert added[..2] == probe + probe;
      }
    }
  }

  /** Some listed cart `c` had expired details when the sweep reached it. */
  ghost predicate SeenExpired(s: Session, ids: seq<string>, c: string)
  {
    exists i | 0 <= i < |ids| :: ids[i] == c && Expired(Pending(Sweep(ExpiredOnly, s, ids[..i]).after))
  }

  /** A witness among the first carts stays a witness for the whole list. */
  lemma SeenExpiredExtends(s: Session, ids: seq<string>, c: string)
    requires |ids| > 0 && SeenExpired(s, ids[..|ids| - 1], c)
    ensures SeenExpired(s, ids, c)
  {
    var init := ids[..|ids| - 1];
    var i :| 0 <= i < |init| && init[i] == c && Expired(Pending(Sweep(ExpiredOnly, s, init[..i]).after));
    assert init[..i] == ids[..i];
  }

  /** The last cart is its own witness when its details said expired. */
  lemma SeenExpiredLast(s: Session, ids: seq<string>)
    requires |ids| > 0 && Expired(Pending(Sweep(ExpiredOnly, s, ids[..|ids| - 1]).after))
    ensures SeenExpired(s, ids, ids[|ids| - 1])
  {
  }

  /** `clean_expired_carts` deletes a cart only when the details fetched
      for it during the sweep said it had expired. */
  lemma {:induction false} SweepExpiredDeletesOnlyExpired(s: Session, ids: seq<string>)
    ensures |s.trace| <= |Sweep(ExpiredOnly, s, ids).after.trace|
    ensures Sweep(ExpiredOnly, s, ids).after.trace[..|s.trace|] == s.trace
    ensures forall c | c in Deletions(Sweep(ExpiredOnly, s, ids).after.trace[|s.trace|..]) :: SeenExpired(s, ids, c)
    decreases |ids|
  {
    if ids != [] {
      var init := ids[..|ids| - 1];
      var id := ids[|ids| - 1];
      var p := Sweep(ExpiredOnly, s, init);
      SweepExpiredDeletesOnlyExpired(s, init);
      ExpiredStepDeletes(p.after, id);
      var t := p.after.trace;
      var t' := Sweep(ExpiredOnly, s, ids).after.trace;
      var d := t'[|t|..];
      assert t' == t + d;
      assert t'[|s.trace|..] == t[|s.trace|..] + d;
      DeletionsAppend(t[|s.trace|..], d);
      forall c | c in Deletions(t'[|s.trace|..])
        ensures SeenExpired(s, ids, c)
      {
        if c in Deletions(t[|s.trace|..]) {
          SeenExpiredExtends(s, ids, c);
        } else {
          SeenExpiredLast(s, ids);
        }
      }
    } else {
      assert Sweep(ExpiredOnly, s, ids).after.trace[|s.trace|..] == [];
    }
  }

  /** What re-raising a failed list fetch reports; a successful reply that
      is not a list of identifiers cannot be iterated and fails too. */
  function ListError(r: Reply): string
  {
    if r.Fail? then r.message else "cart list unreadable"
  }

  /** `clean_all_carts`: delete every listed cart and count the results. */
  method CleanAllCarts(s: Session) returns (after: Session, result: Result<Tally>, outcomes: seq<Outcome>)
    ensures after.oracle == s.oracle
    // a failed list fetch is raised, with no counts
    ensures result.Err? <==> !Pending(s).CartIds?
    ensures result.Err? ==>
              after.trace == s.trace + [ListCarts] && outcomes == [] && result.error == ListError(Pending(s))
    // otherwise every cart is visited and lands in exactly one tally
    ensures result.Ok? ==>
              var ids := Pending(s).ids;
              var w := Sweep(All, Session(s.oracle, s.trace + [ListCarts]), ids);
              && after == w.after
              && outcomes == w.outcomes
              && result.value.success == Successes(outcomes)
              && result.value.failed == Failures(outcomes)
              && result.value.success + result.value.failed == |ids|
  {
    var e := Issue(s, ListCarts);
    if !e.reply.CartIds? {
      return e.after, Err(ListError(e.reply)), [];
    }
    var ids := e.reply.ids;
    var success, failed := 0, 0;
    after, outcomes := e.after, [];
    for i := 0 to |ids|
      invariant Sweep(All, e.after, ids[..i]) == Swept(after, outcomes)
      invariant success == Successes(outcomes) && failed == Failures(outcomes)
    {
      var st := StepFor(All, after, ids[i]);
      SweepSnoc(All, e.after, ids, i);
      TallySnoc(outcomes, st.outcome);
      after, outcomes := st.after, outcomes + [st.outcome];
      if st.outcome == Deleted {
        success := success + 1;
      } else {
        failed := failed + 1;
      }
    }
    assert ids[..|ids|] == ids;
    NoSkipsWhenDeletingAll(e.after, ids);
    result := Ok(Tally(success, failed));
  }

  /** `clean_expired_carts`: delete the expired carts and count the results;
      carts that have not expired are counted in neither tally. */
  method CleanExpiredCarts(s: Session) returns (after: Session, result: Result<Tally>, outcomes: seq<Outcome>)
    ensures after.oracle == s.oracle
    ensures result.Err? <==> !Pending(s).CartIds?
    ensures result.Err? ==>
              after.trace == s.trace + [ListCarts] && outcomes == [] && result.error == ListError(Pending(s))
    ensures result.Ok? ==>
              var ids := Pending(s).ids;
              var w := Sweep(ExpiredOnly, Session(s.oracle, s.trace + [ListCarts]), ids);
              && after == w.after
              && outcomes == w.outcomes
              && result.value.success == Successes(outcomes)
              && result.value.failed == Failures(outcomes)
              && result.value.success + result.value.failed + Skips(outcomes) == |ids|
              && result.value.success + result.value.failed <= |ids|
  {
    var e := Issue(s, ListCarts);
    if !e.reply.CartIds? {
      return e.after, Err(ListError(e.reply)), [];
    }
    var ids := e.reply.ids;
    var success, failed := 0, 0;
    after, outcomes := e.after, [];
    for i := 0 to |ids|
      invariant Sweep(ExpiredOnly, e.after, ids[..i]) == Swept(after, outcomes)
      invariant success == Successes(outcomes) && failed == Failures(outcomes)
    {
      var st := StepFor(ExpiredOnly, after, ids[i]);
      SweepSnoc(ExpiredOnly, e.after, ids, i);
      TallySnoc(outcomes, st.outcome);
      after, outcomes := st.after, outcomes + [st.outcome];
      if st.outcome == Deleted {
        success := success + 1;
      } else if !st.outcome.Skipped? {
        failed := failed + 1;
      }
    }
    assert ids[..|ids|] == ids;
    TalliesPartition(outcomes);
    result := Ok(Tally(success, failed));
  }
}
