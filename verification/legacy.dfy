/** One pass of the legacy stand-alone script's `run_task`: the same purchase
    steps as the managed class, but with its own availability scan, a
    notification on both channels, no cart expiry, no cleanup after a failed
    checkout, and only client errors caught (any other exception ends the
    process). */
module Legacy {
  import opened Wrappers
  import opened Remote
  import opened Availability
  import opened Notifier
  import opened Carts
  import opened Settings

  /** The order the script builds: no expiry is sent with the cart. */
  function ScriptOrder(cfg: Settings, datacenter: string): Order
  {
    Order(datacenter, None, cfg.zone, cfg.planCode, cfg.options)
  }

  /** The checkout block: both requests share one `try`, whose handler
      returns without touching the cart. */
  function ScriptCheckout(s: Session, ch: Channels, cartId: string, datacenter: string): Run
  {
    var e1 := Issue(s, GetCheckout(cartId));
    if e1.reply.Fail? then Run(e1.after.trace, Aborted)
    else
      var e2 := Issue(e1.after, PostCheckout(cartId, false, true));
      if e2.reply.Fail? then Run(e2.after.trace, Aborted)
      else
        var n := SendBoth(e2.after, ch, OrderPlaced(datacenter));
        Run(n.after.trace, Purchased(datacenter))
  }

  /** `run_task` of the script. The lookup carries no plan filter. A failed
      lookup or no admitted datacenter returns quietly; a successful reply
      that is not a record list, and every build reply lacking the field the
      script reads, raise outside any handler and crash the process. The
      find is announced on both channels and the answer only logged. */
  function ScriptRun(cfg: Settings, oracle: seq<Reply>): Run
  {
    var e := Issue(Session(oracle, []), GetAvailabilities(None));
    if e.reply.Fail? then Run(e.after.trace, NoStock)
    else if !e.reply.Stock? then Run(e.after.trace, Crashed)
    else
      match ScriptSelected(cfg, e.reply)
      case None => Run(e.after.trace, NoStock)
      case Some(dc) => ScriptFound(cfg, e.after, dc)
  }

  /** The rest of the pass once `dc` is found: announce, build, check out. */
  function ScriptFound(cfg: Settings, s: Session, dc: string): Run
  {
    var n := SendBoth(s, cfg.channels, StockFound(dc));
    var b := BuildCart(n.after, ScriptOrder(cfg, dc));
    if b.status.Rejected? then Run(b.after.trace, Aborted)
    else if b.status.Malformed? then Run(b.after.trace, Crashed)
    else ScriptCheckout(b.after, cfg.channels, b.status.cartId, dc)
  }

  // ---------------------------------------------------------------------
  // What a pass issues and how it ends.

  /** The datacenter the script picks from the lookup reply. */
  function ScriptSelected(cfg: Settings, r: Reply): Option<string>
  {
    if r.Stock? then Select(r.records, cfg.planCode, Legacy, cfg.priority) else None
  }

  /** The session once `dc` has been found and announced on both channels. */
  function Announced(cfg: Settings, oracle: seq<Reply>, dc: string): Session
  {
    SendBoth(Session(oracle, [GetAvailabilities(None)]), cfg.channels, StockFound(dc)).after
  }

  /** Without an admitted datacenter the pass issues the lookup alone, and a
      non-list reply crashes it. */
  lemma ScriptNoStock(cfg: Settings, oracle: seq<Reply>)
    requires ScriptSelected(cfg, ReplyAt(oracle, 0)).None?
    ensures ScriptRun(cfg, oracle).trace == [GetAvailabilities(None)]
    ensures ScriptRun(cfg, oracle).result == if ReplyAt(oracle, 0).Fail? || ReplyAt(oracle, 0).Stock? then NoStock else Crashed
  {
  }

  /** Calls the script never issues: it has no cart probe, deletion or
      listing. */
  predicate Housekeeping(c: Call)
  {
    c.GetCart? || c.DeleteCartRequest? || c.ListCarts?
  }

  /** A build plan holds no housekeeping call. */
  lemma PlanHasNoHousekeeping(s: Session, o: Order)
    ensures forall k | 0 <= k < |PlanFor(s, o)| :: !Housekeeping(PlanFor(s, o)[k])
  {
    var b := |s.trace|;
    var cid, iid := CartIdIn(ReplyAt(s.oracle, b)), ItemIdIn(ReplyAt(s.oracle, b + 2));
    var opening := OpeningCalls(o, cid, iid);
    var conf := ConfigurationCalls(cid, iid, Region.Configurations(o.datacenter, Region.RegionOf(FieldsIn(ReplyAt(s.oracle, b + 3)))));
    var opts := OptionCalls(cid, iid, o.options);
    assert PlanFor(s, o) == opening + (conf + opts);
    forall k | 0 <= k < |PlanFor(s, o)|
      ensures !Housekeeping(PlanFor(s, o)[k])
    {
      if k >= |opening| + |conf| {
        assert PlanFor(s, o)[k] == opts[k - |opening| - |conf|];
      } else if k >= |opening| {
        assert PlanFor(s, o)[k] == conf[k - |opening|];
      }
    }
  }

  /** The pass found `dc`, and the build started after the announcement. */
  ghost predicate FoundAt(cfg: Settings, oracle: seq<Reply>, dc: string)
  {
    ScriptSelected(cfg, ReplyAt(oracle, 0)) == Some(dc)
  }

  /** A pass that found `dc` goes on from the lookup alone. */
  lemma ScriptStages(cfg: Settings, oracle: seq<Reply>, dc: string)
    requires FoundAt(cfg, oracle, dc)
    ensures ScriptRun(cfg, oracle) == ScriptFound(cfg, Session(oracle, [GetAvailabilities(None)]), dc)
  {
    assert Issue(Session(oracle, []), GetAvailabilities(None)).after == Session(oracle, [GetAvailabilities(None)]);
  }

  /** However the pass ends it never probes, deletes or lists carts, and it
      never reports a cleanup: a cart whose checkout failed stays. */
  lemma ScriptNeverCleansUp(cfg: Settings, oracle: seq<Reply>)
    ensures !ScriptRun(cfg, oracle).result.CheckoutFailed?
    ensures forall k | 0 <= k < |ScriptRun(cfg, oracle).trace| :: !Housekeeping(ScriptRun(cfg, oracle).trace[k])
  {
    match ScriptSelected(cfg, ReplyAt(oracle, 0))
    case None =>
      ScriptNoStock(cfg, oracle);
    case Some(dc) =>
      ScriptStages(cfg, oracle, dc);
      FoundNoHousekeeping(cfg, Session(oracle, [GetAvailabilities(None)]), dc);
  }

  /** Announcing, building and checking out add no housekeeping call. */
  lemma FoundNoHousekeeping(cfg: Settings, s: Session, dc: string)
    requires forall k | 0 <= k < |s.trace| :: !Housekeeping(s.trace[k])
    ensures !ScriptFound(cfg, s, dc).result.CheckoutFailed?
    ensures forall k | 0 <= k < |ScriptFound(cfg, s, dc).trace| :: !Housekeeping(ScriptFound(cfg, s, dc).trace[k])
  {
    var s1 := SendBoth(s, cfg.channels, StockFound(dc)).after;
    assert forall k | 0 <= k < |s1.trace| :: !Housekeeping(s1.trace[k]) by {
      forall k | 0 <= k < |s1.trace|
        ensures !Housekeeping(s1.trace[k])
      {
        if k < |s.trace| {
          assert s1.trace[k] == s1.trace[..|s.trace|][k];
        }
      }
    }
    var o := ScriptOrder(cfg, dc);
    var b := BuildCart(s1, o);
    BuildIssuesPrefix(s1, o);
    PlanHasNoHousekeeping(s1, o);
    assert forall k | 0 <= k < |b.after.trace| :: !Housekeeping(b.after.trace[k]) by {
      var plan := PlanFor(s1, o);
      var m := |b.after.trace| - |s1.trace|;
      forall k | 0 <= k < |b.after.trace|
        ensures !Housekeeping(b.after.trace[k])
      {
        if k >= |s1.trace| {
          assert b.after.trace[k] == plan[..m][k - |s1.trace|];
        }
      }
    }
    if b.status.Built? {
      CheckoutNoHousekeeping(b.after, cfg.channels, b.status.cartId, dc);
    }
  }

  /** The checkout block adds checkout requests and notifications only. */
  lemma CheckoutNoHousekeeping(s: Session, ch: Channels, cartId: string, datacenter: string)
    requires forall k | 0 <= k < |s.trace| :: !Housekeeping(s.trace[k])
    ensures forall k | 0 <= k < |ScriptCheckout(s, ch, cartId, datacenter).trace| ::
              !Housekeeping(ScriptCheckout(s, ch, cartId, datacenter).trace[k])
    ensures !ScriptCheckout(s, ch, cartId, datacenter).result.CheckoutFailed?
  {
    var e1 := Issue(s, GetCheckout(cartId));
    if !e1.reply.Fail? {
      var e2 := Issue(e1.after, PostCheckout(cartId, false, true));
      if !e2.reply.Fail? {
        var n := SendBoth(e2.after, ch, OrderPlaced(datacenter));
        assert forall k | 0 <= k < |n.after.trace| :: !Housekeeping(n.after.trace[k]) by {
          forall k | 0 <= k < |n.after.trace|
            ensures !Housekeeping(n.after.trace[k])
          {
            if k < |e2.after.trace| {
              assert n.after.trace[k] == n.after.trace[..|e2.after.trace|][k];
            }
          }
        }
      }
    }
  }

  /** The checkout block: it purchases exactly when both checkout requests
      succeed, and then adds the order notification on both channels and
      nothing else; a failed request ends it as aborted right after that
      request, with no cart touched. */
  lemma ScriptCheckoutSpec(s: Session, ch: Channels, cartId: string, datacenter: string)
    ensures var r := ScriptCheckout(s, ch, cartId, datacenter);
            r.result.Purchased? <==> AllSucceed(s.oracle, |s.trace|, |s.trace| + 2)
    ensures var r := ScriptCheckout(s, ch, cartId, datacenter);
            r.result.Purchased? ==>
              && r.result == Purchased(datacenter)
              && r.trace == s.trace + CheckoutPlan(cartId)
                            + NotifyCalls(ch, OrderPlaced(datacenter), ReplyAt(s.oracle, |s.trace| + 2))
    ensures var r := ScriptCheckout(s, ch, cartId, datacenter);
            !r.result.Purchased? ==>
              var n := if Pending(s).Fail? then 1 else 2;
              && ReplyAt(s.oracle, |s.trace| + n - 1).Fail?
              && r == Run(s.trace + CheckoutPlan(cartId)[..n], Aborted)
  {
    var e1 := Issue(s, GetCheckout(cartId));
    assert e1.after.trace == s.trace + CheckoutPlan(cartId)[..1];
    if !e1.reply.Fail? {
      var e2 := Issue(e1.after, PostCheckout(cartId, false, true));
      assert e2.after.trace == s.trace + CheckoutPlan(cartId);
      assert Pending(e2.after) == ReplyAt(s.oracle, |s.trace| + 2);
    }
  }

  /** How a pass `r` that announced in session `s1` relates to the oracle:
      it purchases exactly when every build and checkout request succeeds,
      and it has then issued the whole build plan, the checkout plan and the
      order notification after the announcement, in that order, and nothing
      else. */
  ghost predicate PurchaseShape(cfg: Settings, s1: Session, dc: string, r: Run)
  {
    var plan := PlanFor(s1, ScriptOrder(cfg, dc));
    var k := |s1.trace| + |plan|;
    && (r.result.Purchased? <==> BuildSucceeds(s1, ScriptOrder(cfg, dc)) && AllSucceed(s1.oracle, k, k + 2))
    && (r.result.Purchased? ==>
          && r.result == Purchased(dc)
          && r.trace == s1.trace + plan + CheckoutPlan(CartIdIn(ReplyAt(s1.oracle, |s1.trace|)))
                        + NotifyCalls(cfg.channels, OrderPlaced(dc), ReplyAt(s1.oracle, k + 2)))
  }

  /** A pass that found `dc` purchases exactly when every build and checkout
      request succeeds, having issued everything in order. */
  lemma ScriptPurchases(cfg: Settings, oracle: seq<Reply>, dc: string)
    requires FoundAt(cfg, oracle, dc)
    ensures PurchaseShape(cfg, Announced(cfg, oracle, dc), dc, ScriptRun(cfg, oracle))
  {
    ScriptStages(cfg, oracle, dc);
    FoundPurchases(cfg, Session(oracle, [GetAvailabilities(None)]), dc);
  }

  /** `ScriptPurchases` for any session the lookup left. */
  lemma FoundPurchases(cfg: Settings, s: Session, dc: string)
    ensures PurchaseShape(cfg, SendBoth(s, cfg.channels, StockFound(dc)).after, dc, ScriptFound(cfg, s, dc))
  {
    var s1 := SendBoth(s, cfg.channels, StockFound(dc)).after;
    var o := ScriptOrder(cfg, dc);
    BuildCartFailFast(s1, o);
    var b := BuildCart(s1, o);
    if b.status.Built? {
      assert b.after == Session(s1.oracle, s1.trace + PlanFor(s1, o));
      ScriptCheckoutSpec(b.after, cfg.channels, b.status.cartId, dc);
    }
  }

  /** How a pass `r` that announced in session `s1` ends when its build
      succeeded and a checkout request fails: aborted right after the failed
      request, with nothing deleted. */
  ghost predicate AbortShape(cfg: Settings, s1: Session, dc: string, r: Run)
  {
    var plan := PlanFor(s1, ScriptOrder(cfg, dc));
    var k := |s1.trace| + |plan|;
    var n := if ReplyAt(s1.oracle, k).Fail? then 1 else 2;
    ReplyAt(s1.oracle, k + n - 1).Fail? ==>
      r == Run(s1.trace + plan + CheckoutPlan(CartIdIn(ReplyAt(s1.oracle, |s1.trace|)))[..n], Aborted)
  }

  /** A failed checkout request ends the pass as aborted; the cart stays. */
  lemma ScriptCheckoutFails(cfg: Settings, oracle: seq<Reply>, dc: string)
    requires FoundAt(cfg, oracle, dc)
    requires BuildSucceeds(Announced(cfg, oracle, dc), ScriptOrder(cfg, dc))
    ensures AbortShape(cfg, Announced(cfg, oracle, dc), dc, ScriptRun(cfg, oracle))
  {
    ScriptStages(cfg, oracle, dc);
    FoundCheckoutFails(cfg, Session(oracle, [GetAvailabilities(None)]), dc);
  }

  /** `ScriptCheckoutFails` for any session the lookup left. */
  lemma FoundCheckoutFails(cfg: Settings, s: Session, dc: string)
    requires BuildSucceeds(SendBoth(s, cfg.channels, StockFound(dc)).after, ScriptOrder(cfg, dc))
    ensures AbortShape(cfg, SendBoth(s, cfg.channels, StockFound(dc)).after, dc, ScriptFound(cfg, s, dc))
  {
    var s1 := SendBoth(s, cfg.channels, StockFound(dc)).after;
    var o := ScriptOrder(cfg, dc);
    BuildCartFailFast(s1, o);
    var b := BuildCart(s1, o);
    assert b.after == Session(s1.oracle, s1.trace + PlanFor(s1, o));
    ScriptCheckoutSpec(b.after, cfg.channels, b.status.cartId, dc);
  }

  /** How a pass `r` that announced in session `s1` ends when a build step
      fails: it has issued a non-empty prefix of the build plan and no
      checkout request, every request before the last was answered with the
      shape its step reads while the last was not, and it
      ends as aborted when the last one raised a client error and crashes
      when it answered without the field the script reads. */
  ghost predicate BuildAbortShape(cfg: Settings, s1: Session, dc: string, r: Run)
  {
    var plan := PlanFor(s1, ScriptOrder(cfg, dc));
    var b := |s1.trace|;
    && b < |r.trace| <= b + |plan|
    && r.trace == s1.trace + plan[..|r.trace| - b]
    && AllSucceed(s1.oracle, b, |r.trace| - 1)
    && StoppedAtFirstFault(s1.oracle, b, |r.trace| - b)
    && r.result == (if ReplyAt(s1.oracle, |r.trace| - 1).Fail? then Aborted else Crashed)
  }

  /** Every build step returns on failure, so a pass whose build fails ends
      within the build plan. */
  lemma ScriptAbortsInBuild(cfg: Settings, oracle: seq<Reply>, dc: string)
    requires FoundAt(cfg, oracle, dc)
    requires !BuildSucceeds(Announced(cfg, oracle, dc), ScriptOrder(cfg, dc))
    ensures BuildAbortShape(cfg, Announced(cfg, oracle, dc), dc, ScriptRun(cfg, oracle))
  {
    ScriptStages(cfg, oracle, dc);
    FoundAbortsInBuild(cfg, Session(oracle, [GetAvailabilities(None)]), dc);
  }

  /** `ScriptAbortsInBuild` for any session the lookup left. */
  lemma FoundAbortsInBuild(cfg: Settings, s: Session, dc: string)
    requires !BuildSucceeds(SendBoth(s, cfg.channels, StockFound(dc)).after, ScriptOrder(cfg, dc))
    ensures BuildAbortShape(cfg, SendBoth(s, cfg.channels, StockFound(dc)).after, dc, ScriptFound(cfg, s, dc))
  {
    var s1 := SendBoth(s, cfg.channels, StockFound(dc)).after;
    BuildCartFailFast(s1, ScriptOrder(cfg, dc));
  }

  /** With the script's shipped settings both channels are unset, so a
      purchasing pass issues exactly the lookup, the build plan and the
      checkout plan, with no notification request. */
  lemma ShippedScriptIsSilent(oracle: seq<Reply>, dc: string)
    requires FoundAt(LegacySettings, oracle, dc)
    requires ScriptRun(LegacySettings, oracle).result.Purchased?
    ensures var s1 := Session(oracle, [GetAvailabilities(None)]);
            var plan := PlanFor(s1, ScriptOrder(LegacySettings, dc));
            ScriptRun(LegacySettings, oracle).trace ==
              [GetAvailabilities(None)] + plan + CheckoutPlan(CartIdIn(ReplyAt(oracle, 1)))
  {
    var cfg := LegacySettings;
    var s1 := Announced(cfg, oracle, dc);
    assert s1 == Session(oracle, [GetAvailabilities(None)]);
    ScriptPurchases(cfg, oracle, dc);
    var k := 1 + |PlanFor(s1, ScriptOrder(cfg, dc))|;
    assert NotifyCalls(cfg.channels, OrderPlaced(dc), ReplyAt(oracle, k + 2)) == [];
  }
}
