/** One run of `OVHManager.run_task`: look up stock, build a cart, check
    out, and delete the cart when checkout fails. */
module Manager {
  import opened Wrappers
  import opened Remote
  import opened Availability
  import opened Notifier
  import opened Carts
  import opened Settings

  /** What the availability check found, and the session after it. */
  datatype Lookup = Lookup(after: Session, datacenter: Option<string>)

  /** The datacenter the managed checker picks from the reply to the
      availability request, if that reply is a list of records. */
  function Selected(cfg: Settings, r: Reply): Option<string>
  {
    if r.Stock? then Select(r.records, cfg.planCode, Managed, cfg.priority) else None
  }

  /** `_check_availability`: a failed lookup is no stock; a find is
      announced on Telegram (the answer is ignored). */
  function CheckAvailability(s: Session, cfg: Settings): Lookup
  {
    var e := Issue(s, GetAvailabilities(Some(cfg.planCode)));
    match Selected(cfg, e.reply)
    case None => Lookup(e.after, None)
    case Some(dc) =>
      var n := SendTelegram(e.after, cfg.channels, StockFound(dc));
      Lookup(n.after, Some(dc))
  }

  datatype Checkout = Checkout(after: Session, result: RunResult)

  /** The `except` branch of `_checkout_cart`: delete the cart, then the
      error goes on to `run_task`, which swallows it. */
  function CleanUp(s: Session, cartId: string): Checkout
  {
    var d := DeleteCart(s, cartId);
    Checkout(d.after, CheckoutFailed(d.result))
  }

  /** `_checkout_cart`. */
  function CheckoutCart(s: Session, ch: Channels, cartId: string, datacenter: string): Checkout
  {
    var e1 := Issue(s, GetCheckout(cartId));
    if e1.reply.Fail? then CleanUp(e1.after, cartId)
    else
      var e2 := Issue(e1.after, PostCheckout(cartId, false, true));
      if e2.reply.Fail? then CleanUp(e2.after, cartId)
      else
        var n := SendTelegram(e2.after, ch, OrderPlaced(datacenter));
        Checkout(n.after, Purchased(datacenter))
  }

  /** The order a managed run builds. */
  function ManagedOrder(cfg: Settings, expire: string, datacenter: string): Order
  {
    Order(datacenter, Some(expire), cfg.zone, cfg.planCode, cfg.options)
  }

  /** A successful lookup reply that is not a list of records: reading
      `item["planCode"]` raises, and the broad handler of `run_task` ends
      the run. */
  predicate Unreadable(r: Reply)
  {
    !r.Fail? && !r.Stock?
  }

  /** `run_task`, with the clock-derived expiry passed in. `if not
      datacenter` and `if not cart_id or not item_id` test Python
      truthiness: an empty code or identifier, or item 0, stops the run. */
  function RunTask(cfg: Settings, expire: string, oracle: seq<Reply>): Run
  {
    var look := CheckAvailability(Session(oracle, []), cfg);
    if Unreadable(ReplyAt(oracle, 0)) then Run(look.after.trace, Aborted)
    else if look.datacenter.None? || look.datacenter.value == "" then Run(look.after.trace, NoStock)
    else
      var dc := look.datacenter.value;
      var b := BuildCart(look.after, ManagedOrder(cfg, expire, dc));
      if !b.status.Built? then Run(b.after.trace, Aborted)
      else if b.status.cartId == "" || b.status.itemId == 0 then Run(b.after.trace, Aborted)
      else
        var c := CheckoutCart(b.after, cfg.channels, b.status.cartId, dc);
        Run(c.after.trace, c.result)
  }

  // ---------------------------------------------------------------------
  // What a run issues and how it ends.

  /** Checkout either completes, and the run ends with a purchase whatever
      the notification's fate, or it fails at its first or second request
      and the cart is then deleted through `DeleteCart`, before the error
      leaves `_checkout_cart`. */
  lemma CheckoutSpec(s: Session, ch: Channels, cartId: string, datacenter: string)
    ensures var c := CheckoutCart(s, ch, cartId, datacenter);
            c.after.oracle == s.oracle
    ensures var c := CheckoutCart(s, ch, cartId, datacenter);
            c.result.Purchased? <==> AllSucceed(s.oracle, |s.trace|, |s.trace| + 2)
    // a purchase issues both checkout requests, then the Telegram order
    // notification when a token is set, and nothing else
    ensures var c := CheckoutCart(s, ch, cartId, datacenter);
            c.result.Purchased? ==>
              && c.result == Purchased(datacenter)
              && c.after.trace == s.trace + CheckoutPlan(cartId) + TelegramCalls(ch, OrderPlaced(datacenter))
    ensures var c := CheckoutCart(s, ch, cartId, datacenter);
            !c.result.Purchased? ==>
              var n := if Pending(s).Fail? then 1 else 2;
              var failed := Session(s.oracle, s.trace + CheckoutPlan(cartId)[..n]);
              && ReplyAt(s.oracle, |s.trace| + n - 1).Fail?
              && c.after == DeleteCart(failed, cartId).after
              && c.result == CheckoutFailed(DeleteCart(failed, cartId).result)
  {
    assert CheckoutPlan(cartId)[..1] == [GetCheckout(cartId)];
    assert CheckoutPlan(cartId)[..2] == CheckoutPlan(cartId);
  }

  /** The requests before any cart request: the lookup, and the Telegram
      announcement of the find when a token is configured. */
  function LookupCalls(cfg: Settings, datacenter: string): seq<Call>
  {
    [GetAvailabilities(Some(cfg.planCode))] + TelegramCalls(cfg.channels, StockFound(datacenter))
  }

  /** Without a purchasable datacenter the run issues the lookup alone. */
  lemma RunTaskNoStock(cfg: Settings, expire: string, oracle: seq<Reply>)
    requires Selected(cfg, ReplyAt(oracle, 0)).None?
    ensures Unreadable(ReplyAt(oracle, 0)) ==>
              RunTask(cfg, expire, oracle) == Run([GetAvailabilities(Some(cfg.planCode))], Aborted)
    ensures !Unreadable(ReplyAt(oracle, 0)) ==>
              RunTask(cfg, expire, oracle) == Run([GetAvailabilities(Some(cfg.planCode))], NoStock)
  {
  }

  /** An empty datacenter code is found, announced, and then dropped by
      `if not datacenter`. */
  lemma RunTaskEmptyCode(cfg: Settings, expire: string, oracle: seq<Reply>)
    requires Selected(cfg, ReplyAt(oracle, 0)) == Some("")
    ensures RunTask(cfg, expire, oracle) == Run(LookupCalls(cfg, ""), NoStock)
  {
  }

  /** The session once datacenter `dc` has been found and announced. */
  function FoundSession(cfg: Settings, oracle: seq<Reply>, dc: string): Session
  {
    Session(oracle, LookupCalls(cfg, dc))
  }

  /** The build plan of a run that found `dc`. */
  function RunPlan(cfg: Settings, expire: string, oracle: seq<Reply>, dc: string): seq<Call>
  {
    PlanFor(FoundSession(cfg, oracle, dc), ManagedOrder(cfg, expire, dc))
  }

  /** The cart identifier the provider hands out in a run that found `dc`. */
  function RunCartId(cfg: Settings, oracle: seq<Reply>, dc: string): string
  {
    CartIdIn(ReplyAt(oracle, |LookupCalls(cfg, dc)|))
  }

  /** Every build step succeeds and both identifiers are truthy. */
  ghost predicate ReadyToCheckout(cfg: Settings, expire: string, oracle: seq<Reply>, dc: string)
  {
    && BuildSucceeds(FoundSession(cfg, oracle, dc), ManagedOrder(cfg, expire, dc))
    && RunCartId(cfg, oracle, dc) != ""
    && ItemIdIn(ReplyAt(oracle, |LookupCalls(cfg, dc)| + 2)) != 0
  }

  /** A run that found `dc` is its lookup, a build, then checkout when the
      build succeeded with truthy identifiers. */
  lemma RunTaskStages(cfg: Settings, expire: string, oracle: seq<Reply>, dc: string)
    requires Selected(cfg, ReplyAt(oracle, 0)) == Some(dc) && dc != ""
    ensures var b := BuildCart(FoundSession(cfg, oracle, dc), ManagedOrder(cfg, expire, dc));
            RunTask(cfg, expire, oracle) ==
              if b.status.Built? && b.status.cartId != "" && b.status.itemId != 0 then
                var c := CheckoutCart(b.after, cfg.channels, b.status.cartId, dc);
                Run(c.after.trace, c.result)
              else Run(b.after.trace, Aborted)
  {
    assert CheckAvailability(Session(oracle, []), cfg).after == FoundSession(cfg, oracle, dc);
  }

  /** If a build step fails, or an identifier is falsy, the run stops within
      the build plan: no checkout request is ever issued. A falsy identifier
      is noticed after the whole plan; a failed step ends the run at the
      first reply that raised or lacked the field the step reads. */
  lemma RunTaskAbortsBeforeCheckout(cfg: Settings, expire: string, oracle: seq<Reply>, dc: string)
    requires Selected(cfg, ReplyAt(oracle, 0)) == Some(dc) && dc != ""
    ensures RunTask(cfg, expire, oracle).result.Aborted? <==> !ReadyToCheckout(cfg, expire, oracle, dc)
    ensures RunTask(cfg, expire, oracle).result.Aborted? ==>
              var r := RunTask(cfg, expire, oracle);
              var k := |LookupCalls(cfg, dc)|;
              && k < |r.trace| <= k + |RunPlan(cfg, expire, oracle, dc)|
              && r.trace == LookupCalls(cfg, dc) + RunPlan(cfg, expire, oracle, dc)[..|r.trace| - k]
    // where it stops: after the whole plan when only an identifier is
    // falsy, otherwise at the first failed or malformed build reply
    ensures RunTask(cfg, expire, oracle).result.Aborted? ==>
              var r := RunTask(cfg, expire, oracle);
              var k := |LookupCalls(cfg, dc)|;
              && (BuildSucceeds(FoundSession(cfg, oracle, dc), ManagedOrder(cfg, expire, dc)) ==>
                    |r.trace| == k + |RunPlan(cfg, expire, oracle, dc)|)
              && (!BuildSucceeds(FoundSession(cfg, oracle, dc), ManagedOrder(cfg, expire, dc)) ==>
                    StoppedAtFirstFault(oracle, k, |r.trace| - k))
  {
    AbortedRunStops(cfg, expire, oracle, dc);
    RunTaskStages(cfg, expire, oracle, dc);
    var s1 := FoundSession(cfg, oracle, dc);
    BuildCartFailFast(s1, ManagedOrder(cfg, expire, dc));
    var b := BuildCart(s1, ManagedOrder(cfg, expire, dc));
    if b.status.Built? && b.status.cartId != "" && b.status.itemId != 0 {
      CheckoutSpec(b.after, cfg.channels, b.status.cartId, dc);
    }
  }

  /** The stopping point of `RunTaskAbortsBeforeCheckout`, on its own. */
  lemma AbortedRunStops(cfg: Settings, expire: string, oracle: seq<Reply>, dc: string)
    requires Selected(cfg, ReplyAt(oracle, 0)) == Some(dc) && dc != ""
    ensures RunTask(cfg, expire, oracle).result.Aborted? ==>
              StopsAt(FoundSession(cfg, oracle, dc), ManagedOrder(cfg, expire, dc), |RunTask(cfg, expire, oracle).trace|)
  {
    RunTaskStages(cfg, expire, oracle, dc);
    var s1 := FoundSession(cfg, oracle, dc);
    var o := ManagedOrder(cfg, expire, dc);
    BuildStops(s1, o);
    var b := BuildCart(s1, o);
    if b.status.Built? && b.status.cartId != "" && b.status.itemId != 0 {
      CheckoutSpec(b.after, cfg.channels, b.status.cartId, dc);
    }
  }


  /** The run purchases exactly when every build and checkout request
      succeeds; it then has issued the whole build plan and the checkout
      plan, then announces the order on Telegram, whatever that announcement
      returns, and issues nothing else. */
  lemma RunTaskPurchases(cfg: Settings, expire: string, oracle: seq<Reply>, dc: string)
    requires Selected(cfg, ReplyAt(oracle, 0)) == Some(dc) && dc != ""
    ensures var k := |LookupCalls(cfg, dc)| + |RunPlan(cfg, expire, oracle, dc)|;
            RunTask(cfg, expire, oracle).result.Purchased? <==>
              ReadyToCheckout(cfg, expire, oracle, dc) && AllSucceed(oracle, k, k + 2)
    ensures RunTask(cfg, expire, oracle).result.Purchased? ==>
              var r := RunTask(cfg, expire, oracle);
              && r.result == Purchased(dc)
              && r.trace == LookupCalls(cfg, dc) + RunPlan(cfg, expire, oracle, dc)
                            + CheckoutPlan(RunCartId(cfg, oracle, dc)) + TelegramCalls(cfg.channels, OrderPlaced(dc))
  {
    RunTaskStages(cfg, expire, oracle, dc);
    var s1 := FoundSession(cfg, oracle, dc);
    BuildCartFailFast(s1, ManagedOrder(cfg, expire, dc));
    var b := BuildCart(s1, ManagedOrder(cfg, expire, dc));
    if b.status.Built? && b.status.cartId != "" && b.status.itemId != 0 {
      CheckoutSpec(b.after, cfg.channels, b.status.cartId, dc);
    }
  }

  /** A failed checkout is followed at once by the existence probe of the
      cart; the cleanup outcome is "not found" exactly when that probe says
      so. */
  lemma CheckoutCleansUp(s: Session, ch: Channels, cartId: string, datacenter: string)
    requires !CheckoutCart(s, ch, cartId, datacenter).result.Purchased?
    ensures var c := CheckoutCart(s, ch, cartId, datacenter);
            var n := if Pending(s).Fail? then 1 else 2;
            && c.result.CheckoutFailed?
            && ReplyAt(s.oracle, |s.trace| + n - 1).Fail?
            && |c.after.trace| > |s.trace| + n
            && c.after.trace[..|s.trace| + n] == s.trace + CheckoutPlan(cartId)[..n]
            && c.after.trace[|s.trace| + n] == GetCart(cartId)
            && (c.result.cleanup == Ok(false) <==> NotFound(ReplyAt(s.oracle, |s.trace| + n)))
    // the probe is followed by the delete exactly when it found the cart,
    // and by nothing else
    ensures var c := CheckoutCart(s, ch, cartId, datacenter);
            var n := if Pending(s).Fail? then 1 else 2;
            var failed := Session(s.oracle, s.trace + CheckoutPlan(cartId)[..n]);
            && c.after.trace == failed.trace + [GetCart(cartId)]
                                + (if Pending(failed).Fail? then [] else [DeleteCartRequest(cartId)])
            && c.result == CheckoutFailed(DeleteCart(failed, cartId).result)
  {
    CheckoutSpec(s, ch, cartId, datacenter);
    var n := if Pending(s).Fail? then 1 else 2;
    var failed := Session(s.oracle, s.trace + CheckoutPlan(cartId)[..n]);
    var d := DeleteCart(failed, cartId);
    assert d.after.trace[..|failed.trace|] == failed.trace;
  }

  /** How a run `r` that failed at checkout ended: the checkout request
      that failed, then the probe of the cart the run built, after the whole
      build plan, then its deletion exactly when the probe found it, and
      nothing else; the cleanup is what `DeleteCart` reports, "not found"
      exactly when the probe says so. */
  ghost predicate CleanedUp(cfg: Settings, expire: string, oracle: seq<Reply>, dc: string, r: Run)
  {
    var k := |LookupCalls(cfg, dc)| + |RunPlan(cfg, expire, oracle, dc)|;
    var n := if ReplyAt(oracle, k).Fail? then 1 else 2;
    var cid := RunCartId(cfg, oracle, dc);
    && r.result.CheckoutFailed?
    && ReadyToCheckout(cfg, expire, oracle, dc)
    && ReplyAt(oracle, k + n - 1).Fail?
    && |r.trace| > k + n
    && r.trace[..k + n] == LookupCalls(cfg, dc) + RunPlan(cfg, expire, oracle, dc) + CheckoutPlan(cid)[..n]
    && r.trace[k + n] == GetCart(cid)
    && (r.result.cleanup == Ok(false) <==> NotFound(ReplyAt(oracle, k + n)))
    && var failed := Session(oracle, LookupCalls(cfg, dc) + RunPlan(cfg, expire, oracle, dc) + CheckoutPlan(cid)[..n]);
       && r.trace == failed.trace + [GetCart(cid)]
                     + (if Pending(failed).Fail? then [] else [DeleteCartRequest(cid)])
       && r.result == CheckoutFailed(DeleteCart(failed, cid).result)
  }

  /** A run that fails at checkout deletes the cart it built. */
  lemma RunTaskCleansUp(cfg: Settings, expire: string, oracle: seq<Reply>, dc: string)
    requires Selected(cfg, ReplyAt(oracle, 0)) == Some(dc) && dc != ""
    requires RunTask(cfg, expire, oracle).result.CheckoutFailed?
    ensures CleanedUp(cfg, expire, oracle, dc, RunTask(cfg, expire, oracle))
  {
    RunTaskChecksOut(cfg, expire, oracle, dc);
    CheckoutCleanedUp(cfg, expire, oracle, dc, RunTask(cfg, expire, oracle));
  }

  /** `RunTaskCleansUp` for a run already known to be the checkout of the
      built cart. */
  lemma CheckoutCleanedUp(cfg: Settings, expire: string, oracle: seq<Reply>, dc: string, r: Run)
    requires ReadyToCheckout(cfg, expire, oracle, dc)
    requires var s := Session(oracle, LookupCalls(cfg, dc) + RunPlan(cfg, expire, oracle, dc));
             var c := CheckoutCart(s, cfg.channels, RunCartId(cfg, oracle, dc), dc);
             r == Run(c.after.trace, c.result)
    requires r.result.CheckoutFailed?
    ensures CleanedUp(cfg, expire, oracle, dc, r)
  {
    var s := Session(oracle, LookupCalls(cfg, dc) + RunPlan(cfg, expire, oracle, dc));
    CheckoutCleansUp(s, cfg.channels, RunCartId(cfg, oracle, dc), dc);
  }

  /** Once the build is through, the run is the checkout of the built cart
      from the session holding the lookup and the whole build plan. */
  lemma RunTaskChecksOut(cfg: Settings, expire: string, oracle: seq<Reply>, dc: string)
    requires Selected(cfg, ReplyAt(oracle, 0)) == Some(dc) && dc != ""
    ensures !RunTask(cfg, expire, oracle).result.Aborted? ==>
              && ReadyToCheckout(cfg, expire, oracle, dc)
              && var s := Session(oracle, LookupCalls(cfg, dc) + RunPlan(cfg, expire, oracle, dc));
                 var c := CheckoutCart(s, cfg.channels, RunCartId(cfg, oracle, dc), dc);
                 RunTask(cfg, expire, oracle) == Run(c.after.trace, c.result)
  {
    RunTaskStages(cfg, expire, oracle, dc);
    RunTaskBuilt(cfg, expire, oracle, dc);
    var b := BuildCart(FoundSession(cfg, oracle, dc), ManagedOrder(cfg, expire, dc));
    if b.status.Built? && b.status.cartId != "" && b.status.itemId != 0 {
      CheckoutSpec(b.after, cfg.channels, b.status.cartId, dc);
    }
  }

  /** The build stage of a run that found `dc`: it succeeds with truthy
      identifiers exactly when the oracle says so, and then it has issued
      the whole plan and holds the provider's cart identifier. */
  lemma RunTaskBuilt(cfg: Settings, expire: string, oracle: seq<Reply>, dc: string)
    ensures var b := BuildCart(FoundSession(cfg, oracle, dc), ManagedOrder(cfg, expire, dc));
            ReadyToCheckout(cfg, expire, oracle, dc) <==>
              b.status.Built? && b.status.cartId != "" && b.status.itemId != 0
    ensures var b := BuildCart(FoundSession(cfg, oracle, dc), ManagedOrder(cfg, expire, dc));
            b.status.Built? ==>
              && b.after == Session(oracle, LookupCalls(cfg, dc) + RunPlan(cfg, expire, oracle, dc))
              && b.status.cartId == RunCartId(cfg, oracle, dc)
  {
    BuildCartFailFast(FoundSession(cfg, oracle, dc), ManagedOrder(cfg, expire, dc));
  }
}
