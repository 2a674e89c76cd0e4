/** Cart operations shared by the managed class and the legacy script:
    the existence check and deletion (`check_cart_exists`, `delete_cart`),
    and the fail-fast build of a cart up to, not including, checkout. */
module Carts {
  import opened Wrappers
  import opened Strings
  import opened Remote
  import opened Region

  /** The text of the provider error for a missing cart. */
  const CartNotFound: string := "Cart not found"
  /** Pricing mode, duration and quantity of the server and of every option. */
  const PricingMode: string := "default"
  const Duration: string := "P1M"
  const Quantity: int := 1

  /** A raised error whose text says the cart does not exist. */
  predicate NotFound(r: Reply)
  {
    r.Fail? && Contains(r.message, CartNotFound)
  }

  /** A yes/no answer or the error raised instead, and the session after. */
  datatype Probe = Probe(after: Session, result: Result<bool>)

  /** `check_cart_exists`: any answer means yes, a "Cart not found" error
      means no, and every other error is raised again. */
  function CheckCartExists(s: Session, cartId: string): Probe
  {
    var e := Issue(s, GetCart(cartId));
    if !e.reply.Fail? then Probe(e.after, Ok(true))
    else if NotFound(e.reply) then Probe(e.after, Ok(false))
    else Probe(e.after, Err(e.reply.message))
  }

  /** `delete_cart`: one existence check, then one delete request only if
      the cart exists. */
  function DeleteCart(s: Session, cartId: string): (p: Probe)
    ensures p.after.oracle == s.oracle
    // a missing cart: no, and nothing deleted
    ensures p.result == Ok(false) <==> NotFound(Pending(s))
    ensures p.result == Ok(false) ==> p.after.trace == s.trace + [GetCart(cartId)]
    // an existing cart: exactly one delete request, then yes
    ensures p.result == Ok(true) <==> !Pending(s).Fail? && !ReplyAt(s.oracle, |s.trace| + 1).Fail?
    ensures !Pending(s).Fail? ==> p.after.trace == s.trace + [GetCart(cartId), DeleteCartRequest(cartId)]
    // any other error propagates
    ensures p.result.Err? <==>
              (Pending(s).Fail? && !NotFound(Pending(s)))
              || (!Pending(s).Fail? && ReplyAt(s.oracle, |s.trace| + 1).Fail?)
    ensures Pending(s).Fail? ==> p.after.trace == s.trace + [GetCart(cartId)]
  {
    var c := CheckCartExists(s, cartId);
    if c.result.Err? || !c.result.value then c
    else
      var e := Issue(c.after, DeleteCartRequest(cartId));
      if e.reply.Fail? then Probe(e.after, Err(e.reply.message)) else Probe(e.after, Ok(true))
  }

  /** What a cart build is for: the selected datacenter, the expiry sent with
      the cart (the legacy script sends none), the subsidiary, the server's
      plan code and the extra options. */
  datatype Order = Order(datacenter: string, expire: Option<string>, zone: string,
                         planCode: string, options: seq<string>)

  function ConfigurationCalls(cartId: string, itemId: int, conf: seq<Assignment>): seq<Call>
  {
    seq(|conf|, i requires 0 <= i < |conf| => PostConfiguration(cartId, itemId, conf[i].name, conf[i].value))
  }

  function OptionCalls(cartId: string, itemId: int, options: seq<string>): seq<Call>
  {
    seq(|options|, i requires 0 <= i < |options| =>
      PostOption(cartId, itemId, options[i], PricingMode, Duration, Quantity))
  }

  /** The requests of a build in which every step succeeds: create, assign,
      add the server, read the required configuration, the three
      configuration assignments in order, then every option in order. */
  function BuildPlan(o: Order, cartId: string, itemId: int, region: Option<string>): seq<Call>
  {
    OpeningCalls(o, cartId, itemId) + SettingCalls(o, cartId, itemId, region)
  }

  /** Create, assign, add the server, read its required configuration. */
  function OpeningCalls(o: Order, cartId: string, itemId: int): seq<Call>
  {
    [ PostCart(o.expire, o.zone),
      PostAssign(cartId),
      PostItem(cartId, o.planCode, PricingMode, Duration, Quantity),
      GetRequiredConfiguration(cartId, itemId) ]
  }

  /** The three configuration assignments, then every option. */
  function SettingCalls(o: Order, cartId: string, itemId: int, region: Option<string>): seq<Call>
  {
    ConfigurationCalls(cartId, itemId, Configurations(o.datacenter, region))
    + OptionCalls(cartId, itemId, o.options)
  }

  /** The build plan request by request: the four opening requests, the
      datacenter, the OS image and the region in that order, then one
      request per option in the configured order, each for one unit, one
      month, default pricing. */
  lemma BuildPlanLayout(o: Order, cartId: string, itemId: int, region: Option<string>)
    ensures |BuildPlan(o, cartId, itemId, region)| == 7 + |o.options|
    ensures BuildPlan(o, cartId, itemId, region)[..4] == OpeningCalls(o, cartId, itemId)
    ensures BuildPlan(o, cartId, itemId, region)[4] ==
              PostConfiguration(cartId, itemId, "dedicated_datacenter", Some(o.datacenter))
    ensures BuildPlan(o, cartId, itemId, region)[5] == PostConfiguration(cartId, itemId, "dedicated_os", Some(NoOs))
    ensures BuildPlan(o, cartId, itemId, region)[6] == PostConfiguration(cartId, itemId, "region", region)
    ensures forall j | 0 <= j < |o.options| ::
              BuildPlan(o, cartId, itemId, region)[7 + j] == PostOption(cartId, itemId, o.options[j], "default", "P1M", 1)
  {
    var plan := BuildPlan(o, cartId, itemId, region);
    var opening := OpeningCalls(o, cartId, itemId);
    var conf := ConfigurationCalls(cartId, itemId, Configurations(o.datacenter, region));
    var opts := OptionCalls(cartId, itemId, o.options);
    assert plan == opening + conf + opts;
    forall j | 0 <= j < |o.options|
      ensures plan[7 + j] == PostOption(cartId, itemId, o.options[j], "default", "P1M", 1)
    {
      assert plan[7 + j] == opts[j];
    }
  }

  /** Identifiers as the provider hands them out; the defaults are never
      used, since a reply of another shape ends the build first. */
  function CartIdIn(r: Reply): string
  {
    if r.CartCreated? then r.cartId else ""
  }

  function ItemIdIn(r: Reply): int
  {
    if r.ItemAdded? then r.itemId else 0
  }

  function FieldsIn(r: Reply): seq<RequiredField>
  {
    if r.Requirements? then r.fields else []
  }

  /** The plan of a build started in session `s`, with the identifiers and
      the region the oracle will hand out. */
  function PlanFor(s: Session, o: Order): seq<Call>
  {
    var b := |s.trace|;
    BuildPlan(o, CartIdIn(ReplyAt(s.oracle, b)), ItemIdIn(ReplyAt(s.oracle, b + 2)),
              RegionOf(FieldsIn(ReplyAt(s.oracle, b + 3))))
  }

  /** How a build ended: with the cart and item identifiers, with a raised
      client error, or with a successful reply that lacked the field the
      step reads (`KeyError` in Python). */
  datatype BuildStatus = Built(cartId: string, itemId: int) | Rejected | Malformed

  datatype Build = Build(after: Session, status: BuildStatus)

  /** How the first four requests ended. */
  datatype Opening = Opening(after: Session, status: BuildStatus, fields: seq<RequiredField>)

  /** Create, assign, add the server, read its required configuration. */
  function OpenCart(s: Session, o: Order): Opening
  {
    var e1 := Issue(s, PostCart(o.expire, o.zone));
    if e1.reply.Fail? then Opening(e1.after, Rejected, [])
    else if !e1.reply.CartCreated? then Opening(e1.after, Malformed, [])
    else
      var cid := e1.reply.cartId;
      var e2 := Issue(e1.after, PostAssign(cid));
      if e2.reply.Fail? then Opening(e2.after, Rejected, [])
      else
        var e3 := Issue(e2.after, PostItem(cid, o.planCode, PricingMode, Duration, Quantity));
        if e3.reply.Fail? then Opening(e3.after, Rejected, [])
        else if !e3.reply.ItemAdded? then Opening(e3.after, Malformed, [])
        else
          var iid := e3.reply.itemId;
          var e4 := Issue(e3.after, GetRequiredConfiguration(cid, iid));
          if e4.reply.Fail? then Opening(e4.after, Rejected, [])
          else if !e4.reply.Requirements? then Opening(e4.after, Malformed, [])
          else Opening(e4.after, Built(cid, iid), e4.reply.fields)
  }

  /** Creates and configures a cart, stopping at the first step that fails
      (`_create_and_configure_cart`, and the same steps of the legacy
      script); `BuildCartFailFast` states what it issues. */
  function BuildCart(s: Session, o: Order): Build
  {
    var op := OpenCart(s, o);
    if !op.status.Built? then Build(op.after, op.status)
    else
      var batch := IssueAll(op.after, SettingCalls(o, op.status.cartId, op.status.itemId, RegionOf(op.fields)));
      Build(batch.after, if batch.ok then op.status else Rejected)
  }

  /** The opening requests stop at the first failure; they all go out, all
      answered with the expected body, exactly when the opening succeeds. */
  lemma OpenCartFailFast(s: Session, o: Order)
    ensures var b := |s.trace|;
            var op := OpenCart(s, o);
            var calls := OpeningCalls(o, CartIdIn(ReplyAt(s.oracle, b)), ItemIdIn(ReplyAt(s.oracle, b + 2)));
            && op.after.oracle == s.oracle
            && b < |op.after.trace| <= b + 4
            && op.after.trace == s.trace + calls[..|op.after.trace| - b]
            && (op.status.Built? <==>
                  ReplyAt(s.oracle, b).CartCreated? && !ReplyAt(s.oracle, b + 1).Fail?
                  && ReplyAt(s.oracle, b + 2).ItemAdded? && ReplyAt(s.oracle, b + 3).Requirements?)
            && (op.status.Built? ==>
                  && |op.after.trace| == b + 4
                  && op.status == Built(CartIdIn(ReplyAt(s.oracle, b)), ItemIdIn(ReplyAt(s.oracle, b + 2)))
                  && op.fields == FieldsIn(ReplyAt(s.oracle, b + 3)))
            && (!op.status.Built? ==> AllSucceed(s.oracle, b, |op.after.trace| - 1))
            && (!op.status.Built? ==> StoppedAtFirstFault(s.oracle, b, |op.after.trace| - b))
            && (op.status.Rejected? ==> ReplyAt(s.oracle, |op.after.trace| - 1).Fail?)
            && (op.status.Malformed? ==> !ReplyAt(s.oracle, |op.after.trace| - 1).Fail?)
  {
    var b := |s.trace|;
    var calls := OpeningCalls(o, CartIdIn(ReplyAt(s.oracle, b)), ItemIdIn(ReplyAt(s.oracle, b + 2)));
    assert calls[..1] == [calls[0]];
    assert calls[..2] == [calls[0], calls[1]];
    assert calls[..3] == [calls[0], calls[1], calls[2]];
    assert calls[..4] == calls;
  }

  /** Every step of the build succeeds with the body it reads. */
  ghost predicate BuildSucceeds(s: Session, o: Order)
  {
    var b := |s.trace|;
    && ReplyAt(s.oracle, b).CartCreated?
    && ReplyAt(s.oracle, b + 2).ItemAdded?
    && ReplyAt(s.oracle, b + 3).Requirements?
    && AllSucceed(s.oracle, b, b + |PlanFor(s, o)|)
  }

  /** The reply to request `k` of a build started at position `b` has the
      shape the step reads: the new cart for the creation, the item for the
      addition, the required configuration for its read, and anything but a
      raised error for the other steps. A reply of another shape raises
      (`KeyError`) and ends the build there. */
  ghost predicate ShapeOk(oracle: seq<Reply>, b: int, k: int)
  {
    var r := ReplyAt(oracle, k);
    if k == b then r.CartCreated?
    else if k == b + 2 then r.ItemAdded?
    else if k == b + 3 then r.Requirements?
    else !r.Fail?
  }

  /** Every request of a build started at `b`, up to `hi` excluded, was
      answered with the shape its step reads. */
  ghost predicate ShapesBefore(oracle: seq<Reply>, b: int, hi: int)
  {
    forall k | b <= k < hi :: ShapeOk(oracle, b, k)
  }

  /** A build started at `b` that issued `n` requests stopped at its first
      fault: every earlier reply had the expected shape and the last did
      not. */
  ghost predicate StoppedAtFirstFault(oracle: seq<Reply>, b: int, n: int)
  {
    && ShapesBefore(oracle, b, b + n - 1)
    && !ShapeOk(oracle, b, b + n - 1)
  }

  /** The requests a build issues are always a non-empty prefix of its plan.
      They are all of it, all answered successfully, exactly when the build
      succeeds; otherwise the last request is the one that failed, with a
      raised error (`Rejected`) or with a body lacking the field the step
      reads (`Malformed`). */
  lemma BuildCartFailFast(s: Session, o: Order)
    ensures var c := BuildCart(s, o);
            c.after.oracle == s.oracle
    ensures var c := BuildCart(s, o);
            && |s.trace| < |c.after.trace| <= |s.trace| + |PlanFor(s, o)|
            && c.after.trace == s.trace + PlanFor(s, o)[..|c.after.trace| - |s.trace|]
    ensures var c := BuildCart(s, o);
            c.status.Built? <==> BuildSucceeds(s, o)
    ensures var c := BuildCart(s, o);
            c.status.Built? ==>
              && c.after.trace == s.trace + PlanFor(s, o)
              && c.status == Built(CartIdIn(Pending(s)), ItemIdIn(ReplyAt(s.oracle, |s.trace| + 2)))
    ensures var c := BuildCart(s, o);
            && (!c.status.Built? ==> AllSucceed(s.oracle, |s.trace|, |c.after.trace| - 1))
            && (c.status.Rejected? ==> ReplyAt(s.oracle, |c.after.trace| - 1).Fail?)
            && (c.status.Malformed? ==> !ReplyAt(s.oracle, |c.after.trace| - 1).Fail?)
    // the build stops at the first reply of the wrong shape, not later
    ensures var c := BuildCart(s, o);
            !c.status.Built? ==> StoppedAtFirstFault(s.oracle, |s.trace|, |c.after.trace| - |s.trace|)
  {
    OpenCartFailFast(s, o);
    if OpenCart(s, o).status.Built? {
      SettingsFailFast(s, o);
      if !BuildCart(s, o).status.Built? {
        ShapesAfterOpening(s.oracle, |s.trace|, |BuildCart(s, o).after.trace| - 1);
      }
    } else {
      OpenedPrefix(s, o);
    }
  }

  /** Where a build started in `s` stops, given `n`, the length of the
      trace after it: after the whole plan when every step succeeds,
      otherwise at the first reply of the wrong shape. */
  ghost predicate StopsAt(s: Session, o: Order, n: int)
  {
    && (BuildSucceeds(s, o) ==> n == |s.trace| + |PlanFor(s, o)|)
    && (!BuildSucceeds(s, o) ==> StoppedAtFirstFault(s.oracle, |s.trace|, n - |s.trace|))
  }

  /** `BuildCartFailFast` reduced to where the build stops. */
  lemma BuildStops(s: Session, o: Order)
    ensures StopsAt(s, o, |BuildCart(s, o).after.trace|)
  {
    BuildCartFailFast(s, o);
  }

  /** `BuildCartFailFast` reduced to the requests the build issues. */
  lemma BuildIssuesPrefix(s: Session, o: Order)
    ensures var c := BuildCart(s, o);
            && c.after.oracle == s.oracle
            && |s.trace| < |c.after.trace| <= |s.trace| + |PlanFor(s, o)|
            && c.after.trace == s.trace + PlanFor(s, o)[..|c.after.trace| - |s.trace|]
  {
    BuildCartFailFast(s, o);
  }

  /** Once the opening replies had their shapes, every later reply that
      succeeded has its shape too. */
  lemma ShapesAfterOpening(oracle: seq<Reply>, b: int, hi: int)
    requires ReplyAt(oracle, b).CartCreated? && ReplyAt(oracle, b + 2).ItemAdded?
    requires ReplyAt(oracle, b + 3).Requirements?
    requires AllSucceed(oracle, b, hi)
    ensures ShapesBefore(oracle, b, hi)
  {
    forall k | b <= k < hi
      ensures ShapeOk(oracle, b, k)
    {
      assert !ReplyAt(oracle, k).Fail?;
    }
  }

  /** When the opening fails, the build ends there. */
  lemma OpenedPrefix(s: Session, o: Order)
    requires !OpenCart(s, o).status.Built?
    requires var b := |s.trace|;
             var op := OpenCart(s, o);
             var calls := OpeningCalls(o, CartIdIn(ReplyAt(s.oracle, b)), ItemIdIn(ReplyAt(s.oracle, b + 2)));
             && op.after.oracle == s.oracle
             && b < |op.after.trace| <= b + 4
             && op.after.trace == s.trace + calls[..|op.after.trace| - b]
             && (!ReplyAt(s.oracle, b).CartCreated? || !ReplyAt(s.oracle, b + 2).ItemAdded?
                 || !ReplyAt(s.oracle, b + 3).Requirements? || ReplyAt(s.oracle, b + 1).Fail?)
    ensures BuildCart(s, o).after.trace == s.trace + PlanFor(s, o)[..|BuildCart(s, o).after.trace| - |s.trace|]
    ensures !BuildSucceeds(s, o)
  {
    var b := |s.trace|;
    var plan := PlanFor(s, o);
    var opening := OpeningCalls(o, CartIdIn(ReplyAt(s.oracle, b)), ItemIdIn(ReplyAt(s.oracle, b + 2)));
    assert plan[..|OpenCart(s, o).after.trace| - b] == opening[..|OpenCart(s, o).after.trace| - b];
    if ReplyAt(s.oracle, b + 1).Fail? {
      assert !AllSucceed(s.oracle, b, b + |plan|);
    }
  }

  /** When the opening succeeds, the rest of the build is one fail-fast
      batch of the configuration and option requests. */
  lemma SettingsFailFast(s: Session, o: Order)
    requires OpenCart(s, o).status.Built?
    requires var b := |s.trace|;
             var op := OpenCart(s, o);
             var calls := OpeningCalls(o, CartIdIn(ReplyAt(s.oracle, b)), ItemIdIn(ReplyAt(s.oracle, b + 2)));
             && op.after.oracle == s.oracle
             && op.after.trace == s.trace + calls
             && AllSucceed(s.oracle, b, b + 4)
             && ReplyAt(s.oracle, b).CartCreated? && ReplyAt(s.oracle, b + 2).ItemAdded?
             && ReplyAt(s.oracle, b + 3).Requirements?
             && op.status == Built(CartIdIn(ReplyAt(s.oracle, b)), ItemIdIn(ReplyAt(s.oracle, b + 2)))
             && op.fields == FieldsIn(ReplyAt(s.oracle, b + 3))
    ensures BuildCart(s, o).after.trace == s.trace + PlanFor(s, o)[..|BuildCart(s, o).after.trace| - |s.trace|]
    ensures |BuildCart(s, o).after.trace| <= |s.trace| + |PlanFor(s, o)|
    ensures BuildCart(s, o).status.Built? <==> BuildSucceeds(s, o)
    ensures BuildCart(s, o).status.Built? ==> BuildCart(s, o).after.trace == s.trace + PlanFor(s, o)
    ensures !BuildCart(s, o).status.Built? ==>
              && AllSucceed(s.oracle, |s.trace|, |BuildCart(s, o).after.trace| - 1)
              && ReplyAt(s.oracle, |BuildCart(s, o).after.trace| - 1).Fail?
  {
    var b := |s.trace|;
    var op := OpenCart(s, o);
    var cid, iid := op.status.cartId, op.status.itemId;
    var setting := SettingCalls(o, cid, iid, RegionOf(op.fields));
    var plan := PlanFor(s, o);
    assert plan == OpeningCalls(o, cid, iid) + setting;
    var batch := IssueAll(op.after, setting);
    assert batch.after.trace == s.trace + plan[..|batch.after.trace| - b];
    if !batch.ok {
      assert !AllSucceed(s.oracle, b, b + |plan|);
    }
  }

  /** How one run of the purchase task ended. */
  datatype RunResult =
    | NoStock                               // nothing purchasable, or the lookup failed
    | Aborted                               // a step before checkout failed
    | Crashed                               // an uncaught exception ended the process
    | CheckoutFailed(cleanup: Result<bool>) // checkout failed; what deleting the cart gave
    | Purchased(datacenter: string)         // ordered; the process exits with status 0

  /** The requests of one run and how it ended. */
  datatype Run = Run(trace: seq<Call>, result: RunResult)

  /** The checkout summary read, then the order submission with payment
      deferred and the retraction period waived. */
  function CheckoutPlan(cartId: string): seq<Call>
  {
    [GetCheckout(cartId), PostCheckout(cartId, false, true)]
  }
}
