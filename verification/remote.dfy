/** The outside world as an oracle. Every outbound request, to the
    provider's API or to a notification webhook, is a `Call` appended to the
    session's trace; its reply is the oracle's entry at the same position.
    A request past the end of the oracle gets no response, which reads as a
    transport failure. */
module Remote {
  import opened Wrappers
  import Availability
  import Region

  /** What a notification announces. */
  datatype Event = StockFound(datacenter: string) | OrderPlaced(datacenter: string)

  /** The requests the program can issue. The availability lookup carries
      the plan code as a query filter in the managed class and no filter in
      the legacy script. */
  datatype Call =
    | GetAvailabilities(planFilter: Option<string>)
    | PostCart(expire: Option<string>, zone: string)
    | PostAssign(cartId: string)
    | PostItem(cartId: string, planCode: string, pricingMode: string, duration: string, quantity: int)
    | GetRequiredConfiguration(cartId: string, itemId: int)
    | PostConfiguration(cartId: string, itemId: int, name: string, value: Option<string>)
    | PostOption(cartId: string, itemId: int, planCode: string, pricingMode: string, duration: string, quantity: int)
    | GetCheckout(cartId: string)
    | PostCheckout(cartId: string, autoPay: bool, waiveRetractation: bool)
    | GetCart(cartId: string)
    | DeleteCartRequest(cartId: string)
    | ListCarts
    | TelegramPost(event: Event)
    | BarkGet(event: Event)

  /** What a request can get back. `Fail` is a raised client error (the
      provider client's `APIError`, `requests`' `RequestException`); every
      other reply is a successful response whose body has the given shape. */
  datatype Reply =
    | Fail(message: string)
    | Done
    | Stock(records: seq<Availability.AvailabilityRecord>)
    | CartCreated(cartId: string)
    | ItemAdded(itemId: int)
    | Requirements(fields: seq<Region.RequiredField>)
    | CartDetails(expire: Option<string>, readOnly: bool)
    | CartIds(ids: seq<string>)
    | Status(code: int)

  const NoResponse: Reply := Fail("no response")

  /** The scripted replies and the requests issued so far. */
  datatype Session = Session(oracle: seq<Reply>, trace: seq<Call>)

  /** The reply to the `k`-th request. */
  function ReplyAt(oracle: seq<Reply>, k: int): Reply
  {
    if 0 <= k < |oracle| then oracle[k] else NoResponse
  }

  /** The reply the next request will get. */
  function Pending(s: Session): Reply
  {
    ReplyAt(s.oracle, |s.trace|)
  }

  datatype Exchange = Exchange(reply: Reply, after: Session)

  /** Sends one request. */
  function Issue(s: Session, c: Call): Exchange
  {
    Exchange(Pending(s), s.(trace := s.trace + [c]))
  }

  /** The replies at positions `lo` up to (excluding) `hi` are all successes. */
  ghost predicate AllSucceed(oracle: seq<Reply>, lo: int, hi: int)
  {
    forall k | lo <= k < hi :: !ReplyAt(oracle, k).Fail?
  }

  datatype Batch = Batch(after: Session, ok: bool)

  /** Sends `calls` one after another and stops at the first failed reply,
      like a `for` loop whose body returns on an exception. */
  function IssueAll(s: Session, calls: seq<Call>): (b: Batch)
    ensures b.after.oracle == s.oracle
    ensures |s.trace| <= |b.after.trace| <= |s.trace| + |calls|
    ensures b.after.trace == s.trace + calls[..|b.after.trace| - |s.trace|]
    ensures b.ok <==> AllSucceed(s.oracle, |s.trace|, |s.trace| + |calls|)
    ensures b.ok ==> |b.after.trace| == |s.trace| + |calls|
    ensures !b.ok ==> |s.trace| < |b.after.trace|
                      && AllSucceed(s.oracle, |s.trace|, |b.after.trace| - 1)
                      && ReplyAt(s.oracle, |b.after.trace| - 1).Fail?
    decreases |calls|
  {
    if calls == [] then Batch(s, true)
    else
      var e := Issue(s, calls[0]);
      if e.reply.Fail? then Batch(e.after, false)
      else
        assert calls == [calls[0]] + calls[1..];
        IssueAll(e.after, calls[1..])
  }
}
