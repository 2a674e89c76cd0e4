/** The two notification channels and the `send_msg` combinator of the
    legacy script; the managed `NotificationService.send_msg` is the
    Telegram channel alone. */
module Notifier {
  import opened Remote

  /** Notification endpoints; the empty string means "not configured". */
  datatype Channels = Channels(telegramToken: string, barkUrl: string)

  datatype Sent = Sent(after: Session, ok: bool)

  /** A webhook request succeeded: it answered HTTP 200. A transport error,
      an error status (`raise_for_status`) and any other status all fail. */
  predicate Delivered(r: Reply)
  {
    r == Status(200)
  }

  /** The request a Telegram notification of `ev` makes: none without a
      token. */
  function TelegramCalls(ch: Channels, ev: Event): seq<Call>
  {
    if ch.telegramToken == "" then [] else [TelegramPost(ev)]
  }

  /** The requests the legacy `send_msg` of `ev` makes, given the reply to
      the first of them: Telegram first when a token is set, then Bark when
      a URL is set, unless Telegram was tried and did not answer 200. */
  function NotifyCalls(ch: Channels, ev: Event, telegramReply: Reply): seq<Call>
  {
    TelegramCalls(ch, ev)
    + (if ch.barkUrl == "" || (ch.telegramToken != "" && !Delivered(telegramReply)) then [] else [BarkGet(ev)])
  }

  /** `send_telegram_msg`, also the managed `NotificationService.send_msg`:
      skipped, and successful, without a token. */
  function SendTelegram(s: Session, ch: Channels, ev: Event): (r: Sent)
    ensures r.after.oracle == s.oracle
    // one POST when a token is set, nothing otherwise
    ensures r.after.trace == s.trace + TelegramCalls(ch, ev)
    ensures ch.telegramToken == "" ==> r.after == s
    // success means no token, or an HTTP 200 answer
    ensures r.ok <==> ch.telegramToken == "" || Delivered(Pending(s))
  {
    if ch.telegramToken == "" then Sent(s, true)
    else
      var e := Issue(s, TelegramPost(ev));
      Sent(e.after, Delivered(e.reply))
  }

  /** `send_bark_notification`: skipped, and successful, without a URL. */
  function SendBark(s: Session, ch: Channels, ev: Event): (r: Sent)
    ensures r.after.oracle == s.oracle
    // one GET when a URL is set, nothing otherwise
    ensures r.after.trace == s.trace + (if ch.barkUrl == "" then [] else [BarkGet(ev)])
    ensures r.ok <==> ch.barkUrl == "" || Delivered(Pending(s))
  {
    if ch.barkUrl == "" then Sent(s, true)
    else
      var e := Issue(s, BarkGet(ev));
      Sent(e.after, Delivered(e.reply))
  }

  /** The legacy `send_msg`: `send_telegram_msg(m) and send_bark_notification(m)`. */
  function SendBoth(s: Session, ch: Channels, ev: Event): (r: Sent)
    ensures r.after.oracle == s.oracle
    // nothing is sent, and the answer is yes, when neither channel is set up
    ensures ch.telegramToken == "" && ch.barkUrl == "" ==> r.ok && r.after == s
    // a Telegram failure is final: Bark is not tried
    ensures ch.telegramToken != "" && !Delivered(Pending(s)) ==>
              !r.ok && r.after.trace == s.trace + [TelegramPost(ev)]
    // success means every configured channel answered 200
    ensures r.ok <==>
              (ch.telegramToken == "" || Delivered(Pending(s)))
              && (ch.barkUrl == "" || Delivered(ReplyAt(s.oracle, |s.trace| + if ch.telegramToken == "" then 0 else 1)))
    // exactly the requests of the configured channels, Telegram first
    ensures r.after.trace == s.trace + NotifyCalls(ch, ev, Pending(s))
    ensures |s.trace| <= |r.after.trace| <= |s.trace| + 2
    ensures r.after.trace[..|s.trace|] == s.trace
    ensures forall k | |s.trace| <= k < |r.after.trace| ::
              r.after.trace[k] == TelegramPost(ev) || r.after.trace[k] == BarkGet(ev)
  {
    var t := SendTelegram(s, ch, ev);
    if !t.ok then t else SendBark(t.after, ch, ev)
  }
}
