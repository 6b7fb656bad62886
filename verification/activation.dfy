/**
 * Activation: what the payment webhook does to the store once a payment is
 * verified. An invite link is minted first; only if that succeeds is the
 * payer's record overwritten with a fresh active period and the whole store saved.
 *
 * Whether the chat platform mints the invite is the input `minted`; the clock
 * is the input `now` (epoch seconds).
 */
module Activation {
  import opened Optional
  import opened Decimal
  import opened Store
  import opened Payment

  const SecondsPerDay: int := 86400

  /** The deployment settings the lifecycle depends on: the subscription length in days and the invite lifetime in seconds. */
  datatype Config = Config(subscriptionDays: int, inviteTtl: int)

  /** The settings used when the environment sets neither. */
  const Defaults: Config := Config(30, 600)

  /** The store key of a user id: its decimal text. */
  function Key(userId: nat): (k: string)
    ensures IsCanonical(k)
    ensures Parse(k) == userId
  {
    ParseShow(userId);
    Show(userId)
  }

  /** Distinct users have distinct keys, so one user's payment never lands on another's record. */
  lemma KeyInjective(u: nat, v: nat)
    ensures Key(u) == Key(v) <==> u == v
  {
  }

  /** The record a payment confirmed at `now` produces: active for the configured period, paid at `now`, never expired. */
  function ActiveRecord(cfg: Config, now: int): (rec: Record)
    ensures rec.status == Active && rec.expiredAt.None?
    ensures rec.expiry == Whole(now + cfg.subscriptionDays * SecondsPerDay)
    ensures rec.lastPayment == Some(now)
    ensures WellFormed(rec)
  {
    Record(Whole(now + cfg.subscriptionDays * SecondsPerDay), Active, Some(now), None)
  }

  /**
   * The store after a payment for `key` at `now`: the record at `key` is replaced
   * wholesale (whatever it was, including a previous `expired_at`), every other record is kept.
   */
  function Activate(db: Db, key: string, cfg: Config, now: int): (r: Db)
    ensures r.Keys == db.Keys + {key}
    ensures r[key] == ActiveRecord(cfg, now)
    ensures forall k :: k in db && k != key ==> r[k] == db[k]
    ensures AllWellFormed(db) ==> AllWellFormed(r)
  {
    db[key := ActiveRecord(cfg, now)]
  }

  /**
   * The webhook's effect: its reply, the store afterwards, whether the store was
   * saved, the expiry requested for an invite link (if one was requested), and the
   * user the welcome message with the link goes to (if any).
   */
  datatype Reply = Reply(ack: Ack, db: Db, saved: bool, inviteExpiry: Option<int>, welcome: Option<nat>)

  /**
   * The webhook's effect once verification has given its verdict. A rejection is
   * answered with the store untouched and no invite requested. A verified payment
   * requests an invite; if the platform does not mint it the failure is swallowed,
   * the store is untouched and the reply is still "ok"; otherwise the payer's
   * record is activated and the whole store saved.
   */
  function Respond(cfg: Config, db: Db, verdict: Verdict, minted: bool, now: int): (r: Reply)
    ensures verdict.Rejected? ==> r == Reply(verdict.ack, db, false, None, None)
    ensures verdict.Verified? ==> r.ack == Done
    ensures r.inviteExpiry.Some? <==> verdict.Verified?
    ensures r.inviteExpiry.Some? ==> r.inviteExpiry.value == InviteExpiry(now, cfg.inviteTtl)
    ensures r.inviteExpiry.Some? ==> r.inviteExpiry.value >= now + MinInviteTtl
    ensures r.saved <==> verdict.Verified? && minted
    ensures !r.saved ==> r.db == db
    ensures r.saved ==> r.db == Activate(db, Key(verdict.userId), cfg, now)
    ensures r.welcome.Some? <==> r.saved
    ensures r.welcome.Some? ==> r.welcome.value == verdict.userId
  {
    match verdict
    case Rejected(ack) => Reply(ack, db, false, None, None)
    case Verified(userId) =>
      var expiry := InviteExpiry(now, cfg.inviteTtl);
      if !minted then Reply(Done, db, false, Some(expiry), None)
      else Reply(Done, Activate(db, Key(userId), cfg, now), true, Some(expiry), Some(userId))
  }

  /**
   * The payment webhook with the corrected verification: every webhook is
   * acknowledged, and the store changes only for a verified payment whose invite was minted.
   */
  function HandleWebhook(cfg: Config, db: Db, form: Form, lookup: Lookup, minted: bool, now: int): (r: Reply)
    ensures Acknowledged(r.ack)
    ensures Verify(form, lookup).Verified? ==> r.ack == Done
    ensures r.inviteExpiry.Some? <==> Verify(form, lookup).Verified?
    ensures r.inviteExpiry.Some? ==> r.inviteExpiry.value == InviteExpiry(now, cfg.inviteTtl)
    ensures r.inviteExpiry.Some? ==> r.inviteExpiry.value >= now + MinInviteTtl
    ensures r.saved <==> Verify(form, lookup).Verified? && minted
    ensures !r.saved ==> r.db == db
    ensures r.saved ==> r.db == Activate(db, Key(Verify(form, lookup).userId), cfg, now)
    ensures r.welcome.Some? <==> r.saved
    ensures r.welcome.Some? ==> r.welcome.value == Verify(form, lookup).userId
  {
    Respond(cfg, db, Verify(form, lookup), minted, now)
  }

  /**
   * The payment webhook exactly as the handler behaves: where reading a field of a
   * non-object raises, the exception escapes unacknowledged, with the store
   * untouched and nothing saved; everywhere else it is the corrected handler.
   */
  function HandleWebhookAsWritten(cfg: Config, db: Db, form: Form, lookup: Lookup, minted: bool, now: int): (r: Reply)
    ensures !Acknowledged(r.ack) <==> VerifyAsWritten(form, lookup) == Rejected(Crashed)
    ensures !Acknowledged(r.ack) ==> r == Reply(Crashed, db, false, None, None)
    ensures Acknowledged(r.ack) ==> r == HandleWebhook(cfg, db, form, lookup, minted, now)
  {
    Respond(cfg, db, VerifyAsWritten(form, lookup), minted, now)
  }

  /**
   * A webhook that fails verification changes nothing and requests no invite,
   * under both handlers. The corrected handler acknowledges it; the handler as
   * written acknowledges it unless a field read on a non-object raised.
   */
  lemma RejectedWebhookChangesNothing(cfg: Config, db: Db, form: Form, lookup: Lookup, minted: bool, now: int)
    requires
      || RequestId(form) == ""
      || !lookup.Found?
      || lookup.request.status !in AcceptedStatuses
      || !IsDigits(UserIdField(lookup.request.metadata))
    ensures var r := HandleWebhook(cfg, db, form, lookup, minted, now);
            r.db == db && !r.saved && r.inviteExpiry.None? && Acknowledged(r.ack)
    ensures var w := HandleWebhookAsWritten(cfg, db, form, lookup, minted, now);
            && w.db == db && !w.saved && w.inviteExpiry.None?
            && (!Acknowledged(w.ack) <==>
                  && RequestId(form) != ""
                  && (|| lookup.FoundNonObject?
                      || (&& lookup.Found?
                          && lookup.request.status in AcceptedStatuses
                          && UserIdFieldAsWritten(lookup.request.metadata).None?)))
  {
  }

  /** If the invite cannot be minted, nothing is written, and the webhook is still acknowledged as "ok". */
  lemma MintFailureChangesNothing(cfg: Config, db: Db, form: Form, lookup: Lookup, now: int)
    ensures var r := HandleWebhook(cfg, db, form, lookup, false, now);
            r.db == db && !r.saved && r.welcome.None? && Acknowledged(r.ack)
  {
  }

  /** A successful activation touches the payer's record only: every other user's record is as it was. */
  lemma ActivationTouchesOnlyPayer(cfg: Config, db: Db, form: Form, lookup: Lookup, now: int, other: nat)
    requires Verify(form, lookup).Verified?
    requires other != Verify(form, lookup).userId
    requires Key(other) in db
    ensures var r := HandleWebhook(cfg, db, form, lookup, true, now);
            Key(other) in r.db && r.db[Key(other)] == db[Key(other)]
  {
  }

  /** Renewal overwrites: a second activation of the same key leaves the store as if only the second had happened. */
  lemma RenewalOverwrites(db: Db, key: string, cfg: Config, first: int, second: int)
    ensures Activate(Activate(db, key, cfg, first), key, cfg, second) == Activate(db, key, cfg, second)
  {
  }

  /**
   * Two verified, minted payments by the same user leave exactly one record for
   * that user, carrying the second payment's period, and no other record changed.
   */
  lemma RepeatedPaymentRenews(cfg: Config, db: Db, form1: Form, lookup1: Lookup, now1: int,
                              form2: Form, lookup2: Lookup, now2: int)
    requires Verify(form1, lookup1).Verified? && Verify(form2, lookup2).Verified?
    requires Verify(form1, lookup1).userId == Verify(form2, lookup2).userId
    ensures var r1 := HandleWebhook(cfg, db, form1, lookup1, true, now1);
            var r2 := HandleWebhook(cfg, r1.db, form2, lookup2, true, now2);
            var key := Key(Verify(form1, lookup1).userId);
            && r2.db.Keys == db.Keys + {key}
            && r2.db[key].expiry == Whole(now2 + cfg.subscriptionDays * SecondsPerDay)
            && r2.db == Activate(db, key, cfg, now2)
  {
  }

  /**
   * With the default settings, a verified and minted payment requests an invite
   * lasting 600 seconds and activates the payer for 30 days.
   */
  lemma DefaultSettings(db: Db, form: Form, lookup: Lookup, now: int)
    requires Verify(form, lookup).Verified?
    ensures var r := HandleWebhook(Defaults, db, form, lookup, true, now);
            && r.inviteExpiry == Some(now + 600)
            && r.db[Key(Verify(form, lookup).userId)].expiry == Whole(now + 2592000)
  {
  }
}
