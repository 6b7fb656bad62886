/**
 * The life of one subscriber's record across both entry points: created by a
 * confirmed payment, moved to expired by the sweep once its period is over,
 * made active again by a later payment. Records are never deleted.
 */
module Lifecycle {
  import opened Optional
  import opened Store
  import opened Payment
  import opened Activation
  import opened Expiry

  /** The record stored under `k`, if any. */
  function At(db: Db, k: string): Option<Record> {
    if k in db then Some(db[k]) else None
  }

  /**
   * The moves one operation at `now` may make on the record under one key: none;
   * a payment that (re)creates it as a fresh active record; or a revocation that
   * takes an active record to expired at `now`.
   */
  predicate Transition(before: Option<Record>, after: Option<Record>, cfg: Config, now: int) {
    || after == before
    || after == Some(ActiveRecord(cfg, now))
    || (before.Some? && before.value.status == Active && after == Some(Expire(before.value, now)))
  }

  /** Every key's record moves by a permitted transition under the payment webhook. */
  lemma WebhookMovesAreTransitions(cfg: Config, db: Db, form: Form, lookup: Lookup, minted: bool, now: int, k: string)
    ensures Transition(At(db, k), At(HandleWebhook(cfg, db, form, lookup, minted, now).db, k), cfg, now)
  {
  }

  /** Every key's record moves by a permitted transition under the sweep, whatever the revocation outcomes. */
  lemma SweepMovesAreTransitions(cfg: Config, db: Db, now: int, fails: set<string>, k: string)
    ensures Transition(At(db, k), At(Sweep(db, now, fails), k), cfg, now)
  {
  }

  /** Both operations keep every record consistent: `expired_at` present exactly when expired. */
  lemma OperationsKeepWellFormed(cfg: Config, db: Db, form: Form, lookup: Lookup, minted: bool, now: int,
                                 fails: set<string>)
    requires AllWellFormed(db)
    ensures AllWellFormed(HandleWebhook(cfg, db, form, lookup, minted, now).db)
    ensures AllWellFormed(Sweep(db, now, fails))
  {
  }

  /**
   * A full cycle for one user: a payment at `paid` activates the record, a clean
   * sweep once the period is over expires it, and a later payment makes it active
   * again with a new period and no `expired_at`.
   */
  lemma PayExpireRenew(cfg: Config, db: Db, key: string, paid: int, swept: int, renewed: int)
    requires paid + cfg.subscriptionDays * SecondsPerDay <= swept
    ensures var a := Activate(db, key, cfg, paid);
            var e := Sweep(a, swept, {});
            var b := Activate(e, key, cfg, renewed);
            && e[key].status == Expired && e[key].expiredAt == Some(swept)
            && b[key].status == Active && b[key].expiredAt.None?
            && b[key].expiry == Whole(renewed + cfg.subscriptionDays * SecondsPerDay)
  {
  }

  /**
   * The data file keeps up with the in-memory store. If the file loads as the
   * store, it still does after the webhook (which saves only when it activated
   * someone) and after the sweep (which saves only when the store changed).
   */
  lemma FileMatchesMemory(cfg: Config, f: DataFile, db: Db, form: Form, lookup: Lookup, minted: bool,
                          now: int, fails: set<string>)
    requires Load(f) == db
    ensures var w := HandleWebhook(cfg, db, form, lookup, minted, now);
            Load(if w.saved then Save(w.db) else f) == w.db
    ensures var s := Sweep(db, now, fails);
            Load(if s != db then Save(s) else f) == s
  {
  }
}
