/**
 * The expiry sweep: every active record whose expiry has passed has the user
 * removed from the channel and is marked expired; the store is saved once at the
 * end, and only if some record changed.
 *
 * The chat platform is not called here. `fails` is the set of keys whose removal
 * (the ban followed by the unban) raises, including keys that are not a
 * number; every other removal succeeds.
 */
module Expiry {
  import opened Optional
  import opened Store

  /** The expiry instant the sweep compares with `now`, or `None` where reading it raises. */
  function ExpiryInstant(e: ExpiryField): Option<int> {
    match e
    case Absent => Some(0)
    case Whole(secs) => Some(secs)
    case Unreadable => None
  }

  /** Whether the sweep at `now` tries to revoke this record: it is active and its expiry (0 if absent) is not after `now`. */
  predicate Due(rec: Record, now: int) {
    rec.status == Active && ExpiryInstant(rec.expiry).Some? && ExpiryInstant(rec.expiry).value <= now
  }

  /** A record after a successful revocation at `now`: expired at `now`, every other field kept. */
  function Expire(rec: Record, now: int): (r: Record)
    ensures r.status == Expired && r.expiredAt == Some(now)
    ensures r.expiry == rec.expiry && r.lastPayment == rec.lastPayment
    ensures rec.status == Active ==> r != rec
  {
    rec.(status := Expired, expiredAt := Some(now))
  }

  /** One record's fate in a sweep at `now`, given whether revoking it would succeed. */
  function SweepRecord(rec: Record, now: int, revoked: bool): Record {
    if Due(rec, now) && revoked then Expire(rec, now) else rec
  }

  /**
   * The store after a sweep at `now`: each due record whose revocation succeeds
   * is expired at `now`; due records whose revocation fails, records not yet due,
   * and records already expired are kept as they were; no record is added or removed.
   */
  function Sweep(db: Db, now: int, fails: set<string>): (r: Db)
    ensures r.Keys == db.Keys
    ensures forall k :: k in db && Due(db[k], now) && k !in fails ==>
      r[k].status == Expired && r[k].expiredAt == Some(now)
      && r[k].expiry == db[k].expiry && r[k].lastPayment == db[k].lastPayment
    ensures forall k :: k in db && !(Due(db[k], now) && k !in fails) ==> r[k] == db[k]
  {
    map k | k in db :: SweepRecord(db[k], now, k !in fails)
  }

  /** The keys the sweep at `now` tries to revoke. */
  function DueKeys(db: Db, now: int): set<string> {
    set k | k in db && Due(db[k], now)
  }

  /**
   * The sweep as the job performs it: an empty store is left alone with no
   * revocation attempted; otherwise every record is visited once, in no particular
   * order, and a failed revocation only skips that record. Returns the store, whether
   * it was saved (once, at the end), the keys a revocation was attempted for, and
   * the keys that were revoked and so get the renewal message.
   */
  method ExpiryJob(db: Db, now: int, fails: set<string>)
    returns (out: Db, saved: bool, attempted: set<string>, revoked: set<string>)
    ensures out == Sweep(db, now, fails)
    ensures attempted == DueKeys(db, now)
    ensures revoked == attempted - fails
    ensures saved <==> revoked != {}
    ensures saved <==> out != db
    ensures |db| == 0 ==> attempted == {} && !saved
  {
    out, saved, attempted, revoked := db, false, {}, {};
    if |db| == 0 {
      return;
    }
    var changed := false;
    var pending := db.Keys;
    while pending != {}
      invariant pending <= db.Keys
      invariant out.Keys == db.Keys
      invariant forall k :: k in pending ==> out[k] == db[k]
      invariant forall k :: k in db && k !in pending ==> out[k] == SweepRecord(db[k], now, k !in fails)
      invariant attempted == DueKeys(db, now) - pending
      invariant revoked == attempted - fails
      invariant changed <==> revoked != {}
      decreases pending
    {
      var k :| k in pending;
      if Due(out[k], now) {
        attempted := attempted + {k};
        if k !in fails {
          out := out[k := Expire(out[k], now)];
          revoked := revoked + {k};
          changed := true;
        }
      }
      pending := pending - {k};
    }
    saved := changed;
    if saved {
      var k :| k in revoked;
      assert out[k] != db[k];
    }
  }

  /** The boundary of "due": at `now`, expiry `now - 1` and `now` are due, expiry `now + 1` is not. */
  lemma DueThreshold(rec: Record, now: int)
    requires rec.status == Active
    ensures Due(rec.(expiry := Whole(now - 1)), now)
    ensures Due(rec.(expiry := Whole(now)), now)
    ensures !Due(rec.(expiry := Whole(now + 1)), now)
    ensures Due(rec.(expiry := Absent), now) <==> now >= 0
  {
  }

  /** A sweep after a sweep at the same instant revokes exactly the records both attempts would have had to fail on to keep. */
  lemma SweepTwice(db: Db, now: int, first: set<string>, second: set<string>)
    ensures Sweep(Sweep(db, now, first), now, second) == Sweep(db, now, first * second)
  {
  }

  /** With every revocation succeeding, a second sweep at the same instant changes nothing. */
  lemma SweepIdempotent(db: Db, now: int)
    ensures Sweep(Sweep(db, now, {}), now, {}) == Sweep(db, now, {})
  {
  }

  /** After a sweep at `now` in which every revocation succeeded nothing is due at `now`, so running the job again attempts no revocation and does not save. */
  lemma NothingDueAfterCleanSweep(db: Db, now: int)
    ensures DueKeys(Sweep(db, now, {}), now) == {}
  {
  }

  /** The sweep keeps records consistent: a record it expires gains its `expired_at`. */
  lemma SweepKeepsWellFormed(db: Db, now: int, fails: set<string>)
    requires AllWellFormed(db)
    ensures AllWellFormed(Sweep(db, now, fails))
  {
  }

  /**
   * Partial failure: for two due records where revoking one fails, the sweep
   * expires the other and keeps the failing one exactly as it was.
   */
  lemma PartialFailure(db: Db, now: int, ok: string, bad: string)
    requires ok in db && bad in db && ok != bad
    requires Due(db[ok], now) && Due(db[bad], now)
    ensures var r := Sweep(db, now, {bad});
            r[ok] == Expire(db[ok], now) && r[bad] == db[bad] && r[bad].status == Active
  {
  }
}
