/**
 * The subscriber store: one record per subscriber key (the decimal text of the
 * Telegram user id), held as a map and written whole to a single data file.
 */
module Store {
  import opened Optional

  /** The two states of a subscription. */
  datatype Status = Active | Expired

  /**
   * The stored `expiry_ts` field as the sweep reads it: absent (read as 0), a
   * whole number of epoch seconds, or a value the integer conversion rejects.
   */
  datatype ExpiryField = Absent | Whole(secs: int) | Unreadable

  /**
   * One subscriber's record. Timestamps are epoch seconds; the data file holds
   * `last_payment` and `expired_at` as ISO strings of the same instants.
   */
  datatype Record = Record(
    expiry: ExpiryField,
    status: Status,
    lastPayment: Option<int>,
    expiredAt: Option<int>)

  type Db = map<string, Record>

  /** A record is consistent when it carries an expiry instant and `expired_at` is present exactly when it is expired. */
  predicate WellFormed(rec: Record) {
    rec.expiry.Whole? && (rec.expiredAt.Some? <==> rec.status == Expired)
  }

  predicate AllWellFormed(db: Db) {
    forall k :: k in db ==> WellFormed(db[k])
  }

  /** The data file: not yet created, present but unreadable as a subscriber map, or holding a saved map. */
  datatype DataFile = NoFile | Corrupt | Saved(db: Db)

  /** Reading the store: a missing or unreadable file reads as the empty map. */
  function Load(f: DataFile): Db {
    match f
    case Saved(m) => m
    case _ => map[]
  }

  /** Writing the store replaces the whole file with the whole map; loading it afterwards gives that map back. */
  function Save(db: Db): (f: DataFile)
    ensures Load(f) == db
  {
    Saved(db)
  }
}
