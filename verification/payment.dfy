/**
 * The payment side of the service: the `/pay` entry that turns a Telegram user
 * id into an Instamojo payment request, the verification of an incoming payment
 * webhook, and the lifetime requested for the single-use invite link.
 *
 * The gateway is not called here: its answers are inputs. `created` is the
 * outcome of creating a payment request, and a `Lookup` is the gateway's answer
 * to fetching the payment request a webhook names.
 */
module Payment {
  import opened Optional
  import opened Decimal

  // ---------------------------------------------------------------------------
  // `/pay`

  /** The replies of `/pay`: 400 "Invalid user", a 302 redirect to the gateway's payment page, or 500. */
  datatype PayReply = InvalidUser | Redirect(url: string) | CreateFailed

  /** The `tg` query parameter with surrounding whitespace removed; a missing parameter reads as "". */
  function TgText(tg: Option<string>): string {
    Trim(tg.GetOr(""))
  }

  /**
   * `/pay`: an id that is not all digits is refused before the gateway is asked;
   * otherwise the reply follows the gateway's outcome `created` (the payment page URL, or failure).
   */
  function Pay(tg: Option<string>, created: Option<string>): (r: PayReply)
    ensures r.InvalidUser? <==> !IsDigits(TgText(tg))
    ensures r.Redirect? <==> IsDigits(TgText(tg)) && created.Some?
    ensures r.Redirect? ==> r.url == created.value
    ensures r.CreateFailed? <==> IsDigits(TgText(tg)) && created.None?
  {
    if !IsDigits(TgText(tg)) then InvalidUser
    else match created
      case Some(url) => Redirect(url)
      case None => CreateFailed
  }

  /** The `telegram_user_id` text `/pay` attaches to the payment request: the decimal text of the parsed id. */
  function MetadataUserId(tg: Option<string>): (id: string)
    requires IsDigits(TgText(tg))
    ensures IsCanonical(id)
    ensures Parse(id) == Parse(TgText(tg))
  {
    ParseShow(Parse(TgText(tg)));
    Show(Parse(TgText(tg)))
  }

  // ---------------------------------------------------------------------------
  // Webhook verification

  /** Gateway statuses that mean the payment went through. */
  const AcceptedStatuses: set<string> := {"Completed", "Credit", "Success"}

  /** The webhook's form fields. */
  type Form = map<string, string>

  /** The result of decoding a metadata string as JSON: not JSON, an object, or some other JSON value. */
  datatype Decoded = NotJson | JsonObject(fields: map<string, string>) | JsonOther

  /**
   * The `metadata` of a payment request as the gateway returns it. `Absent` covers
   * a missing, null or otherwise empty value; `Object` and `JsonObject` hold each
   * field as the text `str()` gives of its value; `NonObject` is any other
   * non-empty value that is neither an object nor a string (a list, a number).
   */
  datatype Metadata = Absent | Object(fields: map<string, string>) | Text(decoded: Decoded) | NonObject

  /** A payment request as the gateway returns it; a missing status reads as "". */
  datatype PaymentRequest = PaymentRequest(status: string, metadata: Metadata)

  /**
   * The gateway's answer to a lookup: the call failed (or its reply could not be
   * read), it named no payment request (missing, null or empty), it returned one,
   * or its `payment_request` is a non-empty value that is not an object (a string, a list).
   */
  datatype Lookup = Unreachable | NoPaymentRequest | Found(request: PaymentRequest) | FoundNonObject

  /**
   * The webhook's reply. Every reply but `Crashed` is an HTTP 200 acknowledgement
   * ("missing request id", "verify failed", "ignored", "no user", "ok");
   * `Crashed` is an exception escaping the handler, which the web framework turns into a 500.
   */
  datatype Ack = MissingRequestId | VerifyFailed | Ignored | NoUser | Done | Crashed

  /** Whether the gateway receives a 2xx reply and so stops redelivering the webhook. */
  predicate Acknowledged(a: Ack) {
    !a.Crashed?
  }

  /** The outcome of verification: a rejection with the reply to send, or the paying user's id. */
  datatype Verdict = Rejected(ack: Ack) | Verified(userId: nat)

  /** The payment request id of a webhook: `payment_request_id`, else `payment_request`, else "" (an empty field counts as missing). */
  function RequestId(form: Form): (id: string)
    ensures id == "" <==>
      ("payment_request_id" !in form || form["payment_request_id"] == "")
      && ("payment_request" !in form || form["payment_request"] == "")
    ensures "payment_request_id" in form && form["payment_request_id"] != "" ==> id == form["payment_request_id"]
    ensures && ("payment_request_id" !in form || form["payment_request_id"] == "")
            && "payment_request" in form && form["payment_request"] != ""
            ==> id == form["payment_request"]
  {
    if "payment_request_id" in form && form["payment_request_id"] != "" then form["payment_request_id"]
    else if "payment_request" in form && form["payment_request"] != "" then form["payment_request"]
    else ""
  }

  /** The text of the `telegram_user_id` field of a metadata object, "" when it has none. */
  function UserIdOf(fields: map<string, string>): string {
    if "telegram_user_id" in fields then fields["telegram_user_id"] else ""
  }

  /**
   * The `telegram_user_id` text found in the metadata. Metadata that is not an
   * object, or a string that decodes to something other than an object, has no
   * such field and yields "".
   */
  function UserIdField(meta: Metadata): string {
    match meta
    case Object(fields) => UserIdOf(fields)
    case Text(JsonObject(fields)) => UserIdOf(fields)
    case _ => ""
  }

  /**
   * Verification of a payment webhook: the webhook names a payment request, the
   * gateway returns it with an accepted status, and its metadata carries an
   * all-digit user id. Every rejection is acknowledged.
   */
  function Verify(form: Form, lookup: Lookup): (v: Verdict)
    ensures v.Verified? <==>
      && RequestId(form) != ""
      && lookup.Found?
      && lookup.request.status in AcceptedStatuses
      && IsDigits(UserIdField(lookup.request.metadata))
    ensures v.Verified? ==> v.userId == Parse(UserIdField(lookup.request.metadata))
    ensures v.Rejected? ==> Acknowledged(v.ack)
    ensures RequestId(form) == "" ==> v == Rejected(MissingRequestId)
  {
    if RequestId(form) == "" then Rejected(MissingRequestId)
    else match lookup
      case Unreachable => Rejected(VerifyFailed)
      case NoPaymentRequest => Rejected(Ignored)
      case FoundNonObject => Rejected(Ignored)
      case Found(pr) =>
        if pr.status !in AcceptedStatuses then Rejected(Ignored)
        else
          var id := UserIdField(pr.metadata);
          if !IsDigits(id) then Rejected(NoUser) else Verified(Parse(id))
  }

  /**
   * The metadata step as the handler performs it: `None` where reading the field
   * raises because the metadata, or the JSON its string decodes to, is not an object.
   */
  function UserIdFieldAsWritten(meta: Metadata): (id: Option<string>)
    ensures id.None? <==> meta.NonObject? || meta == Text(JsonOther)
    ensures id.Some? ==> id.value == UserIdField(meta)
  {
    match meta
    case Absent => Some("")
    case Object(fields) => Some(UserIdOf(fields))
    case Text(NotJson) => Some("")
    case Text(JsonObject(fields)) => Some(UserIdOf(fields))
    case Text(JsonOther) => None
    case NonObject => None
  }

  /**
   * Verification exactly as the handler performs it. It agrees with `Verify`
   * except where reading a field of something that is not an object raises: a
   * `payment_request` that is not an object, or the metadata of an accepted
   * payment. There the escaping exception leaves the webhook unacknowledged.
   * Only ASCII digits are modelled, so a non-ASCII digit id that `int()` rejects
   * is read here as "no user".
   */
  function VerifyAsWritten(form: Form, lookup: Lookup): (v: Verdict)
    ensures v == Rejected(Crashed) <==>
      && RequestId(form) != ""
      && (|| lookup.FoundNonObject?
          || (&& lookup.Found?
              && lookup.request.status in AcceptedStatuses
              && UserIdFieldAsWritten(lookup.request.metadata).None?))
    ensures v != Rejected(Crashed) ==> v == Verify(form, lookup)
  {
    if RequestId(form) == "" then Rejected(MissingRequestId)
    else match lookup
      case Unreachable => Rejected(VerifyFailed)
      case NoPaymentRequest => Rejected(Ignored)
      case FoundNonObject => Rejected(Crashed)
      case Found(pr) =>
        if pr.status !in AcceptedStatuses then Rejected(Ignored)
        else match UserIdFieldAsWritten(pr.metadata)
          case None => Rejected(Crashed)
          case Some(id) => if !IsDigits(id) then Rejected(NoUser) else Verified(Parse(id))
  }

  /** A completed payment whose metadata decodes to a JSON list is not acknowledged by the handler as written. */
  lemma MetadataNotObjectCrashes()
    ensures var form := map["payment_request_id" := "MOJO5a06005J21512197"];
            var lookup := Found(PaymentRequest("Completed", Text(JsonOther)));
            && VerifyAsWritten(form, lookup) == Rejected(Crashed)
            && !Acknowledged(VerifyAsWritten(form, lookup).ack)
            && Verify(form, lookup) == Rejected(NoUser)
  {
  }

  /** A gateway reply whose `payment_request` is a string is not acknowledged by the handler as written. */
  lemma PaymentRequestNotObjectCrashes()
    ensures var form := map["payment_request" := "MOJO5a06005J21512197"];
            && VerifyAsWritten(form, FoundNonObject) == Rejected(Crashed)
            && !Acknowledged(VerifyAsWritten(form, FoundNonObject).ack)
            && Verify(form, FoundNonObject) == Rejected(Ignored)
  {
  }

  /**
   * End to end: the user id `/pay` attaches to the payment request, echoed back by
   * the gateway either as an object or as JSON text, verifies as the id `/pay` was given.
   */
  lemma PayThenVerify(tg: Option<string>, form: Form, status: string, echoAsText: bool)
    requires IsDigits(TgText(tg))
    requires RequestId(form) != ""
    requires status in AcceptedStatuses
    ensures var fields := map["telegram_user_id" := MetadataUserId(tg)];
            var meta := if echoAsText then Text(JsonObject(fields)) else Object(fields);
            Verify(form, Found(PaymentRequest(status, meta))) == Verified(Parse(TgText(tg)))
  {
  }

  // ---------------------------------------------------------------------------
  // Invite link lifetime

  /** Invite links never last less than this many seconds. */
  const MinInviteTtl: int := 60

  /** The expiry instant requested for an invite link minted at `now` with lifetime `ttl`. */
  function InviteExpiry(now: int, ttl: int): (e: int)
    ensures e >= now + MinInviteTtl
    ensures ttl >= MinInviteTtl ==> e == now + ttl
    ensures ttl < MinInviteTtl ==> e == now + MinInviteTtl
  {
    now + if ttl < MinInviteTtl then MinInviteTtl else ttl
  }
}
