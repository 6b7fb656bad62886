# Subscription lifecycle of the paid Telegram channel bot

This project models the part of the bot in `app.py` that sells time-boxed access to a private Telegram channel through Instamojo payments. It covers three parts:

- **Activation.** A payment webhook is verified: it must name a request id, the gateway must report an accepted status, and the metadata must carry an all-digit `telegram_user_id`. The bot then mints a single-use invite link. Only when minting succeeds does it overwrite the payer's record with a fresh active period and save the whole subscriber map.
- **Expiry sweep.** `expiry_job` finds every active record whose `expiry_ts` has passed and removes the user from the channel. It marks the record expired if the removal succeeded and skips it if it failed. It saves the map once, at the end, and only if something changed.
- **Small rules.** The digit-only user-id check of `/pay`, and the 60-second floor on the invite link lifetime.

The outside world becomes ordinary inputs:

- the gateway's answer to a lookup (`Payment.Lookup`);
- whether the chat platform minted the invite (`minted`);
- the set of keys whose removal fails (`fails`);
- the current time as integer epoch seconds (`now`).

The store is an immutable `map<string, Record>` keyed by the decimal text of the user id. Activation (`Activation.HandleWebhook`) and the sweep (`Expiry.Sweep`, and the looping `Expiry.ExpiryJob`) are pure over that map.

Modules:

- `Optional`: an option type.
- `Decimal`: the digit test, digit-string-to-number, number-to-text and whitespace trimming.
- `Store`: records, the map, load/save.
- `Payment`: `/pay`, webhook verification, invite lifetime.
- `Activation`: the webhook's effect on the store.
- `Expiry`: the sweep.
- `Lifecycle`: the per-record state machine across both entry points.

Two details of the stored records:

- A record with no `expiry_ts` reads as expiring at 0 (app.py:215), so the sweep treats it as due.
- The payment time is stored under `last_payment` (app.py:158).

Key normalisation: a metadata id such as `"007"` is converted to a number and back to text before it is used as a key. It is therefore stored under `"7"`. `Decimal.ShowParse` and `Activation.KeyInjective` pin this down.

## Model

| member | source | states |
|---|---|---|
| Decimal.Show | app.py:151-156 | the text of a user id is a canonical digit string: digits only, and no leading zero unless it is "0" |
| Decimal.ParseShow | app.py:151-156 | converting a user id to its key text and back gives the same id |
| Decimal.ParsePositive | app.py:151 | a digit string that does not start with '0' denotes a positive number |
| Decimal.ShowParse | app.py:148-156 | for a canonical digit string, converting to a number and back gives the same string, so ids differing only in leading zeros share one key |
| Decimal.ShowInjective | app.py:156 | two ids have the same key text exactly when they are the same id |
| Decimal.TrimStart | app.py:117 | the result is a suffix of the input, does not start with whitespace, and only whitespace was removed |
| Decimal.TrimEnd | app.py:117 | the result is a prefix of the input, does not end with whitespace, and only whitespace was removed |
| Decimal.Trim | app.py:117 | the result is a stretch of the input with only whitespace before and after it, and it neither starts nor ends with whitespace; input without outer whitespace is returned unchanged; all-whitespace input becomes empty |
| Decimal.TrimmedAtMiddle | app.py:117 | removing leading whitespace and then trailing whitespace leaves a middle stretch of the input with only whitespace on either side |
| Payment.Pay | app.py:115-124 | "Invalid user" exactly when the trimmed `tg` is not all digits (a missing `tg` counts as ""); otherwise a redirect to the gateway's page when it created the request, and a failure reply when it did not |
| Payment.MetadataUserId | app.py:121 | the id `/pay` attaches to the payment request is the canonical text of the number the user gave |
| Payment.RequestId | app.py:130-132 | the request id is `payment_request_id`, else `payment_request`, with an empty value treated as missing; it is empty exactly when both are missing or empty |
| Payment.Verify | app.py:130-151 | a webhook verifies exactly when it has a request id, the gateway returned the request, its status is Completed, Credit or Success, and its metadata id is all digits; the verified id is that number; every rejection is acknowledged |
| Payment.UserIdFieldAsWritten | app.py:144-148 | reading the metadata field raises exactly when the metadata, or the JSON its string decodes to, is not an object; otherwise it agrees with the corrected reading |
| Payment.VerifyAsWritten | app.py:130-151 | the handler's own verification escapes with an exception (no acknowledgement) exactly when a request id is present and either the gateway's `payment_request` is not an object or an accepted payment's metadata reading raises; in all other cases it agrees with `Payment.Verify`; all of this within the ASCII digit model (see Left out) |
| Payment.MetadataNotObjectCrashes | app.py:144-148 | a Completed payment whose metadata decodes to a JSON list is not acknowledged by the handler as written; the corrected verification answers "no user" |
| Payment.PaymentRequestNotObjectCrashes | app.py:139 | a gateway reply whose `payment_request` is a string is not acknowledged by the handler as written; the corrected verification answers "ignored" |
| Payment.PayThenVerify | app.py:144-151 | the id that `/pay` places in the metadata (line 94) comes back through the webhook as the same user id, whether the gateway echoes it as an object or as JSON text |
| Payment.InviteExpiry | app.py:190 | an invite link's expiry is at least 60 seconds after minting, and is exactly `ttl` after minting whenever `ttl` is at least 60 |
| Store.Save | app.py:48-52 | saving writes the whole map, and loading afterwards returns exactly that map |
| Activation.Key | app.py:151-156 | a user's key is canonical digit text that converts back to the user id |
| Activation.KeyInjective | app.py:156 | two users share a key exactly when they are the same user |
| Activation.ActiveRecord | app.py:155-160 | a payment at `now` yields an active record with no `expired_at`, expiring `SUBSCRIPTION_DAYS * 86400` seconds after `now`, with payment time `now` |
| Activation.Activate | app.py:156-160 | the payer's key maps to the fresh active record, every other record is untouched, no record is removed, and record consistency is kept |
| Activation.Respond | app.py:153-172 | after a rejection the store is untouched and no invite is requested; after a verified payment the reply is "ok", an invite expiring `max(60, INVITE_LINK_TTL_SECONDS)` seconds after `now` (line 190) is requested (so never less than 60 s out), and the store is saved, as the activated store, exactly when the invite was minted; the welcome goes to the payer exactly when the store was saved |
| Activation.HandleWebhook | app.py:126-172 | the corrected handler (see Findings): the webhook is always acknowledged, with "ok" when verification passes; an invite expiring `max(60, INVITE_LINK_TTL_SECONDS)` seconds after `now` (line 190) is requested exactly when verification passes; the store is saved exactly when verification passes and the invite is minted, and then it is the activated store; otherwise it is unchanged; the welcome goes to the payer exactly when the store was saved |
| Activation.HandleWebhookAsWritten | app.py:126-172 | the handler as written: it is unacknowledged exactly when its verification crashes, and then the store is untouched and nothing is saved; in every other case it behaves as `Activation.HandleWebhook` |
| Activation.RejectedWebhookChangesNothing | app.py:130-150 | a webhook with no request id, no returned request, an unaccepted status, or a non-digit metadata id leaves the store unchanged and requests no invite, under both handlers; the corrected handler acknowledges it, and the handler as written acknowledges it unless a field read on a non-object raised |
| Activation.MintFailureChangesNothing | app.py:153-170 | when the invite cannot be minted the store is unchanged, nothing is saved, no welcome is sent, and the reply is still an acknowledgement |
| Activation.ActivationTouchesOnlyPayer | app.py:156 | a successful activation leaves every other user's record exactly as it was |
| Activation.RenewalOverwrites | app.py:156-160 | activating a key twice equals activating it only the second time: renewal replaces the period instead of adding to it |
| Activation.RepeatedPaymentRenews | app.py:153-161 | two verified, minted payments by one user leave one record for that user with the second payment's expiry, and no other record changed |
| Activation.DefaultSettings | app.py:22-23 | with the default settings (30 days, 600 s), a verified and minted payment requests an invite expiring 600 s after `now` and activates the payer until 2,592,000 s after `now` |
| Expiry.Expire | app.py:219-220 | a revoked record becomes expired with `expired_at = now` and keeps its expiry and payment time |
| Expiry.Sweep | app.py:213-230 | no key is added or removed; each due record whose revocation succeeds is expired at `now` with its other fields kept; every other record (due but failing, not yet due, already expired) is unchanged |
| Expiry.ExpiryJob | app.py:205-232 | the loop computes `Expiry.Sweep`; revocation is attempted for exactly the due keys, and a failure on one key does not stop the rest; the revoked keys are the attempted keys that did not fail; the store is saved (once) exactly when some key was revoked, which is exactly when the store changed; an empty store gets no attempt and no save |
| Expiry.DueThreshold | app.py:215 | an active record expiring at `now - 1` or `now` is due at `now`, one expiring at `now + 1` is not, and one without an expiry is due whenever `now >= 0` |
| Expiry.SweepTwice | app.py:213-220 | two sweeps at the same instant equal one sweep whose failures are the keys that failed both times |
| Expiry.SweepIdempotent | app.py:205-232 | with all revocations succeeding, a second sweep at the same instant changes nothing |
| Expiry.NothingDueAfterCleanSweep | app.py:215-220 | after a sweep in which every revocation succeeded, nothing is due at the same instant, so a rerun attempts nothing and saves nothing |
| Expiry.SweepKeepsWellFormed | app.py:219-220 | the sweep keeps `expired_at` present exactly on expired records |
| Expiry.PartialFailure | app.py:213-230 | of two due records, the one whose revocation succeeds is expired and the one whose revocation fails stays active and unchanged |
| Lifecycle.WebhookMovesAreTransitions | app.py:153-161 | under the webhook every key either keeps its record or gets a fresh active record for `now` |
| Lifecycle.SweepMovesAreTransitions | app.py:213-230 | under the sweep every key either keeps its record or goes from active to expired at `now`; nothing is deleted |
| Lifecycle.OperationsKeepWellFormed | app.py:219-220 | both the webhook and the sweep keep `expired_at` present exactly on expired records |
| Lifecycle.FileMatchesMemory | app.py:39-54 | if the data file loads as the in-memory store, it still does after the webhook (saving at line 161 only when it activated someone) and after the sweep (saving at line 232 only when the store changed) |
| Lifecycle.PayExpireRenew | app.py:213-220 | a payment, a clean sweep once the period is over, then a new payment: the record goes active, then expired at the sweep time, then active with a new period and no `expired_at` |

## Left out

- HTTP plumbing is not modelled: Flask routing, status codes and reply bodies beyond "acknowledged or not". The `/`, `/payment-return` and `/run-expiry` routes are left out, including the `X-CRON-SECRET` check.
- The Telegram and Instamojo calls are inputs, not code. Invite creation is `minted`. The ban/unban pair is membership in `fails`; an unban that fails after a successful ban also counts as a failure. The gateway's payment request creation is `created`, and its lookup is a `Lookup`. The request headers (`im_headers`) and payload encoding are not modelled.
- Direct messages are not modelled. Only their recipients are: `welcome` for activation, and the revoked keys for the sweep. Their texts, Markdown and the pay keyboard are presentation, and `send_dm_blocking` swallows every delivery failure.
- Threads, the daemon DM thread, `BackgroundScheduler` and `run_flask`/`run_bot` are left out, since they deal with concurrency and scheduling. Each operation is modelled as one atomic step, and the source does not enforce this: it takes no lock. The sweep checks each record as it stood in the snapshot taken at app.py:213, but writes to the live map at app.py:219-220. A webhook on a Flask request thread that renews a user (app.py:156) at any point after that snapshot, while the user was due in it, therefore has the fresh record expired by that sweep. The model does not cover such interleavings.
- JSON file I/O and the temporary-file-then-`os.replace` write are reduced to `Store.Load`/`Store.Save` on a whole map. Crash consistency needs a file system model. A failing `save_db` is also left out; in the webhook it would leave the in-memory map updated but unsaved, with the exception swallowed. A data file that parses to JSON other than a map is left out too.
- Clocks: each operation reads one `now`, while the source reads the clock separately for the expiry, `last_payment`, the invite expiry and `expired_at`. ISO timestamps are integer epoch seconds.
- Decimal.IsDigits: only ASCII '0'..'9' count as digits. Python's `str.isdigit` also accepts other Unicode digits, and it accepts superscripts, which `int()` then rejects with an exception.
- Decimal.Trim: only ASCII whitespace is removed. Python's `str.strip` also removes Unicode spaces.
- Payment.VerifyAsWritten: its crash cases are exact only within the ASCII digit model. A metadata id such as "²" passes `str.isdigit` at app.py:149, and `int()` at app.py:151 then raises outside any `try`, so that webhook is also answered with a 500. The model reads such an id as not all digits and answers "no user".
- The chat-platform calls are modelled as completing before the next line runs, returning a result or raising. If the installed `python-telegram-bot` is version 20 or later (the `Application.builder()` import suggests so), those `Bot` methods are coroutines that app.py:191-192, 217-218 and 199 never await. Then `res.invite_link` raises and every activation takes the `minted = false` path (`Activation.MintFailureChangesNothing`). The ban and unban never run, yet the record is still marked expired, as with `fails = {}`, and no message is delivered. The library version is not part of this model, so no finding is claimed.
- Expiry.ExpiryInstant: a float `expiry_ts` (truncated by `int()`) and a numeric string are not distinguished from a whole value. A record that is not a JSON object, and a status other than "active"/"expired", are not modelled; the sweep would skip both.
- Expiry.ExpiryJob: visits keys in no fixed order, where the source uses the map's insertion order. Each record's outcome is independent of the order.
- Activation.HandleWebhook: models the corrected handler, which acknowledges every webhook. The handler as written, which answers 500 on a non-object `payment_request` or metadata, is `Activation.HandleWebhookAsWritten`.
- Repeated deliveries of one webhook are not deduplicated by the source: each accepted delivery mints a new invite and restarts the period from its own `now`. The model reproduces this and claims no exactly-once issuance.

## Findings

| source | as written | input that shows it | evidently intended | confidence | as-written member | corrected member |
|---|---|---|---|---|---|---|
| app.py:144-148 | `meta.get(...)` is called on metadata that may not be an object. It runs outside any `try`, so the exception escapes the handler and the gateway receives a 500 instead of an acknowledgement | a webhook naming a payment request whose status is "Completed" and whose `metadata` is the string `"[1]"` (or a JSON list) | metadata without a usable `telegram_user_id` is answered "no user" with a 200, like every other inconclusive verification | not executed; low: the gateway normally echoes the object sent at line 94 | Payment.VerifyAsWritten | Payment.Verify, Activation.HandleWebhook |
| app.py:139 | `(pr or {}).get("status", "")` is called on whatever the gateway returned as `payment_request`. This runs outside the `try` of lines 134-137, so a non-empty `payment_request` that is not an object makes the exception escape, and the gateway receives a 500 | a webhook naming a request id for which the gateway's reply has `"payment_request": "x"` | a reply without a usable payment request is answered "ignored" with a 200 | not executed; low: the gateway normally returns an object | Payment.VerifyAsWritten | Payment.Verify, Activation.HandleWebhook |
