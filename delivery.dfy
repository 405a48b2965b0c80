/**
 * Outbound delivery in main.py: send_telegram_message's bounded retry loop and
 * send_reminder's render-then-send. Each send attempt's outcome is an input;
 * the 2-second pauses are counted, not taken.
 */
module Delivery {
  import opened Wrappers

  /** The default `max_retries` of send_telegram_message. */
  const MaxRetries: nat := 3

  /** Some attempt among the first `n` succeeds. */
  predicate AnySuccess(outcomes: seq<bool>, n: nat)
    requires n <= |outcomes|
  {
    exists k :: 0 <= k < n && outcomes[k]
  }

  /**
   * send_telegram_message(message, maxRetries): attempt k succeeds iff
   * `outcomes[k]`. Stops at the first success; pauses only between attempts.
   * With maxRetries == 0 the source returns None, which every caller reads as false.
   */
  method SendWithRetry(outcomes: seq<bool>, maxRetries: nat) returns (ok: bool, attempts: nat, waits: nat)
    requires maxRetries <= |outcomes|
    ensures attempts <= maxRetries
    ensures ok <==> AnySuccess(outcomes, maxRetries)
    ensures ok ==> attempts >= 1 && outcomes[attempts - 1]
    ensures !ok ==> attempts == maxRetries
    ensures forall k :: 0 <= k < attempts - 1 ==> !outcomes[k]
    ensures waits == if attempts == 0 then 0 else attempts - 1
  {
    ok, attempts, waits := false, 0, 0;
    var attempt := 0;
    while attempt < maxRetries
      invariant 0 <= attempt <= maxRetries
      invariant maxRetries > 0 ==> attempt < maxRetries
      invariant attempts == attempt && waits == attempt && !ok
      invariant forall k :: 0 <= k < attempt ==> !outcomes[k]
    {
      attempts := attempts + 1;
      if outcomes[attempt] {
        ok := true;
        return;
      }
      if attempt < maxRetries - 1 {
        waits := waits + 1;
      } else {
        return;
      }
      attempt := attempt + 1;
    }
  }

  /** The outcome trigger_reminder records: a rendering was produced and one of its sends went through. */
  predicate Delivered(rendered: Option<string>, outcomes: seq<bool>)
    requires MaxRetries <= |outcomes|
  {
    rendered.Some? && AnySuccess(outcomes, MaxRetries)
  }

  /**
   * send_reminder: `rendered` is the render step's result (None when it raised).
   * A failed render returns false without a single send attempt.
   */
  method SendReminder(rendered: Option<string>, outcomes: seq<bool>) returns (ok: bool, attempts: nat, waits: nat)
    requires MaxRetries <= |outcomes|
    ensures ok == Delivered(rendered, outcomes)
    ensures rendered.None? ==> attempts == 0 && waits == 0
    ensures rendered.Some? ==> 1 <= attempts <= MaxRetries && waits == attempts - 1
    ensures rendered.Some? && !ok ==> attempts == MaxRetries
    ensures forall k :: 0 <= k < attempts - 1 ==> !outcomes[k]
    ensures ok ==> outcomes[attempts - 1]
  {
    if rendered.None? {
      return false, 0, 0;
    }
    ok, attempts, waits := SendWithRetry(outcomes, MaxRetries);
  }
}
