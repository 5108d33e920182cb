/** The event filter handed to the error-tracking SDK as `before_send` (sentry_integration.py):
    the values of secret-looking `extra` keys are masked, and access-log events about the health
    endpoint are dropped. */
module Sentry {
  import opened Common
  import opened Text

  const REDACTED := "[REDACTED]"
  const ACCESS_LOGGER := "aiohttp.access"
  const HEALTH_PATH := "/health"

  /** The keys of an event the filter looks at; the other keys pass through untouched. A key
      that is absent is `None` here, a key present with the value `None` is `Some(NoneValue)`. */
  datatype Event = Event(
    extra: Option<map<string, PyValue>>, logger: Option<PyValue>, message: Option<PyValue>)

  /** `'api_key' in key.lower() or 'token' in key.lower()` */
  predicate Sensitive(key: string) {
    Contains(Lower(key), "api_key") || Contains(Lower(key), "token")
  }

  /** `str(v)` for the values the model keeps. */
  function PyStr(v: PyValue): string {
    match v
    case NoneValue => "None"
    case BoolValue(b) => if b then "True" else "False"
    case IntValue(n) => IntToString(n)
    case StrValue(s) => s
  }

  /** The `extra` dictionary once every sensitive key is masked. */
  function Redacted(extra: map<string, PyValue>): (r: map<string, PyValue>)
    ensures r.Keys == extra.Keys
    ensures forall k :: k in r ==> r[k] == if Sensitive(k) then StrValue(REDACTED) else extra[k]
  {
    map k | k in extra :: if Sensitive(k) then StrValue(REDACTED) else extra[k]
  }

  /** The event is an access-log line about the health endpoint. */
  predicate IsHealthNoise(e: Event) {
    e.logger == Some(StrValue(ACCESS_LOGGER)) && Contains(PyStr(e.message.GetOr(StrValue(""))), HEALTH_PATH)
  }

  /** `before_send_filter` as a function of the event: `None` drops it. */
  function Filtered(e: Event): (r: Option<Event>)
    ensures r.None? <==> IsHealthNoise(e)
    ensures r.Some? ==> r.value.logger == e.logger && r.value.message == e.message
    ensures r.Some? ==> (r.value.extra.Some? <==> e.extra.Some?)
    ensures r.Some? && e.extra.Some? ==>
              var before, after := e.extra.value, r.value.extra.value;
              && after.Keys == before.Keys
              && (forall k :: k in after && Sensitive(k) ==> after[k] == StrValue(REDACTED))
              && (forall k :: k in after && !Sensitive(k) ==> after[k] == before[k])
  {
    var e' := if e.extra.Some? then e.(extra := Some(Redacted(e.extra.value))) else e;
    if IsHealthNoise(e') then None else Some(e')
  }

  /** Masking twice masks nothing more. */
  lemma RedactedIdempotent(extra: map<string, PyValue>)
    ensures Redacted(Redacted(extra)) == Redacted(extra)
  {
    var once := Redacted(extra);
    var twice := Redacted(once);
    assert twice.Keys == once.Keys;
    forall k | k in twice ensures twice[k] == once[k] {
    }
  }

  /** An event the filter lets through comes out of a second pass unchanged. */
  lemma FilterIdempotent(e: Event)
    requires Filtered(e).Some?
    ensures Filtered(Filtered(e).value) == Filtered(e)
  {
    if e.extra.Some? {
      RedactedIdempotent(e.extra.value);
    }
  }

  /** The filter as the source runs it: every key of `extra` is visited once, and a sensitive
      one is overwritten in place; then the drop rule is applied to the masked event. */
  method BeforeSendFilter(event: Event) returns (r: Option<Event>)
    ensures r == Filtered(event)
  {
    var e := event;
    if e.extra.Some? {
      var original := e.extra.value;
      var extra := original;
      var pending := extra.Keys;
      while pending != {}
        invariant pending <= original.Keys && extra.Keys == original.Keys
        invariant forall k :: k in extra && k in pending ==> extra[k] == original[k]
        invariant forall k :: k in extra && k !in pending ==> extra[k] == Redacted(original)[k]
        decreases pending
      {
        var key :| key in pending;
        if Sensitive(key) {
          extra := extra[key := StrValue(REDACTED)];
        }
        pending := pending - {key};
      }
      assert extra == Redacted(original);
      e := e.(extra := Some(extra));
    }
    if e.logger.Some? && e.logger.value == StrValue(ACCESS_LOGGER) {
      if Contains(PyStr(e.message.GetOr(StrValue(""))), HEALTH_PATH) {
        return None;
      }
    }
    return Some(e);
  }
}
