/** The telemetry calls the sink client makes, as values. A run of the client
    yields the sequence of calls in the order it made them; what a mock
    verifier counts ("this call, n times") is the multiplicity of a value in
    that sequence. */
module Instrumentation {

  datatype Event =
      /** logWarn("Non-retriable error due to response status: {} is under
          blacklisted status code", code) */
    | WarnBlacklisted(code: int)
      /** logInfo("Message dropped because of status code: " + code) */
    | InfoDropped(code: int)
      /** incrementCounterWithTags("firehose_sink_messages_drop_total",
          "cause=" + message) */
    | DropCounter(cause: string)
      /** logWarn("Bulk request failed count: {}", count) */
    | WarnFailedCount(count: int)

  /** How many times exactly this call was made. */
  function Times(events: seq<Event>, e: Event): nat
  {
    multiset(events)[e]
  }

  /** How many drop-counter increments were made, whatever their tag. */
  function DropCounterTotal(events: seq<Event>): (n: nat)
    ensures n <= |events|
    ensures n == 0 <==> forall i :: 0 <= i < |events| ==> !events[i].DropCounter?
  {
    if events == [] then 0
    else DropCounterTotal(events[..|events| - 1]) + (if events[|events| - 1].DropCounter? then 1 else 0)
  }

  /** Counting increments distributes over the concatenation of two traces. */
  lemma {:induction false} DropCounterTotalAppend(a: seq<Event>, b: seq<Event>)
    ensures DropCounterTotal(a + b) == DropCounterTotal(a) + DropCounterTotal(b)
    decreases |b|
  {
    if b == [] {
      assert a + b == a;
    } else {
      var b' := b[..|b| - 1];
      assert (a + b)[..|a + b| - 1] == a + b';
      DropCounterTotalAppend(a, b');
    }
  }
}
