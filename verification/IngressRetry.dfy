/** The delivery attempt of a broker message and the retry cap. */
module IngressRetry {
  import opened Common

  /** A header value: absent, readable as an integer, or neither. */
  datatype Raw = Absent | Number(n: int) | Garbage

  /** `deaths` holds the `count` of every entry of `x-death`; it is empty when the header is no list. */
  datatype Meta = Meta(deliveryCount: Raw, deaths: seq<Raw>, redelivered: bool)

  function DeathTotal(deaths: seq<Raw>): int {
    if deaths == [] then 0
    else
      var last := deaths[|deaths| - 1];
      DeathTotal(deaths[..|deaths| - 1]) + if last.Number? then last.n else 0
  }

  function Counted(meta: Meta): Option<int> {
    if meta.deliveryCount.Number? then Some(meta.deliveryCount.n + 1)
    else if DeathTotal(meta.deaths) != 0 then Some(DeathTotal(meta.deaths))
    else None
  }

  method CountedDeliveryAttempt(meta: Meta) returns (attempt: Option<int>)
    ensures attempt == Counted(meta)
  {
    if meta.deliveryCount.Number? {
      return Some(meta.deliveryCount.n + 1);
    }
    var total := 0;
    for i := 0 to |meta.deaths|
      invariant total == DeathTotal(meta.deaths[..i])
    {
      assert meta.deaths[..i + 1][..i] == meta.deaths[..i];
      if meta.deaths[i].Number? {
        total := total + meta.deaths[i].n;
      }
    }
    assert meta.deaths[..|meta.deaths|] == meta.deaths;
    attempt := if total != 0 then Some(total) else None;
  }

  function DeliveryAttempt(meta: Meta): int {
    match Counted(meta)
    case Some(n) => n
    case None => if meta.redelivered then 2 else 1
  }

  predicate RequeueWithinCap(meta: Meta, maxRetries: int) {
    && DeliveryAttempt(meta) < maxRetries
    && (Counted(meta).Some? || !meta.redelivered)
  }

  // ---- a message that always fails --------------------------------------------

  /** The deliveries of one message: each but the last was requeued by the capped nack. */
  predicate Redelivered(metas: seq<Meta>, maxRetries: int) {
    metas != [] && forall i :: 0 <= i < |metas| - 1 ==> RequeueWithinCap(metas[i], maxRetries)
  }

  /** The broker counts earlier deliveries. */
  predicate CountingBroker(metas: seq<Meta>) {
    forall i :: 0 <= i < |metas| ==> metas[i].deliveryCount == Number(i)
  }

  /** The broker only says whether a delivery is a repeated one. */
  predicate ClassicBroker(metas: seq<Meta>) {
    forall i :: 0 <= i < |metas| ==> Counted(metas[i]).None? && (metas[i].redelivered <==> i > 0)
  }

  function Min(a: int, b: int): int {
    if a < b then a else b
  }

  /**
   A message that always fails is delivered at most `maxRetries` times by a counting broker and at
   most min(2, maxRetries) times by a classic one, and the last delivery is requeued
   exactly while that many is not reached.
   */
  lemma DeliveriesAreCapped(metas: seq<Meta>, maxRetries: int)
    requires maxRetries >= 1 && Redelivered(metas, maxRetries)
    ensures CountingBroker(metas) ==>
              && |metas| <= maxRetries
              && (RequeueWithinCap(metas[|metas| - 1], maxRetries) <==> |metas| < maxRetries)
    ensures ClassicBroker(metas) ==>
              && |metas| <= Min(2, maxRetries)
              && (RequeueWithinCap(metas[|metas| - 1], maxRetries) <==> |metas| < Min(2, maxRetries))
  {
    if |metas| >= 2 {
      assert RequeueWithinCap(metas[|metas| - 2], maxRetries);
    }
    if |metas| > 2 {
      assert RequeueWithinCap(metas[1], maxRetries);
    }
  }

  /** Whatever the headers are, a broker whose attempts grow ends after the cap minus the first attempt. */
  lemma {:induction false} GrowingAttemptsEnd(metas: seq<Meta>, maxRetries: int)
    requires Redelivered(metas, maxRetries)
    requires forall i :: 0 < i < |metas| ==> DeliveryAttempt(metas[i - 1]) < DeliveryAttempt(metas[i])
    ensures |metas| == 1 || |metas| <= maxRetries - DeliveryAttempt(metas[0]) + 1
    decreases |metas|
  {
    if |metas| > 1 {
      var rest := metas[1..];
      forall i | 0 < i < |rest| ensures DeliveryAttempt(rest[i - 1]) < DeliveryAttempt(rest[i]) {
        assert rest[i - 1] == metas[i] && rest[i] == metas[i + 1];
      }
      GrowingAttemptsEnd(rest, maxRetries);
      assert RequeueWithinCap(metas[0], maxRetries);
    }
  }

  // ---- what the headers count as ------------------------------------------------

  /** The deaths are summed: every readable count once, anything else not at all. */
  lemma {:induction false} DeathsAddUp(a: seq<Raw>, b: seq<Raw>)
    ensures DeathTotal(a + b) == DeathTotal(a) + DeathTotal(b)
    ensures forall n :: DeathTotal([Number(n)]) == n
    ensures DeathTotal([]) == 0 && DeathTotal([Absent]) == 0 && DeathTotal([Garbage]) == 0
    decreases |b|
  {
    if b == [] {
      assert a + b == a;
    } else {
      var init := b[..|b| - 1];
      assert (a + b)[..|a + b| - 1] == a + init;
      DeathsAddUp(a, init);
    }
  }

  /**
   The attempt, and when the capped nack requeues: below the cap, unless nothing was counted of a repeated
   delivery.
   */
  lemma AttemptIs(meta: Meta, maxRetries: int)
    ensures meta.deliveryCount.Number? ==> DeliveryAttempt(meta) == meta.deliveryCount.n + 1
    ensures !meta.deliveryCount.Number? && DeathTotal(meta.deaths) != 0 ==>
              DeliveryAttempt(meta) == DeathTotal(meta.deaths)
    ensures !meta.deliveryCount.Number? && DeathTotal(meta.deaths) == 0 ==>
              DeliveryAttempt(meta) == (if meta.redelivered then 2 else 1)
    ensures RequeueWithinCap(meta, maxRetries)
            <==> && DeliveryAttempt(meta) < maxRetries
                 && !(meta.redelivered && !meta.deliveryCount.Number? && DeathTotal(meta.deaths) == 0)
  {
  }
}
