/** The outbox lease protocol: a consumer claims eligible events oldest first, then
    acknowledges or fails each one. */
module NotificationRoutes {
  import opened Wrappers
  import opened Clock
  import opened Seqs
  import opened Sorting
  import opened Models
  import opened Notifications

  /** An event is given up after this many failed deliveries. */
  const MaxAttempts := 5

  // ---------- Eligibility and claim order ----------

  /** The filter of the claim query, with SQL's treatment of a null attempt count
      (the comparison is unknown, so the row is not selected). */
  predicate Eligible(e: NotificationEvent, now: Timestamp, lockSeconds: int) {
    && e.sentAt.None?
    && e.attemptCount.Some? && e.attemptCount.value < MaxAttempts
    && (e.status == EvPending || e.status == EvFailed)
    && (e.lockedAt.None? || e.lockedAt.value < now - lockSeconds)
  }

  function AgeKey(evts: seq<NotificationEvent>, a: int): int {
    if 0 <= a < |evts| then evts[a].createdAt else 0
  }

  /** The claim order on positions: by `created_at`, ties in table order. */
  predicate Older(evts: seq<NotificationEvent>, a: int, b: int) {
    AgeKey(evts, a) < AgeKey(evts, b) || (AgeKey(evts, a) == AgeKey(evts, b) && a < b)
  }

  function AgeOrder(evts: seq<NotificationEvent>): (int, int) -> bool {
    (a: int, b: int) => Older(evts, a, b)
  }

  lemma AgeOrderIsStrictTotal(evts: seq<NotificationEvent>)
    ensures StrictTotalOrder(AgeOrder(evts))
  {
    var lt := AgeOrder(evts);
    forall a: int, b: int, c: int | lt(a, b) && lt(b, c)
      ensures lt(a, c)
    {
      assert Older(evts, a, b) && Older(evts, b, c);
    }
    forall a: int, b: int | a != b
      ensures lt(a, b) || lt(b, a)
    {
    }
  }

  /** The positions of the eligible events, in table order. */
  function EligibleIndices(evts: seq<NotificationEvent>, now: Timestamp, lockSeconds: int, n: nat): (r: seq<int>)
    requires n <= |evts|
    ensures forall i :: i in r <==> 0 <= i < n && Eligible(evts[i], now, lockSeconds)
  {
    if n == 0 then []
    else EligibleIndices(evts, now, lockSeconds, n - 1) + (if Eligible(evts[n - 1], now, lockSeconds) then [n - 1] else [])
  }

  function Take(s: seq<int>, limit: nat): (r: seq<int>)
    ensures |r| <= limit && |r| <= |s| && r == s[..|r|]
    ensures |r| < limit ==> r == s
  {
    if |s| <= limit then s else s[..limit]
  }

  /** The positions the claim query returns: eligible events by ascending `created_at`,
      at most `limit` of them. */
  function Candidates(evts: seq<NotificationEvent>, now: Timestamp, lockSeconds: int, limit: nat): seq<int> {
    AgeOrderIsStrictTotal(evts);
    Take(SortDedup(EligibleIndices(evts, now, lockSeconds, |evts|), AgeOrder(evts)), limit)
  }

  /** What a claim may return: eligible events only, oldest first, no more than `limit`,
      and no eligible event left out while a younger one is taken or room is left. */
  ghost predicate ValidSelection(evts: seq<NotificationEvent>, now: Timestamp, lockSeconds: int, limit: nat, sel: seq<int>) {
    && (forall k :: 0 <= k < |sel| ==> 0 <= sel[k] < |evts| && Eligible(evts[sel[k]], now, lockSeconds))
    && (forall k, l :: 0 <= k < l < |sel| ==> Older(evts, sel[k], sel[l]))
    && |sel| <= limit
    && (forall j :: 0 <= j < |evts| && Eligible(evts[j], now, lockSeconds) && j !in sel ==>
          |sel| == limit && forall k :: 0 <= k < |sel| ==> Older(evts, sel[k], j))
  }

  /** The claim query selects the oldest eligible events, up to the limit. */
  lemma CandidatesAreOldestEligible(evts: seq<NotificationEvent>, now: Timestamp, lockSeconds: int, limit: nat)
    ensures ValidSelection(evts, now, lockSeconds, limit, Candidates(evts, now, lockSeconds, limit))
  {
    AgeOrderIsStrictTotal(evts);
    var lt := AgeOrder(evts);
    var all := EligibleIndices(evts, now, lockSeconds, |evts|);
    var sorted := SortDedup(all, lt);
    var sel := Candidates(evts, now, lockSeconds, limit);
    assert sel == Take(sorted, limit);
    forall k | 0 <= k < |sel|
      ensures 0 <= sel[k] < |evts| && Eligible(evts[sel[k]], now, lockSeconds)
    {
      assert sel[k] == sorted[k] && sorted[k] in all;
    }
    forall k, l | 0 <= k < l < |sel|
      ensures Older(evts, sel[k], sel[l])
    {
      assert lt(sorted[k], sorted[l]);
    }
    forall j | 0 <= j < |evts| && Eligible(evts[j], now, lockSeconds) && j !in sel
      ensures |sel| == limit && forall k :: 0 <= k < |sel| ==> Older(evts, sel[k], j)
    {
      assert j in sorted;
      var p :| 0 <= p < |sorted| && sorted[p] == j;
      assert p >= |sel|;
      assert sel != sorted;
      forall k | 0 <= k < |sel|
        ensures Older(evts, sel[k], j)
      {
        assert lt(sorted[k], sorted[p]);
      }
    }
  }

  /** A SENDING event is never claimed, however old its lock. */
  lemma SendingNeverClaimed(evts: seq<NotificationEvent>, now: Timestamp, lockSeconds: int, limit: nat, i: int)
    requires 0 <= i < |evts| && evts[i].status == EvSending
    ensures i !in Candidates(evts, now, lockSeconds, limit)
  {
    CandidatesAreOldestEligible(evts, now, lockSeconds, limit);
  }

  // ---------- The three updates ----------

  /** The lease a claim puts on an event. */
  function Lease(e: NotificationEvent, now: Timestamp, consumerId: string): NotificationEvent {
    e.(lockedAt := Some(now), lockedBy := Some(consumerId), status := EvSending, updatedAt := now)
  }

  function Acked(e: NotificationEvent, now: Timestamp): NotificationEvent {
    e.(status := EvSent, sentAt := Some(now), ackedAt := Some(now), lockedAt := None, lockedBy := None, updatedAt := now)
  }

  /** `(attempt_count or 0) + 1`. */
  function NextAttempt(c: Option<int>): int {
    match c
    case None => 1
    case Some(n) => n + 1
  }

  function Failed(e: NotificationEvent, message: string, now: Timestamp): NotificationEvent {
    e.(attemptCount := Some(NextAttempt(e.attemptCount)), lastError := Some(message), status := EvFailed,
       lockedAt := None, lockedBy := None, updatedAt := now)
  }

  /** Acknowledging twice is acknowledging once, at the later time. */
  lemma AckIdempotent(e: NotificationEvent, t1: Timestamp, t2: Timestamp)
    ensures Acked(Acked(e, t1), t2) == Acked(e, t2)
    ensures Acked(e, t1).attemptCount == e.attemptCount && Acked(e, t1).lastError == e.lastError
  {
  }

  /** A leased event stays out of every claim until it is acknowledged or failed. */
  lemma LeasedNotEligible(e: NotificationEvent, now: Timestamp, consumerId: string, later: Timestamp, lockSeconds: int)
    ensures !Eligible(Lease(e, now, consumerId), later, lockSeconds)
  {
  }

  /** A failed event becomes claimable again exactly while it has retries left. */
  lemma FailedEligibility(e: NotificationEvent, message: string, now: Timestamp, later: Timestamp, lockSeconds: int)
    requires e.sentAt.None?
    ensures Eligible(Failed(e, message, now), later, lockSeconds) <==> NextAttempt(e.attemptCount) < MaxAttempts
  {
  }

  // ---------- Life of one event ----------

  datatype EventOp = LeaseOp(at: Timestamp, consumer: string) | AckOp(at: Timestamp) | FailOp(message: string, at: Timestamp)

  function ApplyOp(e: NotificationEvent, op: EventOp): NotificationEvent {
    match op
    case LeaseOp(t, c) => Lease(e, t, c)
    case AckOp(t) => Acked(e, t)
    case FailOp(m, t) => Failed(e, m, t)
  }

  function ApplyOps(e: NotificationEvent, ops: seq<EventOp>): NotificationEvent
    decreases |ops|
  {
    if |ops| == 0 then e else ApplyOps(ApplyOp(e, ops[0]), ops[1..])
  }

  /** Once acknowledged, an event is never claimable again, whatever happens to it later. */
  lemma {:induction false} AckedNeverClaimable(e: NotificationEvent, ops: seq<EventOp>, now: Timestamp, lockSeconds: int)
    requires e.sentAt.Some?
    decreases |ops|
    ensures ApplyOps(e, ops).sentAt.Some?
    ensures !Eligible(ApplyOps(e, ops), now, lockSeconds)
  {
    if |ops| > 0 {
      AckedNeverClaimable(ApplyOp(e, ops[0]), ops[1..], now, lockSeconds);
    }
  }

  /** Once its fifth failure is recorded, an event is never claimable again. */
  lemma {:induction false} ExhaustedNeverClaimable(e: NotificationEvent, ops: seq<EventOp>, now: Timestamp, lockSeconds: int)
    requires e.attemptCount.Some? && e.attemptCount.value >= MaxAttempts
    decreases |ops|
    ensures ApplyOps(e, ops).attemptCount.Some? && ApplyOps(e, ops).attemptCount.value >= MaxAttempts
    ensures !Eligible(ApplyOps(e, ops), now, lockSeconds)
  {
    if |ops| > 0 {
      ExhaustedNeverClaimable(ApplyOp(e, ops[0]), ops[1..], now, lockSeconds);
    }
  }

  function CountFails(ops: seq<EventOp>): nat {
    if |ops| == 0 then 0 else (if ops[0].FailOp? then 1 else 0) + CountFails(ops[1..])
  }

  /** Every recorded failure adds one attempt; nothing else changes the count. */
  lemma {:induction false} AttemptsCountFailures(e: NotificationEvent, ops: seq<EventOp>)
    requires e.attemptCount.Some?
    decreases |ops|
    ensures ApplyOps(e, ops).attemptCount == Some(e.attemptCount.value + CountFails(ops))
  {
    if |ops| > 0 {
      AttemptsCountFailures(ApplyOp(e, ops[0]), ops[1..]);
    }
  }

  /** A new event (attempt count 0) that has been failed five times is never claimable again. */
  lemma FiveFailuresExhaust(e: NotificationEvent, ops: seq<EventOp>, more: seq<EventOp>, now: Timestamp, lockSeconds: int)
    requires e.attemptCount == Some(0) && CountFails(ops) >= MaxAttempts
    ensures !Eligible(ApplyOps(ApplyOps(e, ops), more), now, lockSeconds)
  {
    AttemptsCountFailures(e, ops);
    ExhaustedNeverClaimable(ApplyOps(e, ops), more, now, lockSeconds);
  }

  // ---------- The handlers ----------

  datatype AckResponse = AckResponse(ok: bool, id: int, status: string, attemptCount: Option<int>, lastError: Option<string>)

  function Respond(e: NotificationEvent): AckResponse {
    AckResponse(true, e.id, e.status.Name(), e.attemptCount, e.lastError)
  }

  /** The updated table after leasing the events at positions `sel`. */
  function Leased(evts: seq<NotificationEvent>, sel: seq<int>, now: Timestamp, consumerId: string): (r: seq<NotificationEvent>)
    ensures |r| == |evts|
    ensures forall i :: 0 <= i < |r| ==> r[i].id == evts[i].id
  {
    seq(|evts|, i requires 0 <= i < |evts| => if i in sel then Lease(evts[i], now, consumerId) else evts[i])
  }

  /** Leasing one more selected position updates just that event, which no earlier
      selected position has touched. */
  lemma LeaseOneMore(evts: seq<NotificationEvent>, sel: seq<int>, k: nat, now: Timestamp, consumerId: string)
    requires k < |sel|
    requires forall m :: 0 <= m < |sel| ==> 0 <= sel[m] < |evts|
    requires forall m, l :: 0 <= m < l < |sel| ==> Older(evts, sel[m], sel[l])
    ensures Leased(evts, sel[..k], now, consumerId)[sel[k]] == evts[sel[k]]
    ensures Leased(evts, sel[..k + 1], now, consumerId)
         == Leased(evts, sel[..k], now, consumerId)[sel[k] := Lease(evts[sel[k]], now, consumerId)]
  {
    var i := sel[k];
    forall m | 0 <= m < k ensures sel[m] != i {
      assert Older(evts, sel[m], sel[k]);
    }
    assert i !in sel[..k];
    assert sel[..k + 1] == sel[..k] + [i];
  }

  /** One turn of the claim loop keeps its invariant: the table holds the first `k + 1`
      selected events leased, and the collected rows are those events leased. */
  lemma LeaseStep(evts: seq<NotificationEvent>, sel: seq<int>, k: nat, claimed: seq<NotificationEvent>,
                  now: Timestamp, consumerId: string)
    requires k < |sel|
    requires forall m :: 0 <= m < |sel| ==> 0 <= sel[m] < |evts|
    requires forall m, l :: 0 <= m < l < |sel| ==> Older(evts, sel[m], sel[l])
    requires |claimed| == k && forall m :: 0 <= m < k ==> claimed[m] == Lease(evts[sel[m]], now, consumerId)
    ensures var cur := Leased(evts, sel[..k], now, consumerId);
      var leased := Lease(cur[sel[k]], now, consumerId);
      && cur[sel[k] := leased] == Leased(evts, sel[..k + 1], now, consumerId)
      && forall m :: 0 <= m < k + 1 ==> (claimed + [leased])[m] == Lease(evts[sel[m]], now, consumerId)
  {
    LeaseOneMore(evts, sel, k, now, consumerId);
  }

  /** The claim loop: lease each selected event in place, collecting the leased rows. */
  method LeaseAll(outbox: Outbox, sel: seq<int>, now: Timestamp, consumerId: string)
    returns (claimed: seq<NotificationEvent>)
    requires outbox.Valid()
    requires forall m :: 0 <= m < |sel| ==> 0 <= sel[m] < |outbox.events|
    requires forall m, l :: 0 <= m < l < |sel| ==> Older(outbox.events, sel[m], sel[l])
    modifies outbox
    ensures outbox.Valid() && outbox.handler == old(outbox.handler) && outbox.deliveries == old(outbox.deliveries)
    ensures outbox.events == Leased(old(outbox.events), sel, now, consumerId)
    ensures |claimed| == |sel| && forall m :: 0 <= m < |sel| ==> claimed[m] == outbox.events[sel[m]]
  {
    ghost var evts0 := outbox.events;
    claimed := [];
    var k := 0;
    while k < |sel|
      invariant 0 <= k <= |sel|
      invariant outbox.events == Leased(evts0, sel[..k], now, consumerId)
      invariant outbox.handler == old(outbox.handler) && outbox.deliveries == old(outbox.deliveries)
      invariant |claimed| == k && forall m :: 0 <= m < k ==> claimed[m] == Lease(evts0[sel[m]], now, consumerId)
    {
      var i := sel[k];
      LeaseStep(evts0, sel, k, claimed, now, consumerId);
      var leased := Lease(outbox.events[i], now, consumerId);
      outbox.events := outbox.events[i := leased];
      claimed := claimed + [leased];
      k := k + 1;
    }
    assert sel[..k] == sel;
    LeasedKeepsKeys(evts0, sel, now, consumerId);
    forall m | 0 <= m < |sel|
      ensures claimed[m] == outbox.events[sel[m]]
    {
      LeasedAt(evts0, sel, m, now, consumerId);
    }
  }

  /** Leasing keeps every id, hence ids stay ascending. */
  lemma LeasedKeepsKeys(evts: seq<NotificationEvent>, sel: seq<int>, now: Timestamp, consumerId: string)
    requires EventKeys(evts)
    ensures EventKeys(Leased(evts, sel, now, consumerId))
  {
  }

  /** A selected position holds its leased event. */
  lemma LeasedAt(evts: seq<NotificationEvent>, sel: seq<int>, m: int, now: Timestamp, consumerId: string)
    requires 0 <= m < |sel| && 0 <= sel[m] < |evts|
    ensures Leased(evts, sel, now, consumerId)[sel[m]] == Lease(evts[sel[m]], now, consumerId)
  {
    assert sel[m] in sel;
  }

  /** `GET /notifications/pending`: the query bounds are checked first (a 422 response);
      then the selected events are leased in place, committed, and returned. */
  method Claim(outbox: Outbox, now: Timestamp, limit: int, consumerId: string, lockSeconds: int)
    returns (res: Result<seq<NotificationEvent>>)
    requires outbox.Valid()
    modifies outbox
    ensures outbox.Valid() && outbox.handler == old(outbox.handler) && outbox.deliveries == old(outbox.deliveries)
    ensures res.Err? <==> !(1 <= limit <= 100 && 1 <= |consumerId| <= 128 && 1 <= lockSeconds <= 3600)
    ensures res.Err? ==> outbox.events == old(outbox.events)
    ensures res.Ok? ==>
      var sel := Candidates(old(outbox.events), now, lockSeconds, limit);
      && outbox.events == Leased(old(outbox.events), sel, now, consumerId)
      && ValidSelection(old(outbox.events), now, lockSeconds, limit, sel)
      && |res.value| == |sel|
      && forall k :: 0 <= k < |sel| ==> res.value[k] == outbox.events[sel[k]]
  {
    if !(1 <= limit <= 100 && 1 <= |consumerId| <= 128 && 1 <= lockSeconds <= 3600) {
      return Err(Invalid("query parameters out of range"));
    }
    var sel := Candidates(outbox.events, now, lockSeconds, limit);
    CandidatesAreOldestEligible(outbox.events, now, lockSeconds, limit);
    var claimed := LeaseAll(outbox, sel, now, consumerId);
    res := Ok(claimed);
  }

  /** `POST /notifications/{id}/ack`. */
  method Ack(outbox: Outbox, eventId: int, now: Timestamp) returns (res: Result<AckResponse>)
    requires outbox.Valid()
    modifies outbox
    ensures outbox.Valid() && outbox.handler == old(outbox.handler) && outbox.deliveries == old(outbox.deliveries)
    ensures var k := IndexOf(old(outbox.events), (e: NotificationEvent) => e.id == eventId);
      && (k < 0 ==> res == Err(NotFound("Notification not found")) && outbox.events == old(outbox.events))
      && (k >= 0 ==> outbox.events == old(outbox.events)[k := Acked(old(outbox.events)[k], now)]
                     && res == Ok(Respond(outbox.events[k])))
  {
    var k := IndexOf(outbox.events, (e: NotificationEvent) => e.id == eventId);
    if k < 0 {
      return Err(NotFound("Notification not found"));
    }
    outbox.events := outbox.events[k := Acked(outbox.events[k], now)];
    res := Ok(Respond(outbox.events[k]));
  }

  /** `POST /notifications/{id}/fail`. */
  method Fail(outbox: Outbox, eventId: int, message: string, now: Timestamp) returns (res: Result<AckResponse>)
    requires outbox.Valid()
    modifies outbox
    ensures outbox.Valid() && outbox.handler == old(outbox.handler) && outbox.deliveries == old(outbox.deliveries)
    ensures var k := IndexOf(old(outbox.events), (e: NotificationEvent) => e.id == eventId);
      && (k < 0 ==> res == Err(NotFound("Notification not found")) && outbox.events == old(outbox.events))
      && (k >= 0 ==> outbox.events == old(outbox.events)[k := Failed(old(outbox.events)[k], message, now)]
                     && res == Ok(Respond(outbox.events[k])))
  {
    var k := IndexOf(outbox.events, (e: NotificationEvent) => e.id == eventId);
    if k < 0 {
      return Err(NotFound("Notification not found"));
    }
    outbox.events := outbox.events[k := Failed(outbox.events[k], message, now)];
    res := Ok(Respond(outbox.events[k]));
  }

  /** A freshly emitted event is claimable at once. */
  lemma EmittedIsEligible(id: int, channel: string, n: Notification, created: Timestamp, now: Timestamp, lockSeconds: int)
    ensures Eligible(NewEvent(id, channel, n, created), now, lockSeconds)
  {
  }
}
