/** The outbox table and its three statements. */
module Outbox {
  import opened Basics

  const START_EVENT := "upload_process_start"

  datatype EventStatus = EventPending | Dispatching | Sent

  /** A row. The last three fields are history that no statement reads: the run that claimed it last, the
      payloads of its publishes that were answered with success, and how often it was put back after a failure. */
  datatype Event = Event(
    kind: string, key: string, payload: string,
    status: EventStatus, attempts: int, nextAt: int, createdAt: int, lastError: Option<string>,
    claimedBy: Option<nat>, published: seq<string>, failures: nat)

  type Events = map<nat, Event>

  datatype Claim = Claim(id: nat, kind: string, payload: string, attempts: int)

  // ---------------------------------------------------------------- the statements

  /** ON CONFLICT DO NOTHING on (event_type, idempotency_key). */
  predicate HasKey(events: Events, kind: string, key: string) {
    exists id <- events :: events[id].kind == kind && events[id].key == key
  }

  function NewEvent(kind: string, key: string, payload: string, now: int): Event {
    Event(kind, key, payload, EventPending, 0, now, now, None, None, [], 0)
  }

  predicate Claimable(events: Events, id: nat, now: int) {
    id in events && events[id].status.EventPending? && events[id].nextAt <= now
  }

  function Claimed(e: Event, run: nat): Event {
    e.(status := Dispatching, attempts := e.attempts + 1, lastError := None, claimedBy := Some(run))
  }

  function AfterClaim(events: Events, picked: set<nat>, run: nat): Events {
    map id <- events :: if id in picked then Claimed(events[id], run) else events[id]
  }

  function AfterSent(events: Events, id: nat): Events {
    if id in events then events[id := events[id].(status := Sent, lastError := None)] else events
  }

  function Postponed(e: Event, reason: string, at: int): Event {
    e.(status := EventPending, lastError := Some(reason), nextAt := at, failures := e.failures + 1)
  }

  function AfterRetry(events: Events, id: nat, reason: string, at: int): Events {
    if id in events then events[id := Postponed(events[id], reason, at)] else events
  }

  // ---------------------------------------------------------------- the repository

  function Limited(limit: int): nat {
    if limit <= 0 then 100 else limit
  }

  function Ids(claims: seq<Claim>): set<nat> {
    set c <- claims :: c.id
  }

  function Due(events: Events, now: int): set<nat> {
    set id | id in events && Claimable(events, id, now)
  }

  predicate ClaimsAsRead(events: Events, now: int, claims: seq<Claim>) {
    && (forall i, j :: 0 <= i < j < |claims| ==> claims[i].id != claims[j].id)
    && (forall c <- claims :: Claimable(events, c.id, now)
          && c == Claim(c.id, events[c.id].kind, events[c.id].payload, events[c.id].attempts + 1))
  }

  predicate NoneOlderLeft(events: Events, picked: set<nat>, left: set<nat>)
    requires picked <= events.Keys && left <= events.Keys
  {
    forall a <- picked, b <- left :: events[a].createdAt <= events[b].createdAt
  }

  lemma IdsAppend(claims: seq<Claim>, c: Claim)
    ensures Ids(claims + [c]) == Ids(claims) + {c.id}
  {
    forall x ensures x in Ids(claims + [c]) <==> x in Ids(claims) + {c.id} {
      if x in Ids(claims) {
        var d :| d in claims && d.id == x;
        assert d in claims + [c];
      }
      assert c in claims + [c];
    }
  }

  lemma ClaimsAsReadAppend(events: Events, now: int, claims: seq<Claim>, c: Claim)
    requires ClaimsAsRead(events, now, claims) && c.id !in Ids(claims) && Claimable(events, c.id, now)
    requires c == Claim(c.id, events[c.id].kind, events[c.id].payload, events[c.id].attempts + 1)
    ensures ClaimsAsRead(events, now, claims + [c])
  {
    forall k | 0 <= k < |claims| ensures claims[k].id != c.id {
      assert claims[k].id in Ids(claims);
    }
  }

  /** Some of the due events are picked, none older is left. */
  predicate Picked(events: Events, now: int, left: set<nat>, out: seq<Claim>) {
    && left <= Due(events, now) && Ids(out) == Due(events, now) - left
    && |Due(events, now)| == |left| + |out|
    && ClaimsAsRead(events, now, out)
    && NoneOlderLeft(events, Ids(out), left)
  }

  lemma PickOne(events: Events, now: int, left: set<nat>, out: seq<Claim>, c: Claim)
    requires Picked(events, now, left, out) && c.id in left
    requires c == Claim(c.id, events[c.id].kind, events[c.id].payload, events[c.id].attempts + 1)
    requires forall b <- left :: events[c.id].createdAt <= events[b].createdAt
    ensures Picked(events, now, left - {c.id}, out + [c])
  {
    IdsAppend(out, c);
    ClaimsAsReadAppend(events, now, out, c);
    var due := Due(events, now);
    assert due - (left - {c.id}) == due - left + {c.id};
  }

  lemma PickedInColumns(events: Events, now: int, left: set<nat>, out: seq<Claim>)
    requires Picked(events, now, left, out)
    ensures forall c <- out ::
              && c.id in events && events[c.id].status.EventPending? && events[c.id].nextAt <= now
              && c == Claim(c.id, events[c.id].kind, events[c.id].payload, events[c.id].attempts + 1)
    ensures forall i, j :: 0 <= i < j < |out| ==> out[i].id != out[j].id
    ensures forall id <- events :: events[id].status.EventPending? && events[id].nextAt <= now ==>
              (exists c <- out :: c.id == id)
              || (id in left && forall c <- out :: events[c.id].createdAt <= events[id].createdAt)
  {
    forall id <- events | Claimable(events, id, now) && !exists c <- out :: c.id == id
      ensures id in left && forall c <- out :: events[c.id].createdAt <= events[id].createdAt
    {
      assert id in Due(events, now) && id !in Ids(out);
      forall c <- out ensures events[c.id].createdAt <= events[id].createdAt {
        assert c.id in Ids(out);
      }
    }
  }

  /** The claim's update in columns. */
  lemma ClaimInColumns(events: Events, out: seq<Claim>, run: nat)
    ensures forall id <- events ::
              var e := events[id];
              AfterClaim(events, Ids(out), run)[id]
              == if exists c <- out :: c.id == id
                 then e.(status := Dispatching, attempts := e.attempts + 1, lastError := None, claimedBy := Some(run))
                 else e
  {
    forall id <- events ensures id in Ids(out) <==> exists c <- out :: c.id == id {}
  }

  class OutboxRepository {
    var events: Events
    var now: int

    constructor (now: int)
      ensures events == map[] && this.now == now
    {
      events := map[];
      this.now := now;
    }

    method Oldest(ids: set<nat>) returns (oldest: nat)
      requires ids != {} && ids <= events.Keys
      ensures oldest in ids && forall id <- ids :: events[oldest].createdAt <= events[id].createdAt
    {
      oldest :| oldest in ids;
      var rest := ids - {oldest};
      while rest != {}
        invariant rest <= ids && oldest in ids
        invariant forall id <- ids - rest :: events[oldest].createdAt <= events[id].createdAt
      {
        var id :| id in rest;
        if events[id].createdAt < events[oldest].createdAt {
          oldest := id;
        }
        rest := rest - {id};
      }
    }

    /** Due events one after the other, the oldest next, until the limit or the last. */
    method PickDue(limit: nat) returns (out: seq<Claim>, ghost left: set<nat>)
      ensures Picked(events, now, left, out)
      ensures |out| <= limit && (|out| == limit || left == {})
    {
      var rest := Due(events, now);
      out := [];
      assert Due(events, now) - rest == {};
      while |out| < limit && rest != {}
        invariant Picked(events, now, rest, out) && |out| <= limit
        decreases rest
      {
        var id := Oldest(rest);
        var claim := Claim(id, events[id].kind, events[id].payload, events[id].attempts + 1);
        PickOne(events, now, rest, out, claim);
        out := out + [claim];
        rest := rest - {id};
      }
      left := rest;
    }

    /** Claims pending events whose time has come: all of them up to the limit, 100 when none is given, the oldest
        first; exactly those are dispatching afterwards, with one attempt more. */
    method ClaimPendingBatch(limit: int, run: nat) returns (out: seq<Claim>)
      modifies this
      ensures forall c <- out ::
                && c.id in old(events) && old(events)[c.id].status.EventPending? && old(events)[c.id].nextAt <= now
                && c == Claim(c.id, old(events)[c.id].kind, old(events)[c.id].payload, old(events)[c.id].attempts + 1)
      ensures forall i, j :: 0 <= i < j < |out| ==> out[i].id != out[j].id
      ensures forall id <- old(events) :: old(events)[id].status.EventPending? && old(events)[id].nextAt <= now ==>
                (exists c <- out :: c.id == id)
                || (|out| == (if limit <= 0 then 100 else limit)
                    && forall c <- out :: old(events)[c.id].createdAt <= old(events)[id].createdAt)
      ensures |out| <= (if limit <= 0 then 100 else limit)
      ensures events.Keys == old(events).Keys && now == old(now)
      ensures forall id <- events ::
                var e := old(events)[id];
                events[id] == if exists c <- out :: c.id == id
                              then e.(status := Dispatching, attempts := e.attempts + 1, lastError := None,
                                      claimedBy := Some(run))
                              else e
      ensures events == AfterClaim(old(events), Ids(out), run)
    {
      ghost var left;
      out, left := PickDue(Limited(limit));
      PickedInColumns(events, now, left, out);
      ClaimInColumns(events, out, run);
      events := AfterClaim(events, Ids(out), run);
    }

    /** Unguarded: whatever the row's status was, it is sent now; no other row changes. */
    method MarkSent(id: nat)
      modifies this
      ensures events == AfterSent(old(events), id) && now == old(now)
      ensures events == if id !in old(events) then old(events)
                        else old(events)[id := old(events)[id].(status := Sent, lastError := None)]
    {
      if id in events {
        events := events[id := events[id].(status := Sent, lastError := None)];
      }
    }

    /** Unguarded: the row is pending again, not before the given delay, at least one second. */
    method MarkPendingWithError(id: nat, reason: string, retryAfter: int)
      modifies this
      ensures events == AfterRetry(old(events), id, reason, now + if retryAfter < 1 then 1 else retryAfter)
      ensures events == if id !in old(events) then old(events)
                        else
                          var e := old(events)[id];
                          old(events)[id := e.(status := EventPending, lastError := Some(reason),
                                               nextAt := now + (if retryAfter < 1 then 1 else retryAfter),
                                               failures := e.failures + 1)]
      ensures now == old(now)
    {
      var delay := retryAfter;
      if delay < 1 {
        delay := 1;
      }
      if id in events {
        events := events[id := Postponed(events[id], reason, now + delay)];
      }
    }
  }

  // ---------------------------------------------------------------- the backoff

  function Power2(n: nat): nat {
    if n == 0 then 1 else 2 * Power2(n - 1)
  }

  function RetryAfterSeconds(attempts: int): int {
    var a := if attempts < 1 then 1 else attempts;
    Power2(if a - 1 < 8 then a - 1 else 8)
  }

  lemma {:induction false} Power2Grows(m: nat, n: nat)
    requires m <= n
    ensures Power2(m) <= Power2(n) && 1 <= Power2(m)
    decreases n
  {
    if n > 0 {
      if m == n { Power2Grows(m - 1, n - 1); } else { Power2Grows(m, n - 1); }
    }
  }

  /** The delays in seconds, from the first attempt on. */
  lemma DelaysAre(attempts: int)
    ensures var delays := [1, 2, 4, 8, 16, 32, 64, 128, 256];
            RetryAfterSeconds(attempts)
            == if attempts < 1 then 1 else if attempts <= 9 then delays[attempts - 1] else 256
  {
    assert Power2(4) == 16 && Power2(8) == 256;
  }

  /** The delay grows with the attempts and stays between one second and 256. */
  lemma DelayIsMonotoneAndBounded(a: int, b: int)
    requires a <= b
    ensures 1 <= RetryAfterSeconds(a) <= RetryAfterSeconds(b) <= 256
  {
    var x := if a < 1 then 1 else a;
    var y := if b < 1 then 1 else b;
    var m := if x - 1 < 8 then x - 1 else 8;
    var n := if y - 1 < 8 then y - 1 else 8;
    Power2Grows(m, n);
    Power2Grows(n, 8);
    assert Power2(8) == 256;
  }

  /** The least time that k failures take: the sum of the delays after each. */
  function Backoff(k: nat): nat {
    if k == 0 then 0 else Backoff(k - 1) + RetryAfterSeconds(k)
  }

  lemma {:induction false} BackoffClosedForm(k: nat)
    ensures Backoff(k) == if k <= 9 then Power2(k) - 1 else 511 + 256 * (k - 9)
  {
    if k > 0 {
      BackoffClosedForm(k - 1);
      if k <= 9 {
        assert RetryAfterSeconds(k) == Power2(k - 1);
      } else {
        assert Power2(8) == 256 && Power2(9) == 512;
        assert RetryAfterSeconds(k) == 256;
      }
    }
  }
}
