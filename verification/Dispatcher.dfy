/** DispatchPending as the running code makes its calls, while any other dispatchers and writers act in
    between. */
module Dispatcher {
  import opened Basics
  import opened Outbox
  import opened OutboxRuns

  predicate Acts(e: Step, r: nat) {
    match e
    case ClaimBatch(o, _, _) => o == r
    case Send(o, _, _) => o == r
    case Mark(o, _) => o == r
    case Die(o) => o == r
    case _ => false
  }

  function Fresh(limit: int): Run {
    Run(ToClaim(limit), [], 0, false, Result(0, 0, 0, 0))
  }

  /** A run in the middle of its loop: the first k events settled, the counts so far in `res`. */
  function Looping(claims: seq<Claim>, k: nat, res: Result): Run {
    Run(StageFor(claims, k), claims, k, false, res)
  }

  class DispatcherService {
    const me: nat
    /** What everybody else does before my k-th call, how the world treats it, and what the claim returns. */
    const others: nat -> seq<Step>
    const luck: nat -> Fate
    const due: nat -> seq<Claim>
    var w: World
    var calls: nat

    ghost predicate Valid()
      reads this
    {
      Reachable(w)
    }

    predicate Stands(run: Run)
      reads this
    {
      me in w.runs && w.runs[me] == run
    }

    constructor (w: World, limit: int, others: nat -> seq<Step>, luck: nat -> Fate, due: nat -> seq<Claim>)
      requires Reachable(w)
      ensures Valid() && Stands(Fresh(limit))
    {
      ReachableStep(w, Begin(limit));
      this.w := Do(w, Begin(limit));
      me, calls := w.nextRun, 0;
      this.others, this.luck, this.due := others, luck, due;
    }

    method Others(ghost run: Run)
      requires Valid() && Stands(run)
      modifies this
      ensures Valid() && Stands(run) && calls == old(calls)
    {
      var steps := others(calls);
      for k := 0 to |steps|
        invariant Valid() && Stands(run) && calls == old(calls)
      {
        if Enabled(w, steps[k]) && !Acts(steps[k], me) {
          ReachableStep(w, steps[k]);
          ReachableOk(w);
          w := Do(w, steps[k]);
        }
      }
    }

    method Make(ghost run: Run, e: Step)
      requires Valid() && Stands(run) && Enabled(w, e)
      modifies this
      ensures Valid() && w == Do(old(w), e)
    {
      ReachableStep(w, e);
      w := Do(w, e);
      calls := calls + 1;
    }

    method ClaimPendingBatch(limit: int) returns (ok: bool, events: seq<Claim>)
      requires Valid() && Stands(Fresh(limit))
      modifies this
      ensures Valid() && me in w.runs
      ensures if ok then Stands(Looping(events, 0, Result(|events|, 0, 0, 0)))
              else w.runs[me].stage == Ended(false) && w.runs[me].res == Result(0, 0, 0, 0)
    {
      Others(Fresh(limit));
      var fate := luck(calls);
      events := due(calls);
      if !Enabled(w, ClaimBatch(me, events, fate)) {
        events := [];
      }
      Make(Fresh(limit), ClaimBatch(me, events, fate));
      ok := fate.Works?;
    }

    /** PublishUploadProcess for the next event, with its payload. */
    method PublishUploadProcess(ghost run: Run, ghost payload: string, reason: string) returns (ok: bool)
      requires Valid() && Stands(run) && run.stage.ToPublish? && run.from < |run.claims|
      requires payload == run.claims[run.from].payload
      modifies this
      ensures Valid() && Stands(run.(stage := if ok then ToMarkSent else ToPostpone(reason), head := if ok then true
                else run.head))
    {
      Others(run);
      var fate := luck(calls);
      Make(run, Send(me, reason, fate));
      ok := fate.Works?;
    }

    /** Either mark, on the event the run stands at. */
    method MarkNext(ghost run: Run, ghost id: nat) returns (ok: bool)
      requires Valid() && Stands(run) && (run.stage.ToMarkSent? || run.stage.ToPostpone?) && run.from < |run.claims|
      requires id == run.claims[run.from].id
      modifies this
      ensures Valid() && me in w.runs
      ensures if ok then Stands(Looping(run.claims, run.from + 1, Counted(run)))
              else w.runs[me].stage == Ended(false) && w.runs[me].res == run.res
    {
      Others(run);
      var fate := luck(calls);
      Make(run, Mark(me, fate));
      ok := fate.Works?;
    }

    method MarkSent(ghost run: Run, id: nat) returns (ok: bool)
      requires Valid() && Stands(run) && run.stage.ToMarkSent? && run.from < |run.claims|
      requires id == run.claims[run.from].id
      modifies this
      ensures Valid() && me in w.runs
      ensures if ok then Stands(Looping(run.claims, run.from + 1, Counted(run)))
              else w.runs[me].stage == Ended(false) && w.runs[me].res == run.res
    {
      ok := MarkNext(run, id);
    }

    method MarkPendingWithError(ghost run: Run, id: nat, reason: string, retryAfter: int) returns (ok: bool)
      requires Valid() && Stands(run) && run.stage == ToPostpone(reason) && run.from < |run.claims|
      requires id == run.claims[run.from].id && retryAfter == RetryAfterSeconds(run.claims[run.from].attempts)
      modifies this
      ensures Valid() && me in w.runs
      ensures if ok then Stands(Looping(run.claims, run.from + 1, Counted(run)))
              else w.runs[me].stage == Ended(false) && w.runs[me].res == run.res
    {
      ok := MarkNext(run, id);
    }

    /** One event of the batch: publish and mark sent, or put back after a failed publish; an event of
        another kind is only marked sent. */
    method DispatchOne(events: seq<Claim>, k: nat, res: Result, reason: string) returns (ok: bool, res': Result)
      requires Valid() && k < |events| && Stands(Looping(events, k, res))
      modifies this
      ensures Valid() && me in w.runs
      ensures if ok then Stands(Looping(events, k + 1, res'))
                else w.runs[me].stage == Ended(false) && w.runs[me].res == res'
      ensures res'.claimed == res.claimed
      ensures ok ==> res'.sent + res'.retried + res'.skipped == res.sent + res.retried + res.skipped + 1
      ensures ok ==> (res'.skipped > res.skipped <==> events[k].kind != START_EVENT)
      ensures ok ==> res'.sent == |SentBy(w.events, me, true)| && res'.skipped == |SentBy(w.events, me, false)|
    {
      var event := events[k];
      res' := res;
      ghost var run := Looping(events, k, res);
      if event.kind != START_EVENT {
        ok := MarkSent(run, event.id);
        if ok {
          res' := res.(skipped := res.skipped + 1);
          CountsAreExact(w, me);
        }
        return;
      }
      ok := PublishUploadProcess(run, event.payload, reason);
      if !ok {
        var retryAfter := RetryAfterSeconds(event.attempts);
        ok := MarkPendingWithError(run.(stage := ToPostpone(reason)), event.id, reason, retryAfter);
        if ok {
          res' := res.(retried := res.retried + 1);
          CountsAreExact(w, me);
        }
        return;
      }
      ok := MarkSent(run.(stage := ToMarkSent, head := true), event.id);
      if ok {
        res' := res.(sent := res.sent + 1);
        CountsAreExact(w, me);
      }
    }

    /** Without an error the counts add up, say how many events were sent after a publish and without one, and none
        of the claimed events is left dispatching; with an error, exactly the rest of the claims is. */
    method DispatchPending(limit: int, reason: string) returns (ok: bool, res: Result)
      requires Valid() && Stands(Fresh(limit))
      modifies this
      ensures Valid() && me in w.runs && w.runs[me].stage == Ended(ok) && w.runs[me].res == res
      ensures ok ==> res.claimed == |w.runs[me].claims| == res.sent + res.retried + res.skipped
      ensures ok ==> res.sent == |SentBy(w.events, me, true)| && res.skipped == |SentBy(w.events, me, false)|
      ensures ok ==> forall id <- w.events :: !(w.events[id].status.Dispatching? && w.events[id].claimedBy == Some(me))
      ensures forall id :: id in Rest(w.runs[me]) <==>
                id in w.events && w.events[id].status.Dispatching? && w.events[id].claimedBy == Some(me)
    {
      var events;
      ok, events := ClaimPendingBatch(limit);
      if !ok {
        ErrorStrandsTheRest(w, me);
        return false, Result(0, 0, 0, 0);
      }
      res := Result(|events|, 0, 0, 0);
      var k := 0;
      while k < |events|
        invariant 0 <= k <= |events|
        invariant Valid() && Stands(Looping(events, k, res))
      {
        ok, res := DispatchOne(events, k, res, reason);
        if !ok {
          ErrorStrandsTheRest(w, me);
          return false, res;
        }
        k := k + 1;
      }
      CleanRunSettlesAll(w, me);
      CountsAreExact(w, me);
      ErrorStrandsTheRest(w, me);
      return true, res;
    }
  }
}
