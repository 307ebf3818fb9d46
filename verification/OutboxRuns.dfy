/** Any number of dispatchers over one outbox table, each statement and each publish a step of its own, with
    errors, lost answers and dispatchers dying anywhere. */
module OutboxRuns {
  import opened Basics
  import opened Outbox

  // ---------------------------------------------------------------- the machine

  datatype Result = Result(claimed: nat, sent: nat, retried: nat, skipped: nat)

  datatype Stage = ToClaim(limit: int) | ToPublish | ToMarkSent | ToPostpone(reason: string) | Ended(ok: bool) | Died

  /** `from`: how many of the claimed events are settled; `head`: the next one's publish was answered with
      success. */
  datatype Run = Run(stage: Stage, claims: seq<Claim>, from: nat, head: bool, res: Result)

  datatype World = World(now: int, events: Events, nextEvent: nat, runs: map<nat, Run>, nextRun: nat)

  datatype Step =
    | Insert(kind: string, key: string, payload: string)
    | Tick(seconds: nat)
    | Begin(limit: int)
    | ClaimBatch(r: nat, picked: seq<Claim>, fate: Fate)
    | Send(r: nat, reason: string, fate: Fate)
    | Mark(r: nat, fate: Fate)
    | Die(r: nat)

  predicate Enabled(w: World, e: Step) {
    match e
    case Insert(_, _, _) => true
    case Tick(_) => true
    case Begin(_) => true
    case ClaimBatch(r, picked, _) =>
      r in w.runs && w.runs[r].stage.ToClaim? && ClaimsAsRead(w.events, w.now, picked)
          && |picked| <= Limited(w.runs[r].stage.limit)
    case Send(r, _, _) => r in w.runs && w.runs[r].stage.ToPublish? && w.runs[r].from < |w.runs[r].claims|
    case Mark(r, _) =>
      r in w.runs && (w.runs[r].stage.ToMarkSent? || w.runs[r].stage.ToPostpone?) && w.runs[r].from < |w.runs[r].claims|
    case Die(r) => r in w.runs
  }

  /** The loop's next turn. */
  function StageFor(claims: seq<Claim>, from: nat): Stage {
    if from >= |claims| then Ended(true) else if claims[from].kind == START_EVENT then ToPublish else ToMarkSent
  }

  function Counted(run: Run): Result
    requires run.from < |run.claims|
  {
    if run.stage.ToPostpone? then run.res.(retried := run.res.retried + 1)
    else if run.claims[run.from].kind == START_EVENT then run.res.(sent := run.res.sent + 1)
    else run.res.(skipped := run.res.skipped + 1)
  }

  function RunAfterClaim(run: Run, picked: seq<Claim>, fate: Fate): Run {
    match fate
    case Works => Run(StageFor(picked, 0), picked, 0, false, Result(|picked|, 0, 0, 0))
    case Refuses => run.(stage := Ended(false))
    case WorksUnheard => run.(stage := Ended(false), claims := picked)
  }

  function RunAfterSend(run: Run, reason: string, fate: Fate): Run {
    if fate.Works? then run.(stage := ToMarkSent, head := true) else run.(stage := ToPostpone(reason))
  }

  function RunAfterMark(run: Run, fate: Fate): Run
    requires run.from < |run.claims|
  {
    match fate
    case Works => Run(StageFor(run.claims, run.from + 1), run.claims, run.from + 1, false, Counted(run))
    case Refuses => run.(stage := Ended(false))
    case WorksUnheard => run.(stage := Ended(false), from := run.from + 1, head := false)
  }

  /** What the mark statement does to the run's next event. */
  function EventsAfterMark(events: Events, now: int, run: Run): Events
    requires run.from < |run.claims|
  {
    var c := run.claims[run.from];
    if run.stage.ToPostpone? then AfterRetry(events, c.id, run.stage.reason, now + RetryAfterSeconds(c.attempts))
    else AfterSent(events, c.id)
  }

  /** The publish takes the payload that the claim returned. */
  function AfterPublish(events: Events, c: Claim): Events {
    if c.id in events then events[c.id := events[c.id].(published := events[c.id].published + [c.payload])] else events
  }

  function Do(w: World, e: Step): World
    requires Enabled(w, e)
  {
    match e
    case Insert(kind, key, payload) =>
      if HasKey(w.events, kind, key) then w
      else w.(events := w.events[w.nextEvent := NewEvent(kind, key, payload, w.now)], nextEvent := w.nextEvent + 1)
    case Tick(seconds) => w.(now := w.now + seconds)
    case Begin(limit) =>
      w.(runs := w.runs[w.nextRun := Run(ToClaim(limit), [], 0, false, Result(0, 0, 0, 0))], nextRun := w.nextRun + 1)
    case ClaimBatch(r, picked, fate) =>
      w.(events := if fate.Refuses? then w.events else AfterClaim(w.events, Ids(picked), r),
         runs := w.runs[r := RunAfterClaim(w.runs[r], picked, fate)])
    case Send(r, reason, fate) =>
      var run := w.runs[r];
      w.(events := if fate.Works? then AfterPublish(w.events, run.claims[run.from]) else w.events,
         runs := w.runs[r := RunAfterSend(run, reason, fate)])
    case Mark(r, fate) =>
      var run := w.runs[r];
      w.(events := if fate.Refuses? then w.events else EventsAfterMark(w.events, w.now, run),
         runs := w.runs[r := RunAfterMark(run, fate)])
    case Die(r) => w.(runs := w.runs[r := w.runs[r].(stage := if w.runs[r].stage.Ended? then w.runs[r].stage
        else Died)])
  }

  ghost predicate Legal(w: World, steps: seq<Step>)
    decreases |steps|
  {
    steps == [] || (Enabled(w, steps[0]) && Legal(Do(w, steps[0]), steps[1..]))
  }

  ghost function Exec(w: World, steps: seq<Step>): World
    requires Legal(w, steps)
    decreases |steps|
  {
    if steps == [] then w else Exec(Do(w, steps[0]), steps[1..])
  }

  predicate Init(w: World) {
    w.events == map[] && w.runs == map[]
  }

  ghost predicate Reachable(w: World) {
    exists w0, steps :: Init(w0) && Legal(w0, steps) && w == Exec(w0, steps)
  }

  lemma {:induction false} OneMoreStep(w: World, steps: seq<Step>, e: Step)
    requires Legal(w, steps) && Enabled(Exec(w, steps), e)
    ensures Legal(w, steps + [e]) && Exec(w, steps + [e]) == Do(Exec(w, steps), e)
    decreases |steps|
  {
    if steps == [] {
      assert [] + [e] == [e] && [e][1..] == [];
    } else {
      OneMoreStep(Do(w, steps[0]), steps[1..], e);
      assert (steps + [e])[1..] == steps[1..] + [e];
    }
  }

  lemma ReachableStep(w: World, e: Step)
    requires Reachable(w) && Enabled(w, e)
    ensures Reachable(Do(w, e))
  {
    var w0, steps :| Init(w0) && Legal(w0, steps) && w == Exec(w0, steps);
    OneMoreStep(w0, steps, e);
  }

  // ---------------------------------------------------------------- the invariant

  /** The row alone: attempts, publishes and the earliest time follow from status and failures. */
  predicate EventOk(e: Event, now: int) {
    && e.attempts == e.failures + (if e.status.EventPending? then 0 else 1)
    && (e.status.EventPending? ==> e.published == [] && e.nextAt >= e.createdAt + Backoff(e.failures))
    && (e.status.Dispatching? ==> now >= e.createdAt + Backoff(e.failures))
    && (e.status.Sent? ==> e.published == if e.kind == START_EVENT then [e.payload] else [])
  }

  predicate Holds(run: Run, id: nat) {
    exists j :: run.from <= j < |run.claims| && run.claims[j].id == id
  }

  predicate DistinctClaims(claims: seq<Claim>) {
    forall i, j :: 0 <= i < j < |claims| ==> claims[i].id != claims[j].id
  }

  /** The event is dispatching for this run, as the run read it. */
  predicate HeldOk(events: Events, r: nat, run: Run, j: nat)
    requires run.from <= j < |run.claims|
  {
    var c := run.claims[j];
    && c.id in events && events[c.id].status.Dispatching? && events[c.id].claimedBy == Some(r)
    && c.kind == events[c.id].kind && c.attempts == events[c.id].attempts && c.payload == events[c.id].payload
    && events[c.id].published == if run.head && j == run.from then [c.payload] else []
  }

  predicate StageOk(run: Run) {
    && run.from <= |run.claims|
    && (run.head ==> run.from < |run.claims| && run.claims[run.from].kind == START_EVENT)
    && match run.stage
       case ToClaim(_) => run.claims == [] && run.res == Result(0, 0, 0, 0) && !run.head
       case ToPublish => run.from < |run.claims| && run.claims[run.from].kind == START_EVENT && !run.head
       case ToMarkSent => run.from < |run.claims| && (run.head <==> run.claims[run.from].kind == START_EVENT)
       case ToPostpone(_) => run.from < |run.claims| && run.claims[run.from].kind == START_EVENT && !run.head
       case Ended(ok) => ok ==> run.from == |run.claims|
       case Died => true
  }

  predicate CountsOk(run: Run) {
    run.stage == Ended(false) || run.stage.Died?
    || (run.res.claimed == |run.claims| && run.res.sent + run.res.retried + run.res.skipped == run.from)
  }

  predicate RunOk(events: Events, r: nat, run: Run) {
    && StageOk(run) && CountsOk(run) && DistinctClaims(run.claims)
    && forall j :: run.from <= j < |run.claims| ==> HeldOk(events, r, run, j)
  }

  predicate OwnerOk(runs: map<nat, Run>, id: nat, e: Event) {
    e.status.Dispatching? ==> e.claimedBy.Some? && e.claimedBy.value in runs && Holds(runs[e.claimedBy.value], id)
  }

  predicate KeysDiffer(events: Events) {
    forall i, j :: i in events && j in events && i != j ==>
        events[i].kind != events[j].kind || events[i].key != events[j].key
  }

  predicate Inv(w: World) {
    && (forall id <- w.events :: id < w.nextEvent && EventOk(w.events[id], w.now) && OwnerOk(w.runs, id, w.events[id]))
    && (forall r <- w.runs :: r < w.nextRun && RunOk(w.events, r, w.runs[r]))
    && KeysDiffer(w.events)
  }

  // ---------------------------------------------------------------- every step keeps it

  /** An event other than the ones a run holds may change without the run noticing. */
  lemma OtherRunsKeep(w: World, r: nat, events': Events, changed: set<nat>)
    requires Inv(w)
    requires forall id <- w.events :: id in events' && (id !in changed ==> events'[id] == w.events[id])
    requires forall id <- changed :: id in w.events && (w.events[id].status.Dispatching? ==>
               w.events[id].claimedBy == Some(r))
    ensures forall o <- w.runs :: o != r ==> RunOk(events', o, w.runs[o])
  {
    forall o <- w.runs | o != r ensures RunOk(events', o, w.runs[o]) {
      forall j | w.runs[o].from <= j < |w.runs[o].claims| ensures HeldOk(events', o, w.runs[o], j) {
        assert HeldOk(w.events, o, w.runs[o], j);
      }
    }
  }

  lemma InsertKeeps(w: World, kind: string, key: string, payload: string)
    requires Inv(w)
    ensures Inv(Do(w, Insert(kind, key, payload)))
  {
    if !HasKey(w.events, kind, key) {
      var w' := Do(w, Insert(kind, key, payload));
      forall o <- w'.runs ensures RunOk(w'.events, o, w'.runs[o]) {
        forall j | w.runs[o].from <= j < |w.runs[o].claims| ensures HeldOk(w'.events, o, w.runs[o], j) {
          assert HeldOk(w.events, o, w.runs[o], j);
        }
      }
    }
  }

  lemma ClaimedEventOk(e: Event, now: int, run: nat)
    requires EventOk(e, now) && e.status.EventPending? && e.nextAt <= now
    ensures EventOk(Claimed(e, run), now)
  {
  }

  lemma PickedAreHeld(events: Events, now: int, r: nat, picked: seq<Claim>, run': Run)
    requires ClaimsAsRead(events, now, picked) && run'.claims == picked && run'.from == 0 && !run'.head
    requires forall id <- events :: EventOk(events[id], now)
    ensures forall j :: 0 <= j < |picked| ==> HeldOk(AfterClaim(events, Ids(picked), r), r, run', j)
    ensures forall id <- Ids(picked) :: Claimable(events, id, now) && Holds(run', id)
  {
    forall j | 0 <= j < |picked| ensures HeldOk(AfterClaim(events, Ids(picked), r), r, run', j) {
      assert picked[j] in picked && picked[j].id in Ids(picked);
      assert EventOk(events[picked[j].id], now);
    }
    forall id <- Ids(picked) ensures Claimable(events, id, now) && Holds(run', id) {
      var c :| c in picked && c.id == id;
      var j :| 0 <= j < |picked| && picked[j] == c;
      assert run'.claims[j].id == id;
    }
  }

  /** A run that has claimed nothing yet owns nothing. */
  lemma NothingOwnedYet(w: World, r: nat, id: nat)
    requires Inv(w) && r in w.runs && w.runs[r].claims == [] && id in w.events && w.events[id].status.Dispatching?
    ensures w.events[id].claimedBy != Some(r)
  {
    assert OwnerOk(w.runs, id, w.events[id]);
  }

  lemma ClaimedRowsOk(w: World, r: nat, picked: seq<Claim>, run': Run, id: nat)
    requires Inv(w) && r in w.runs && w.runs[r].claims == [] && id in w.events
    requires forall x <- Ids(picked) :: Claimable(w.events, x, w.now) && Holds(run', x)
    ensures var e' := AfterClaim(w.events, Ids(picked), r)[id];
            EventOk(e', w.now) && OwnerOk(w.runs[r := run'], id, e') && e'.kind == w.events[id].kind
                && e'.key == w.events[id].key
  {
    assert EventOk(w.events[id], w.now) && OwnerOk(w.runs, id, w.events[id]);
    if id in Ids(picked) {
      ClaimedEventOk(w.events[id], w.now, r);
    } else if w.events[id].status.Dispatching? {
      NothingOwnedYet(w, r, id);
    }
  }

  lemma ClaimKeeps(w: World, r: nat, picked: seq<Claim>, fate: Fate)
    requires Inv(w) && Enabled(w, ClaimBatch(r, picked, fate)) && !fate.Refuses?
    ensures Inv(Do(w, ClaimBatch(r, picked, fate)))
  {
    var w' := Do(w, ClaimBatch(r, picked, fate));
    var run' := RunAfterClaim(w.runs[r], picked, fate);
    assert RunOk(w.events, r, w.runs[r]);
    PickedAreHeld(w.events, w.now, r, picked, run');
    OtherRunsKeep(w, r, w'.events, Ids(picked));
    assert RunOk(w'.events, r, run');
    forall id <- w'.events
      ensures EventOk(w'.events[id], w.now) && OwnerOk(w'.runs, id, w'.events[id])
              && w'.events[id].kind == w.events[id].kind && w'.events[id].key == w.events[id].key
    {
      ClaimedRowsOk(w, r, picked, run', id);
    }
  }

  /** A step of a run that changes at most its next event. */
  lemma HeadStepKeeps(w: World, r: nat, run': Run, e': Event)
    requires Inv(w) && r in w.runs && w.runs[r].from < |w.runs[r].claims|
    requires var run := w.runs[r];
             var id := run.claims[run.from].id;
             && run'.claims == run.claims && StageOk(run') && CountsOk(run')
             && (run'.from == run.from || (run'.from == run.from + 1 && !run'.head))
             && id in w.events && EventOk(e', w.now)
             && e'.kind == w.events[id].kind && e'.key == w.events[id].key && e'.claimedBy == w.events[id].claimedBy
             && e'.payload == w.events[id].payload
             && (run'.from == run.from ==> e'.status.Dispatching? && e'.attempts == w.events[id].attempts
                                           && e'.published == if run'.head then [e'.payload] else [])
             && (run'.from > run.from ==> !e'.status.Dispatching?)
    ensures var id := w.runs[r].claims[w.runs[r].from].id;
            Inv(w.(events := w.events[id := e'], runs := w.runs[r := run']))
  {
    var run := w.runs[r];
    var id := run.claims[run.from].id;
    var events' := w.events[id := e'];
    var runs' := w.runs[r := run'];
    assert HeldOk(w.events, r, run, run.from);
    OtherRunsKeep(w, r, events', {id});
    forall j | run'.from <= j < |run'.claims| ensures HeldOk(events', r, run', j) {
      assert HeldOk(w.events, r, run, j);
    }
    forall x <- events' ensures OwnerOk(runs', x, events'[x]) {
      HeadOwners(w, r, run', x);
    }
  }

  /** Who held an event other than the head still does; the head is held until it is settled. */
  lemma HeadOwners(w: World, r: nat, run': Run, x: nat)
    requires r in w.runs && w.runs[r].from < |w.runs[r].claims| && run'.claims == w.runs[r].claims
    requires run'.from == w.runs[r].from || run'.from == w.runs[r].from + 1
    requires x in w.events && OwnerOk(w.runs, x, w.events[x])
    ensures x != w.runs[r].claims[w.runs[r].from].id ==> OwnerOk(w.runs[r := run'], x, w.events[x])
    ensures run'.from == w.runs[r].from ==> Holds(run', w.runs[r].claims[w.runs[r].from].id)
  {
    var run := w.runs[r];
    if run'.from == run.from {
      assert run'.claims[run.from].id == run.claims[run.from].id;
    }
    if x != run.claims[run.from].id && w.events[x].status.Dispatching? && w.events[x].claimedBy == Some(r) {
      assert Holds(run, x);
      var j :| run.from <= j < |run.claims| && run.claims[j].id == x;
      assert j != run.from;
      assert run'.from <= j < |run'.claims| && run'.claims[j].id == x;
    }
  }

  lemma SendKeeps(w: World, r: nat, reason: string, fate: Fate)
    requires Inv(w) && Enabled(w, Send(r, reason, fate))
    ensures Inv(Do(w, Send(r, reason, fate)))
  {
    var run := w.runs[r];
    var id := run.claims[run.from].id;
    assert HeldOk(w.events, r, run, run.from);
    var e := w.events[id];
    var e' := if fate.Works? then e.(published := e.published + [run.claims[run.from].payload]) else e;
    HeadStepKeeps(w, r, RunAfterSend(run, reason, fate), e');
    assert w.events[id := e] == w.events;
  }

  lemma PostponedOk(e: Event, now: int, reason: string)
    requires EventOk(e, now) && e.status.Dispatching? && e.published == []
    ensures EventOk(Postponed(e, reason, now + RetryAfterSeconds(e.attempts)), now)
  {
  }

  lemma MarkKeeps(w: World, r: nat, fate: Fate)
    requires Inv(w) && Enabled(w, Mark(r, fate))
    ensures Inv(Do(w, Mark(r, fate)))
  {
    var run := w.runs[r];
    var id := run.claims[run.from].id;
    assert HeldOk(w.events, r, run, run.from);
    var e := w.events[id];
    var after := if fate.Refuses? then w.events else EventsAfterMark(w.events, w.now, run);
    if run.stage.ToPostpone? { PostponedOk(e, w.now, run.stage.reason); }
    HeadStepKeeps(w, r, RunAfterMark(run, fate), after[id]);
    assert w.events[id := after[id]] == after;
  }

  /** A run that only changes its stage. */
  lemma StageChangeKeeps(w: World, r: nat, stage: Stage)
    requires Inv(w) && r in w.runs && (stage.Died? || stage == Ended(false))
    ensures Inv(w.(runs := w.runs[r := w.runs[r].(stage := stage)]))
  {
    var run := w.runs[r];
    var run' := run.(stage := stage);
    forall j | run'.from <= j < |run'.claims| ensures HeldOk(w.events, r, run', j) {
      assert HeldOk(w.events, r, run, j);
    }
    forall id <- w.events ensures OwnerOk(w.runs[r := run'], id, w.events[id]) {
      assert OwnerOk(w.runs, id, w.events[id]);
      if w.events[id].status.Dispatching? && w.events[id].claimedBy == Some(r) {
        assert Holds(run, id);
        var j :| run.from <= j < |run.claims| && run.claims[j].id == id;
        assert run'.from <= j < |run'.claims| && run'.claims[j].id == id;
      }
    }
  }

  lemma StepKeeps(w: World, e: Step)
    requires Inv(w) && Enabled(w, e)
    ensures Inv(Do(w, e))
  {
    match e
    case Insert(kind, key, payload) => InsertKeeps(w, kind, key, payload);
    case Tick(_) =>
    case Begin(_) =>
    case ClaimBatch(r, picked, fate) =>
      if fate.Refuses? { StageChangeKeeps(w, r, Ended(false)); } else { ClaimKeeps(w, r, picked, fate); }
    case Send(r, reason, fate) => SendKeeps(w, r, reason, fate);
    case Mark(r, fate) => MarkKeeps(w, r, fate);
    case Die(r) =>
      if w.runs[r].stage.Ended? {
        assert w.runs[r := w.runs[r].(stage := w.runs[r].stage)] == w.runs;
      } else {
        StageChangeKeeps(w, r, Died);
      }
  }

  lemma {:induction false} RunsKeep(w: World, steps: seq<Step>)
    requires Inv(w) && Legal(w, steps)
    ensures Inv(Exec(w, steps))
    decreases |steps|
  {
    if steps != [] {
      StepKeeps(w, steps[0]);
      RunsKeep(Do(w, steps[0]), steps[1..]);
    }
  }

  lemma ReachableOk(w: World)
    requires Reachable(w)
    ensures Inv(w)
  {
    var w0, steps :| Init(w0) && Legal(w0, steps) && w == Exec(w0, steps);
    RunsKeep(w0, steps);
  }

  // ---------------------------------------------------------------- what it means

  /** Ownership: an event is dispatching for a run if and only if that run holds it among its unsettled
      claims, so no event is held by two runs, which makes the unguarded updates safe. */
  lemma HeldExactlyByItsClaimer(w: World, id: nat, r: nat)
    requires Reachable(w) && r in w.runs
    ensures Holds(w.runs[r], id) <==>
              id in w.events && w.events[id].status.Dispatching? && w.events[id].claimedBy == Some(r)
    ensures forall o <- w.runs :: Holds(w.runs[r], id) && Holds(w.runs[o], id) ==> o == r
  {
    ReachableOk(w);
    HeldMeansClaimed(w, id, r);
    forall o <- w.runs | Holds(w.runs[r], id) && Holds(w.runs[o], id) ensures o == r {
      HeldMeansClaimed(w, id, o);
    }
    if id in w.events { assert OwnerOk(w.runs, id, w.events[id]); }
  }

  lemma HeldMeansClaimed(w: World, id: nat, r: nat)
    requires Inv(w) && r in w.runs
    ensures Holds(w.runs[r], id) ==>
              id in w.events && w.events[id].status.Dispatching? && w.events[id].claimedBy == Some(r)
  {
    if Holds(w.runs[r], id) {
      var j :| w.runs[r].from <= j < |w.runs[r].claims| && w.runs[r].claims[j].id == id;
      assert HeldOk(w.events, r, w.runs[r], j);
    }
  }

  /** The statement a run is about to make touches only an event it owns. */
  lemma MarksOnlyItsOwn(w: World, r: nat, fate: Fate)
    requires Reachable(w) && Enabled(w, Mark(r, fate))
    ensures var c := w.runs[r].claims[w.runs[r].from];
            && c.id in w.events && w.events[c.id].status.Dispatching? && w.events[c.id].claimedBy == Some(r)
            && (forall o <- w.runs :: o != r ==> !Holds(w.runs[o], c.id))
            && (forall x <- w.events :: x != c.id ==>
                x in Do(w, Mark(r, fate)).events && Do(w, Mark(r, fate)).events[x] == w.events[x])
  {
    ReachableOk(w);
    var run := w.runs[r];
    assert HeldOk(w.events, r, run, run.from);
    assert Holds(run, run.claims[run.from].id);
    HeldExactlyByItsClaimer(w, run.claims[run.from].id, r);
  }

  /** A sent start event was published once, with the very payload it was inserted with, and no event has two
      publishes that were answered with success. */
  lemma SentWasPublishedOnce(w: World)
    requires Reachable(w)
    ensures forall id <- w.events :: w.events[id].published == [] || w.events[id].published == [w.events[id].payload]
    ensures forall id <- w.events :: w.events[id].status.Sent? && w.events[id].kind == START_EVENT ==>
              w.events[id].published == [w.events[id].payload]
    ensures forall id <- w.events :: w.events[id].published != [] ==> w.events[id].kind == "upload_process_start"
  {
    ReachableOk(w);
    forall id <- w.events
      ensures w.events[id].published == [] || w.events[id].published == [w.events[id].payload]
      ensures w.events[id].published != [] ==> w.events[id].kind == START_EVENT
    {
      var e := w.events[id];
      assert EventOk(e, w.now) && OwnerOk(w.runs, id, e);
      if e.status.Dispatching? {
        var run := w.runs[e.claimedBy.value];
        var j :| run.from <= j < |run.claims| && run.claims[j].id == id;
        assert HeldOk(w.events, e.claimedBy.value, run, j);
      }
    }
  }

  /** What a step never changes of a row: its kind, its key, its payload and when it was created. */
  lemma ContentStays(w: World, e: Step, id: nat)
    requires Reachable(w) && Enabled(w, e) && id in w.events
    ensures var after := Do(w, e).events;
            && id in after && after[id].kind == w.events[id].kind && after[id].key == w.events[id].key
            && after[id].payload == w.events[id].payload && after[id].createdAt == w.events[id].createdAt
  {
    ReachableOk(w);
    assert id < w.nextEvent;
  }

  // ---------------------------------------------------------------- what a run counts

  /** The events a run has sent, by whether they were published. */
  function SentBy(events: Events, r: nat, published: bool): set<nat> {
    set id | id in events && events[id].status.Sent? && events[id].claimedBy == Some(r)
             && (events[id].kind == "upload_process_start") == published
  }

  /** The counts of a run whose every settlement was answered. */
  predicate Exact(events: Events, r: nat, run: Run) {
    run.stage == Ended(false)
    || (|SentBy(events, r, true)| == run.res.sent && |SentBy(events, r, false)| == run.res.skipped)
  }

  predicate ClaimedIn(runs: map<nat, Run>, e: Event) {
    e.claimedBy.Some? ==> e.claimedBy.value in runs && !runs[e.claimedBy.value].stage.ToClaim?
  }

  predicate ExactInv(w: World) {
    && (forall id <- w.events :: ClaimedIn(w.runs, w.events[id]))
    && (forall r <- w.runs :: Exact(w.events, r, w.runs[r]))
  }

  /** Rows that are not sent, before or after, may change without any count noticing. */
  lemma SentByStays(a: Events, b: Events, r: nat, published: bool)
    requires forall id :: id in a && a[id].status.Sent? ==>
               id in b && b[id].status.Sent? && b[id].claimedBy == a[id].claimedBy && b[id].kind == a[id].kind
    requires forall id :: id in b && b[id].status.Sent? ==> id in a && a[id].status.Sent?
    ensures SentBy(b, r, published) == SentBy(a, r, published)
  {
  }

  lemma OneMoreSent(events: Events, id: nat, r: nat, o: nat, published: bool)
    requires id in events && events[id].status.Dispatching? && events[id].claimedBy == Some(r)
    ensures var after := AfterSent(events, id);
            |SentBy(after, o, published)|
            == |SentBy(events, o, published)|
               + (if o == r && published == (events[id].kind == "upload_process_start") then 1 else 0)
  {
    var after := AfterSent(events, id);
    assert id !in SentBy(events, o, published);
    if o == r && published == (events[id].kind == "upload_process_start") {
      assert SentBy(after, o, published) == SentBy(events, o, published) + {id};
    } else {
      assert SentBy(after, o, published) == SentBy(events, o, published);
    }
  }

  lemma MarkIsCounted(w: World, r: nat, fate: Fate)
    requires Inv(w) && ExactInv(w) && Enabled(w, Mark(r, fate))
    ensures ExactInv(Do(w, Mark(r, fate)))
  {
    var run := w.runs[r];
    var id := run.claims[run.from].id;
    var after := Do(w, Mark(r, fate));
    assert HeldOk(w.events, r, run, run.from);
    forall o <- after.runs ensures Exact(after.events, o, after.runs[o]) {
      assert Exact(w.events, o, w.runs[o]);
      if !fate.Refuses? {
        SettlingCounts(w.events, w.now, r, run, o);
      }
    }
  }

  /** Settling the next event moves the counts of its own run by as much as it reports, and no other's. */
  lemma SettlingCounts(events: Events, now: int, r: nat, run: Run, o: nat)
    requires run.from < |run.claims|
    requires HeldOk(events, r, run, run.from)
    ensures var after := EventsAfterMark(events, now, run);
            && |SentBy(after, o, true)|
               == |SentBy(events, o, true)| + (if o == r then Counted(run).sent - run.res.sent else 0)
            && |SentBy(after, o, false)|
               == |SentBy(events, o, false)| + (if o == r then Counted(run).skipped - run.res.skipped else 0)
  {
    var id := run.claims[run.from].id;
    var after := EventsAfterMark(events, now, run);
    if run.stage.ToPostpone? {
      SentByStays(events, after, o, true);
      SentByStays(events, after, o, false);
    } else {
      OneMoreSent(events, id, r, o, true);
      OneMoreSent(events, id, r, o, false);
    }
  }

  lemma ClaimIsCounted(w: World, r: nat, picked: seq<Claim>, fate: Fate)
    requires Inv(w) && ExactInv(w) && Enabled(w, ClaimBatch(r, picked, fate))
    ensures ExactInv(Do(w, ClaimBatch(r, picked, fate)))
  {
    var after := Do(w, ClaimBatch(r, picked, fate));
    forall id | id in Ids(picked) ensures id in w.events && w.events[id].status.EventPending? {
      var c :| c in picked && c.id == id;
      assert Claimable(w.events, c.id, w.now);
    }
    forall o <- after.runs ensures Exact(after.events, o, after.runs[o]) {
      assert Exact(w.events, o, w.runs[o]);
      SentByStays(w.events, after.events, o, true);
      SentByStays(w.events, after.events, o, false);
      if o == r {
        assert RunOk(w.events, r, w.runs[r]);
      }
    }
  }

  lemma OtherIsCounted(w: World, e: Step)
    requires Inv(w) && ExactInv(w) && Enabled(w, e) && (e.Insert? || e.Tick? || e.Send? || e.Die?)
    ensures ExactInv(Do(w, e))
  {
    var after := Do(w, e);
    forall o <- after.runs ensures Exact(after.events, o, after.runs[o]) {
      assert Exact(w.events, o, w.runs[o]);
      SentByStays(w.events, after.events, o, true);
      SentByStays(w.events, after.events, o, false);
    }
  }

  lemma BeginIsCounted(w: World, limit: int)
    requires Inv(w) && ExactInv(w)
    ensures ExactInv(Do(w, Begin(limit)))
  {
    var r := w.nextRun;
    assert r !in w.runs;
    assert SentBy(w.events, r, true) == {} && SentBy(w.events, r, false) == {} by {
      forall id <- w.events ensures w.events[id].claimedBy != Some(r) {
        assert ClaimedIn(w.runs, w.events[id]);
      }
    }
  }

  lemma StepIsCounted(w: World, e: Step)
    requires Inv(w) && ExactInv(w) && Enabled(w, e)
    ensures ExactInv(Do(w, e))
  {
    match e
    case Mark(r, fate) => MarkIsCounted(w, r, fate);
    case ClaimBatch(r, picked, fate) => ClaimIsCounted(w, r, picked, fate);
    case Begin(limit) => BeginIsCounted(w, limit);
    case _ => OtherIsCounted(w, e);
  }

  lemma {:induction false} RunsAreCounted(w: World, steps: seq<Step>)
    requires Inv(w) && ExactInv(w) && Legal(w, steps)
    ensures ExactInv(Exec(w, steps))
    decreases |steps|
  {
    if steps != [] {
      StepKeeps(w, steps[0]);
      StepIsCounted(w, steps[0]);
      RunsAreCounted(Do(w, steps[0]), steps[1..]);
    }
  }

  /** What a run reports is what it did: unless it has ended with an error, its `sent` is the number of start
      events it published and marked sent, its `skipped` the number of other events it marked sent, and its
      `retried` all else that it has settled. */
  lemma CountsAreExact(w: World, r: nat)
    requires Reachable(w) && r in w.runs && w.runs[r].stage != Ended(false)
    ensures var run := w.runs[r];
            && run.res.sent == |SentBy(w.events, r, true)| && run.res.skipped == |SentBy(w.events, r, false)|
            && (!run.stage.Died? ==> run.res.retried == run.from - run.res.sent - run.res.skipped)
  {
    var w0, steps :| Init(w0) && Legal(w0, steps) && w == Exec(w0, steps);
    RunsAreCounted(w0, steps);
    RunsKeep(w0, steps);
    assert Exact(w.events, r, w.runs[r]) && RunOk(w.events, r, w.runs[r]);
  }

  // ---------------------------------------------------------------- what a run leaves

  /** After a failed publish the event waits exactly as long as its attempts ask for, and says what failed. */
  lemma PostponedExactly(w: World, r: nat, fate: Fate)
    requires Reachable(w) && Enabled(w, Mark(r, fate)) && w.runs[r].stage.ToPostpone? && !fate.Refuses?
    ensures var id := w.runs[r].claims[w.runs[r].from].id;
            var after := Do(w, Mark(r, fate)).events;
            && id in w.events && id in after
            && after[id].status.EventPending? && after[id].attempts == w.events[id].attempts
            && after[id].lastError == Some(w.runs[r].stage.reason)
            && after[id].nextAt == w.now + RetryAfterSeconds(w.events[id].attempts)
  {
    ReachableOk(w);
    assert HeldOk(w.events, r, w.runs[r], w.runs[r].from);
  }

  /** One row per event kind and key, however often it is inserted. */
  lemma OneEventPerKey(w: World, i: nat, j: nat)
    requires Reachable(w) && i in w.events && j in w.events
    requires w.events[i].kind == w.events[j].kind && w.events[i].key == w.events[j].key
    ensures i == j
  {
    ReachableOk(w);
  }

  /** A run that ends without an error has settled all it claimed: the counts add up, and none of its events
      is left dispatching. */
  lemma CleanRunSettlesAll(w: World, r: nat)
    requires Reachable(w) && r in w.runs && w.runs[r].stage == Ended(true)
    ensures var res := w.runs[r].res; res.claimed == |w.runs[r].claims| == res.sent + res.retried + res.skipped
    ensures forall id <- w.events :: !(w.events[id].status.Dispatching? && w.events[id].claimedBy == Some(r))
  {
    ReachableOk(w);
    assert RunOk(w.events, r, w.runs[r]);
    forall id <- w.events ensures !(w.events[id].status.Dispatching? && w.events[id].claimedBy == Some(r)) {
      HeldExactlyByItsClaimer(w, id, r);
    }
  }

  function Rest(run: Run): set<nat>
  {
    set j | 0 <= j < |run.claims| && j >= run.from :: run.claims[j].id
  }

  /** A run that ends with an error, or dies, leaves dispatching exactly the rest of its claims: the event
      whose settling did not happen and the unprocessed tail. */
  lemma ErrorStrandsTheRest(w: World, r: nat)
    requires Reachable(w) && r in w.runs
    ensures forall id :: id in Rest(w.runs[r]) <==>
              id in w.events && w.events[id].status.Dispatching? && w.events[id].claimedBy == Some(r)
  {
    forall id ensures id in Rest(w.runs[r]) <==>
        id in w.events && w.events[id].status.Dispatching? && w.events[id].claimedBy == Some(r) {
      HeldExactlyByItsClaimer(w, id, r);
      assert id in Rest(w.runs[r]) <==> Holds(w.runs[r], id);
    }
  }

  /** Where an error ends a run: with a refused mark its event stays among the rest; when only the answer
      was lost, it is settled. */
  lemma ErrorEndsHere(w: World, r: nat, fate: Fate)
    requires Reachable(w) && Enabled(w, Mark(r, fate)) && !fate.Works?
    ensures var run, run' := w.runs[r], Do(w, Mark(r, fate)).runs[r];
            && run'.stage == Ended(false) && run'.claims == run.claims
            && (run.claims[run.from].id in Rest(run') <==> fate.Refuses?)
            && (forall j :: run.from < j < |run.claims| ==> run.claims[j].id in Rest(run'))
  {
    ReachableOk(w);
    assert RunOk(w.events, r, w.runs[r]);
  }

  /** Nobody picks stranded events up again: what a finished or dead run leaves dispatching stays so for
      ever. */
  lemma {:induction false} StrandedForever(w: World, r: nat, id: nat, steps: seq<Step>)
    requires Inv(w) && Legal(w, steps) && r in w.runs && (w.runs[r].stage.Ended? || w.runs[r].stage.Died?)
    requires Holds(w.runs[r], id)
    ensures var after := Exec(w, steps);
            id in w.events && id in after.events && after.events[id] == w.events[id]
                && after.events[id].status.Dispatching?
    decreases |steps|
  {
    HeldMeansClaimed(w, id, r);
    if steps != [] {
      StepKeeps(w, steps[0]);
      StrandedStep(w, r, id, steps[0]);
      StrandedForever(Do(w, steps[0]), r, id, steps[1..]);
    }
  }

  predicate IsSettled(w: World, id: nat) {
    id in w.events && !w.events[id].status.Dispatching?
  }

  /** Some continuation takes the event out of dispatching. */
  ghost predicate CanBeSettled(w: World, id: nat) {
    exists steps :: Legal(w, steps) && IsSettled(Exec(w, steps), id)
  }

  predicate Alive(run: Run) {
    !run.stage.Ended? && !run.stage.Died?
  }

  predicate ClaimerAlive(w: World, id: nat)
    requires id in w.events
  {
    var claimer := w.events[id].claimedBy;
    claimer.Some? && claimer.value in w.runs && Alive(w.runs[claimer.value])
  }

  lemma SettledNow(w: World, id: nat)
    requires IsSettled(w, id)
    ensures CanBeSettled(w, id)
  {
    assert Legal(w, []) && Exec(w, []) == w;
  }

  lemma OneStepBefore(w: World, e: Step, id: nat)
    requires Enabled(w, e) && CanBeSettled(Do(w, e), id)
    ensures CanBeSettled(w, id)
  {
    var steps :| Legal(Do(w, e), steps) && IsSettled(Exec(Do(w, e), steps), id);
    assert ([e] + steps)[1..] == steps;
    assert Legal(w, [e] + steps) && Exec(w, [e] + steps) == Exec(Do(w, e), steps);
  }

  /** A run at its next event can publish it, if it has to, and mark it. */
  lemma MarkSettles(w: World, r: nat)
    requires Inv(w) && Enabled(w, Mark(r, Works))
    ensures var run := w.runs[r];
            var after := Do(w, Mark(r, Works));
            && IsSettled(after, run.claims[run.from].id)
            && after.runs[r].claims == run.claims && after.runs[r].from == run.from + 1
            && (run.from + 1 < |run.claims| ==> Alive(after.runs[r]))
  {
    assert HeldOk(w.events, r, w.runs[r], w.runs[r].from);
  }

  /** A run that is alive works through its claims up to the j-th. */
  lemma {:induction false} AliveSettles(w: World, r: nat, j: nat)
    requires Inv(w) && r in w.runs && Alive(w.runs[r]) && w.runs[r].from <= j < |w.runs[r].claims|
    ensures CanBeSettled(w, w.runs[r].claims[j].id)
    decreases j - w.runs[r].from, if w.runs[r].stage.ToPublish? then 1 else 0
  {
    var run := w.runs[r];
    var id := run.claims[j].id;
    assert RunOk(w.events, r, run);
    if run.stage.ToPublish? {
      StepKeeps(w, Send(r, "", Works));
      AliveSettles(Do(w, Send(r, "", Works)), r, j);
      OneStepBefore(w, Send(r, "", Works), id);
    } else {
      MarkSettles(w, r);
      StepKeeps(w, Mark(r, Works));
      if run.from == j {
        SettledNow(Do(w, Mark(r, Works)), id);
      } else {
        AliveSettles(Do(w, Mark(r, Works)), r, j);
      }
      OneStepBefore(w, Mark(r, Works), id);
    }
  }

  /** A dispatching event can still be sent or put back if and only if the run that claimed it is neither ended
      nor dead. */
  lemma StrandedExactlyWhen(w: World, id: nat)
    requires Reachable(w) && id in w.events && w.events[id].status.Dispatching?
    ensures CanBeSettled(w, id) <==> ClaimerAlive(w, id)
  {
    ReachableOk(w);
    assert OwnerOk(w.runs, id, w.events[id]);
    var r := w.events[id].claimedBy.value;
    if ClaimerAlive(w, id) {
      var j :| w.runs[r].from <= j < |w.runs[r].claims| && w.runs[r].claims[j].id == id;
      AliveSettles(w, r, j);
    } else {
      forall steps | Legal(w, steps) ensures !IsSettled(Exec(w, steps), id) {
        StrandedForever(w, r, id, steps);
      }
    }
  }

  /** Such a state is reached when a dispatcher dies after its claim: the start event is never sent. */
  lemma EventIsStranded(key: string)
    ensures exists w, id :: Reachable(w) && id in w.events && w.events[id].key == key && w.events[id].published == []
                            && !CanBeSettled(w, id)
  {
    var w0 := World(0, map[], 0, map[], 0);
    var claim := Claim(0, START_EVENT, "", 1);
    assert Init(w0) && Legal(w0, []) && Exec(w0, []) == w0;
    ReachableStep(w0, Insert(START_EVENT, key, ""));
    var w1 := Do(w0, Insert(START_EVENT, key, ""));
    ReachableStep(w1, Begin(1));
    var w2 := Do(w1, Begin(1));
    assert Claimable(w2.events, 0, 0);
    ReachableStep(w2, ClaimBatch(0, [claim], Works));
    var w3 := Do(w2, ClaimBatch(0, [claim], Works));
    assert claim.id in Ids([claim]) by { assert claim in [claim]; }
    assert w3.events[0] == Claimed(w2.events[0], 0);
    ReachableStep(w3, Die(0));
    var w4 := Do(w3, Die(0));
    StrandedExactlyWhen(w4, 0);
    assert !CanBeSettled(w4, 0);
  }

  lemma StrandedStep(w: World, r: nat, id: nat, e: Step)
    requires Inv(w) && Enabled(w, e) && r in w.runs && (w.runs[r].stage.Ended? || w.runs[r].stage.Died?)
               && Holds(w.runs[r], id)
    ensures var after := Do(w, e);
            && id in w.events && id in after.events && after.events[id] == w.events[id]
            && r in after.runs && (after.runs[r].stage.Ended? || after.runs[r].stage.Died?) && Holds(after.runs[r], id)
  {
    HeldMeansClaimed(w, id, r);
    var j :| w.runs[r].from <= j < |w.runs[r].claims| && w.runs[r].claims[j].id == id;
    match e
    case ClaimBatch(o, picked, _) =>
      forall c <- picked ensures c.id != id {
        assert Claimable(w.events, c.id, w.now);
      }
    case Send(o, _, _) => assert HeldOk(w.events, o, w.runs[o], w.runs[o].from);
    case Mark(o, _) => assert HeldOk(w.events, o, w.runs[o], w.runs[o].from);
    case Die(o) => assert Do(w, e).runs[r].claims[j].id == id;
    case _ =>
  }

  /** Backoff: a pending event that failed k times is not due before its creation plus the sum of the first
      k delays: 2^k - 1 seconds up to nine failures, then 256 more for each. */
  lemma BackoffBound(w: World, id: nat)
    requires Reachable(w) && id in w.events && w.events[id].status.EventPending?
    ensures var e := w.events[id];
            && e.attempts == e.failures
            && e.nextAt >= e.createdAt + (if e.failures <= 9 then Power2(e.failures) - 1
                else 511 + 256 * (e.failures - 9))
  {
    ReachableOk(w);
    BackoffClosedForm(w.events[id].failures);
  }
}
