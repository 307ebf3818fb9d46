/** Whether a processing step can still be settled: exactly when something carries it on. */
module Recovery {
  import opened Basics
  import opened StepTable
  import opened Pipeline
  import opened PipelineInvariant
  import opened PipelineSteps
  import opened PipelineTheorems
  import opened Sessions

  // ---------------------------------------------------------------- what carries a step on

  /** The messages that can settle the row of `st`. */
  predicate Settles(msg: Msg, st: StepName) {
    msg == TriggerMsg(st) || msg == ResultMsg(st, Done)
  }

  predicate AboutToSend(pc: Pc, st: StepName) {
    (pc.Sending? && pc.k < |INITIAL_STEPS| && INITIAL_STEPS[pc.k] == st) || pc == SendingNext(st)
  }

  /** What carries `st` on: its trigger or done result on a live queue, or in a hand that has not acked it, a
      worker about to fail the row, or an orchestrator about to publish the trigger. */
  predicate Carries(item: Item, st: StepName) {
    match item
    case Queued(place, msg, _) => !place.Dlq? && Settles(msg, st)
    case Hand(msg, _, acked, pc) => (Settles(msg, st) && (!acked || pc == Failing(st))) || AboutToSend(pc, st)
    case Finalizer(_) => false
  }

  predicate SomeoneCarries(items: map<nat, Item>, st: StepName) {
    exists i :: i in items && Carries(items[i], st)
  }

  predicate Undecided(rows: StepRows, st: StepName) {
    Is(rows, st, Processing) || Is(rows, st, Canceled)
  }

  // ---------------------------------------------------------------- what an acked hand still does

  /** Only a failure report goes on after the ack. */
  predicate AckedLast(h: Item)
    requires h.Hand?
  {
    h.acked ==> h.pc.Failing? || h.pc.FailingUpload? || h.pc.ReportingFailed?
  }

  predicate AckedOk(items: map<nat, Item>) {
    forall i <- items :: items[i].Hand? ==> AckedLast(items[i])
  }

  lemma AckedHand(cfg: Config, sh: Shared, me: nat, h: Item, ch: Choice)
    requires h.Hand? && AckedLast(h) && (ch.skipClose ==> h.pc.Closing?)
    ensures var h' := StepHand(cfg, sh, me, h, ch).1; h'.pc.Gone? || AckedLast(h')
  {
    if !ch.skipClose {
      AckedResume(cfg, sh.vid, h, Effect(sh, me, NextCall(cfg, sh.vid, h), ch).1);
    }
  }

  lemma AckedResume(cfg: Config, vid: string, h: Item, r: Resp)
    requires h.Hand? && AckedLast(h)
    ensures h.acked || NextCall(cfg, vid, h).AckMessage? ==>
              var pc := Resume(cfg, h, r); pc.Gone? || pc.Failing? || pc.FailingUpload? || pc.ReportingFailed?
  {
  }

  lemma AckedItem(items: map<nat, Item>, i: nat, item: Item)
    requires AckedOk(items) && (item.Hand? ==> AckedLast(item))
    ensures AckedOk(items[i := item]) && AckedOk(items - {i})
  {
  }

  lemma AckedRun(cfg: Config, s: State, i: nat, ch: Choice)
    requires Enabled(cfg, s, Run(i, ch)) && AckedOk(s.items)
    ensures AckedOk(Do(cfg, s, Run(i, ch)).items)
  {
    AckedHand(cfg, s.shared, i, s.items[i], ch);
    SentIsQueued(cfg, s.shared, s.items[i], ch);
    AckedSettles(cfg, s, i, ch);
  }

  lemma AckedSettles(cfg: Config, s: State, i: nat, ch: Choice)
    requires Enabled(cfg, s, Run(i, ch)) && AckedOk(s.items)
    requires var h' := StepHand(cfg, s.shared, i, s.items[i], ch).1; h'.pc.Gone? || AckedLast(h')
    requires var copy := StepCopy(cfg, s.shared, s.items[i], ch); copy.Some? ==> copy.value.Queued?
    ensures AckedOk(Do(cfg, s, Run(i, ch)).items)
  {
  }

  lemma AckedStep(cfg: Config, s: State, a: Action)
    requires Enabled(cfg, s, a) && AckedOk(s.items)
    ensures AckedOk(Do(cfg, s, a).items)
  {
    match a
    case Run(i, ch) => AckedRun(cfg, s, i, ch);
    case Crash(i) =>
      if s.items[i].Hand? {
        AckedItem(s.items, i, Queued(Main, s.items[i].msg, s.items[i].retries));
      } else {
        AckedItem(s.items, i, s.items[i]);
      }
    case Deliver(i) =>
      var q := s.items[i];
      AckedItem(s.items, i, Hand(q.msg, q.retries, false, InitialPc(q.msg)));
    case _ =>
  }

  lemma {:induction false} AckedRuns(cfg: Config, s: State, acts: seq<Action>)
    requires Legal(cfg, s, acts) && AckedOk(s.items)
    ensures AckedOk(Exec(cfg, s, acts).items)
    decreases |acts|
  {
    if acts != [] {
      AckedStep(cfg, s, acts[0]);
      AckedRuns(cfg, Do(cfg, s, acts[0]), acts[1..]);
    }
  }

  lemma ReachableAcked(cfg: Config, s: State)
    requires Reachable(cfg, s)
    ensures AckedOk(s.items)
  {
    var s0, acts :| Init(s0) && Legal(cfg, s0, acts) && s == Exec(cfg, s0, acts);
    AckedRuns(cfg, s0, acts);
  }

  // ---------------------------------------------------------------- without a carrier

  /** Anything with the step's messages, acked or not, or about to publish its trigger. */
  predicate Trace(h: Item, st: StepName)
    requires h.Hand?
  {
    Settles(h.msg, st) || AboutToSend(h.pc, st)
  }

  /** Without a trace, a hand's next update of the row can only be the cancel loop's, or a claim that comes too
      late; and it publishes neither the trigger nor a done result. */
  lemma TracelessCalls(cfg: Config, sh: Shared, me: nat, h: Item, st: StepName)
    requires h.Hand? && !Trace(h, st) && PcOk(cfg, sh, me, h.msg, h.pc)
    ensures var call := NextCall(cfg, sh.vid, h);
            && (call.UpdateStep? && call.step == st ==> call.target.Canceled? || call.target.Processing?)
            && call != SendTrigger(st) && call != SendResult(st, Done)
  {
  }

  /** What an update leaves of the rows, and what its answer tells. */
  lemma UpdateLeaves(sh: Shared, me: nat, step: StepName, target: Status, ch: Choice)
    ensures var (sh', r) := Effect(sh, me, UpdateStep(step, target), ch);
            && (sh'.rows == sh.rows || (Applies(sh.rows, step, target) && sh'.rows == sh.rows[step := target]))
            && (r == Outcome(true) ==> Applies(sh.rows, step, target))
  {
  }

  lemma StuckUpdate(sh: Shared, me: nat, step: StepName, target: Status, ch: Choice, st: StepName)
    requires Undecided(sh.rows, st)
    requires step == st ==> target.Canceled? || target.Processing?
    ensures var (sh', r) := Effect(sh, me, UpdateStep(step, target), ch);
            && Undecided(sh'.rows, st)
            && (Is(sh.rows, st, Canceled) ==> Is(sh'.rows, st, Canceled))
            && (step == st && target.Processing? ==> r != Outcome(true))
  {
    UpdateLeaves(sh, me, step, target, ch);
  }

  lemma StuckEffect(sh: Shared, me: nat, call: Call, ch: Choice, st: StepName)
    requires Undecided(sh.rows, st)
    requires call.UpdateStep? && call.step == st ==> call.target.Canceled? || call.target.Processing?
    ensures var (sh', r) := Effect(sh, me, call, ch);
            && Undecided(sh'.rows, st)
            && (Is(sh.rows, st, Canceled) ==> Is(sh'.rows, st, Canceled))
            && (call == UpdateStep(st, Processing) ==> r != Outcome(true))
  {
    if call.UpdateStep? {
      StuckUpdate(sh, me, call.step, call.target, ch, st);
    } else if !call.InsertStep? {
      OtherCallsKeepRows(sh, me, call, ch);
    }
  }

  lemma TracelessResume(cfg: Config, vid: string, h: Item, r: Resp, st: StepName)
    requires h.Hand? && !Trace(h, st)
    requires NextCall(cfg, vid, h) == UpdateStep(st, Processing) ==> r != Outcome(true)
    requires h.pc.Triggering? ==> h.pc.k < |INITIAL_STEPS|
    ensures !Trace(h.(pc := Resume(cfg, h, r)), st)
  {
    var pc := Resume(cfg, h, r);
    HandlersStayApart(cfg, h, r);
    if pc.Sending? {
      assert h.pc.Triggering? && r == Outcome(true) && pc.k == h.pc.k;
    } else if pc.SendingNext? {
      assert h.pc == TriggeringNext(pc.step) && r == Outcome(true);
    }
  }

  lemma TracelessCopy(call: Call, msg: Msg, retries: nat, st: StepName)
    requires call != SendTrigger(st) && call != SendResult(st, Done)
    requires !Settles(msg, st)
    ensures var copy := SentCopy(call, msg, retries); copy.Some? ==> !Carries(copy.value, st)
  {
  }

  lemma StuckHand(cfg: Config, sh: Shared, me: nat, h: Item, ch: Choice, st: StepName)
    requires h.Hand? && !Trace(h, st) && PcOk(cfg, sh, me, h.msg, h.pc) && !(ch.skipClose && h.pc.Closing?)
    requires Undecided(sh.rows, st)
    ensures var (sh', h') := StepHand(cfg, sh, me, h, ch);
            && Undecided(sh'.rows, st)
            && (Is(sh.rows, st, Canceled) ==> Is(sh'.rows, st, Canceled))
            && !Trace(h', st)
    ensures var copy := StepCopy(cfg, sh, h, ch); copy.Some? ==> !Carries(copy.value, st)
  {
    var call := NextCall(cfg, sh.vid, h);
    TracelessCalls(cfg, sh, me, h, st);
    StuckEffect(sh, me, call, ch, st);
    TracelessResume(cfg, sh.vid, h, Effect(sh, me, call, ch).1, st);
    TracelessCopy(call, h.msg, h.retries, st);
  }

  /** A failure report that has acked its dead letter and found the row's update refused only marks the upload
      and is gone. */
  lemma SpentHand(cfg: Config, sh: Shared, me: nat, h: Item, ch: Choice, st: StepName)
    requires h.Hand? && Settles(h.msg, st) && !Carries(h, st) && AckedLast(h) && PcOk(cfg, sh, me, h.msg, h.pc)
    requires Undecided(sh.rows, st) && !ch.skipClose
    ensures h.pc == FailingUpload(false)
    ensures var (sh', h') := StepHand(cfg, sh, me, h, ch);
            sh'.rows == sh.rows && h'.pc.Gone? && h'.acked && !Carries(h', st)
    ensures StepCopy(cfg, sh, h, ch) == None
  {
    assert h.acked && h.pc != Failing(st);
    assert h.pc == FailingUpload(false);
    assert NextCall(cfg, sh.vid, h) == SetUpload(UploadFailed);
  }

  lemma CarrierlessSettles(cfg: Config, s: State, i: nat, ch: Choice, st: StepName)
    requires Enabled(cfg, s, Run(i, ch)) && !SomeoneCarries(s.items, st)
    requires !Carries(StepHand(cfg, s.shared, i, s.items[i], ch).1, st)
    requires var copy := StepCopy(cfg, s.shared, s.items[i], ch); copy.Some? ==> !Carries(copy.value, st)
    ensures var after := Do(cfg, s, Run(i, ch));
            !SomeoneCarries(after.items, st) && after.shared == StepHand(cfg, s.shared, i, s.items[i], ch).0
  {
    var after := Do(cfg, s, Run(i, ch));
    forall j | j in after.items ensures !Carries(after.items[j], st) {
      if j in s.items { assert !Carries(s.items[j], st); }
    }
  }

  /** A worker that leaves its own update out carries its own step and no other. */
  lemma CarrierlessSkips(cfg: Config, sh: Shared, me: nat, h: Item, ch: Choice, st: StepName)
    requires h.Hand? && !Carries(h, st) && AckedLast(h) && ch.skipClose && h.pc.Closing?
    ensures StepHand(cfg, sh, me, h, ch) == (sh, h.(pc := Reporting(h.pc.step)))
    ensures !Carries(h.(pc := Reporting(h.pc.step)), st) && StepCopy(cfg, sh, h, ch) == None
  {
  }

  lemma CarrierlessHand(cfg: Config, sh: Shared, me: nat, h: Item, ch: Choice, st: StepName)
    requires h.Hand? && !Carries(h, st) && AckedLast(h) && PcOk(cfg, sh, me, h.msg, h.pc) && Undecided(sh.rows, st)
    requires ch.skipClose ==> h.pc.Closing?
    ensures var (sh', h') := StepHand(cfg, sh, me, h, ch);
            && Undecided(sh'.rows, st) && (Is(sh.rows, st, Canceled) ==> Is(sh'.rows, st, Canceled))
            && !Carries(h', st)
    ensures var copy := StepCopy(cfg, sh, h, ch); copy.Some? ==> !Carries(copy.value, st)
  {
    if ch.skipClose {
      CarrierlessSkips(cfg, sh, me, h, ch, st);
    } else if Settles(h.msg, st) {
      SpentHand(cfg, sh, me, h, ch, st);
    } else {
      StuckHand(cfg, sh, me, h, ch, st);
    }
  }

  /** The row is undecided and nothing carries it. */
  predicate Stuck(s: State, st: StepName) {
    Undecided(s.shared.rows, st) && !SomeoneCarries(s.items, st)
  }

  lemma StuckRun(cfg: Config, s: State, i: nat, ch: Choice, st: StepName)
    requires Inv(cfg, s) && AckedOk(s.items) && Enabled(cfg, s, Run(i, ch)) && Stuck(s, st)
    ensures Stuck(Do(cfg, s, Run(i, ch)), st)
  {
    var h := s.items[i];
    assert ItemOk(cfg, s.shared, i, h) && !Carries(h, st);
    CarrierlessHand(cfg, s.shared, i, h, ch, st);
    CarrierlessSettles(cfg, s, i, ch, st);
  }

  lemma CarrierlessItem(items: map<nat, Item>, i: nat, item: Item, st: StepName)
    requires !SomeoneCarries(items, st) && !Carries(item, st)
    ensures !SomeoneCarries(items[i := item], st) && !SomeoneCarries(items - {i}, st)
  {
    var with := items[i := item];
    forall j | j in with ensures !Carries(with[j], st) {
      if j != i { assert !Carries(items[j], st); }
    }
    var rest := items - {i};
    forall j | j in rest ensures !Carries(rest[j], st) {
      assert !Carries(items[j], st);
    }
  }

  lemma StuckQueue(cfg: Config, s: State, a: Action, st: StepName)
    requires Enabled(cfg, s, a) && (a.Deliver? || a.Elapse? || a.Crash?) && !SomeoneCarries(s.items, st)
    ensures !SomeoneCarries(Do(cfg, s, a).items, st) && Do(cfg, s, a).shared == s.shared
  {
    assert !Carries(s.items[a.i], st);
    match a
    case Deliver(i) =>
      var q := s.items[i];
      CarrierlessItem(s.items, i, Hand(q.msg, q.retries, false, InitialPc(q.msg)), st);
    case Elapse(i) => CarrierlessItem(s.items, i, s.items[i].(place := Main), st);
    case Crash(i) =>
      CarrierlessItem(s.items, i, s.items[i], st);
      if s.items[i].Hand? && !s.items[i].acked {
        CarrierlessItem(s.items, i, Queued(Main, s.items[i].msg, s.items[i].retries), st);
      }
  }

  lemma StuckBystander(cfg: Config, s: State, a: Action, st: StepName)
    requires Enabled(cfg, s, a) && (a.NewClient? || a.Client? || a.Expire? || a.Dispatch?)
    requires !SomeoneCarries(s.items, st)
    ensures !SomeoneCarries(Do(cfg, s, a).items, st) && Do(cfg, s, a).shared.rows == s.shared.rows
  {
    var after := Do(cfg, s, a);
    forall j | j in after.items ensures !Carries(after.items[j], st) {
      if j in s.items { assert !Carries(s.items[j], st); }
    }
  }

  lemma StuckStep(cfg: Config, s: State, a: Action, st: StepName)
    requires Inv(cfg, s) && AckedOk(s.items) && Enabled(cfg, s, a) && Stuck(s, st)
    ensures Stuck(Do(cfg, s, a), st)
  {
    if a.Run? {
      StuckRun(cfg, s, a.i, a.ch, st);
    } else if a.Deliver? || a.Elapse? || a.Crash? {
      StuckQueue(cfg, s, a, st);
    } else {
      StuckBystander(cfg, s, a, st);
    }
  }

  /** What nothing carries is never made up for: the row stays processing, or is canceled, in every
      continuation, whatever is redelivered. */
  lemma {:induction false} StuckForever(cfg: Config, s: State, acts: seq<Action>, st: StepName)
    requires Inv(cfg, s) && AckedOk(s.items) && Legal(cfg, s, acts) && Stuck(s, st)
    ensures Stuck(Exec(cfg, s, acts), st)
    decreases |acts|
  {
    if acts != [] {
      StuckStep(cfg, s, acts[0], st);
      StepKeeps(cfg, s, acts[0]);
      AckedStep(cfg, s, acts[0]);
      StuckForever(cfg, Do(cfg, s, acts[0]), acts[1..], st);
    }
  }

  // ---------------------------------------------------------------- with a carrier

  const REFUSED := FINE.(fault := Fault(false, false))

  /** From `s0` the run gets to these tables and this item beside the rest. */
  ghost predicate Comes(cfg: Config, s0: State, sh: Shared, rest: Items, next: nat, me: nat, item: Item) {
    && me !in rest && me < next && (forall i <- rest :: i < next)
    && Leads(cfg, s0, State(sh, rest[me := item], next))
  }

  /** A step that replaces the item and sends nothing. */
  lemma Replaced(cfg: Config, s0: State, sh: Shared, rest: Items, next: nat, me: nat, item: Item, a: Action,
      item': Item)
    requires Comes(cfg, s0, sh, rest, next, me, item)
    requires Enabled(cfg, State(sh, rest[me := item], next), a)
    requires Do(cfg, State(sh, rest[me := item], next), a) == State(sh, rest[me := item][me := item'], next)
    ensures Comes(cfg, s0, sh, rest, next, me, item')
  {
    LeadsOneMore(cfg, s0, State(sh, rest[me := item], next), a);
    assert rest[me := item][me := item'] == rest[me := item'];
  }

  lemma TakenUp(cfg: Config, s0: State, sh: Shared, rest: Items, next: nat, me: nat, q: Item)
    requires Comes(cfg, s0, sh, rest, next, me, q) && q.Queued? && q.place.Main?
    ensures Comes(cfg, s0, sh, rest, next, me, Hand(q.msg, q.retries, false, InitialPc(q.msg)))
  {
    Replaced(cfg, s0, sh, rest, next, me, q, Deliver(me), Hand(q.msg, q.retries, false, InitialPc(q.msg)));
  }

  lemma HandedBack(cfg: Config, s0: State, sh: Shared, rest: Items, next: nat, me: nat, q: Item)
    requires Comes(cfg, s0, sh, rest, next, me, q) && q.Queued? && !q.place.Dlq?
    ensures Comes(cfg, s0, sh, rest, next, me, q.(place := Main))
  {
    if q.place.Delay? {
      Replaced(cfg, s0, sh, rest, next, me, q, Elapse(me), q.(place := Main));
    } else {
      assert q.(place := Main) == q;
    }
  }

  lemma Requeued(cfg: Config, s0: State, sh: Shared, rest: Items, next: nat, me: nat, h: Item)
    requires Comes(cfg, s0, sh, rest, next, me, h) && h.Hand? && !h.acked
    ensures Comes(cfg, s0, sh, rest, next, me, Queued(Main, h.msg, h.retries))
  {
    Replaced(cfg, s0, sh, rest, next, me, h, Crash(me), Queued(Main, h.msg, h.retries));
  }

  /** A worker whose first call is refused. */
  lemma FailsToFetch(cfg: Config, s0: State, sh: Shared, rest: Items, next: nat, me: nat, st: StepName, r: nat)
    requires Comes(cfg, s0, sh, rest, next, me, Hand(TriggerMsg(st), r, false, Fetching(st)))
    ensures Comes(cfg, s0, sh, rest, next, me, Hand(TriggerMsg(st), r, false, Returned(false)))
  {
    var h := Hand(TriggerMsg(st), r, false, Fetching(st));
    var h' := Hand(TriggerMsg(st), r, false, Returned(false));
    RefusedFetch(cfg, sh, me, h);
    Replaced(cfg, s0, sh, rest, next, me, h, Run(me, REFUSED), h');
  }

  lemma RefusedFetch(cfg: Config, sh: Shared, me: nat, h: Item)
    requires h.Hand? && h.pc.Fetching?
    ensures StepHand(cfg, sh, me, h, REFUSED) == (sh, h.(pc := Returned(false)))
              && StepCopy(cfg, sh, h, REFUSED) == None
  {
    assert NextCall(cfg, sh.vid, h) == GetContext;
  }

  /** A failed delivery sends its next copy. */
  lemma SendsNext(cfg: Config, s0: State, sh: Shared, rest: Items, next: nat, me: nat, h: Item)
    requires Comes(cfg, s0, sh, rest, next, me, h) && h.Hand? && h.pc == Returned(false)
    ensures var again := h.retries + 1 <= cfg.maxRetries;
            var copy := if again then Queued(Delay(h.retries + 1), h.msg, h.retries + 1)
                else Queued(Dlq, h.msg, h.retries);
            Comes(cfg, s0, sh, rest[next := copy], next + 1, me, h.(pc := if again then AckingRetry else AckingDlq))
  {
    var again := h.retries + 1 <= cfg.maxRetries;
    var copy := if again then Queued(Delay(h.retries + 1), h.msg, h.retries + 1) else Queued(Dlq, h.msg, h.retries);
    NextCopySent(cfg, sh, me, h);
    SentBeside(cfg, s0, sh, rest, next, me, h, sh, h.(pc := if again then AckingRetry else AckingDlq), copy);
  }

  /** A step that sends a copy and leaves the hand where it goes on. */
  lemma SentBeside(cfg: Config, s0: State, sh: Shared, rest: Items, next: nat, me: nat, h: Item,
                   sh': Shared, h': Item, copy: Item)
    requires Comes(cfg, s0, sh, rest, next, me, h) && h.Hand? && h'.Hand? && !h'.pc.Gone?
    requires StepHand(cfg, sh, me, h, FINE) == (sh', h') && StepCopy(cfg, sh, h, FINE) == Some(copy)
    ensures Comes(cfg, s0, sh', rest[next := copy], next + 1, me, h')
    ensures Comes(cfg, s0, sh', rest[me := h'], next + 1, next, copy)
  {
    var s := State(sh, rest[me := h], next);
    LeadsOneMore(cfg, s0, s, Run(me, FINE));
    assert rest[me := h][me := h'] == rest[me := h'];
    assert rest[me := h'][next := copy] == rest[next := copy][me := h'];
    assert Do(cfg, s, Run(me, FINE)) == State(sh', rest[me := h'][next := copy], next + 1);
  }

  lemma NextCopySent(cfg: Config, sh: Shared, me: nat, h: Item)
    requires h.Hand? && h.pc == Returned(false)
    ensures var again := h.retries + 1 <= cfg.maxRetries;
            && StepHand(cfg, sh, me, h, FINE) == (sh, h.(pc := if again then AckingRetry else AckingDlq))
            && StepCopy(cfg, sh, h, FINE)
               == Some(if again then Queued(Delay(h.retries + 1), h.msg, h.retries + 1)
                   else Queued(Dlq, h.msg, h.retries))
  {
    assert NextCall(cfg, sh.vid, h) == if h.retries + 1 <= cfg.maxRetries then SendDelay else SendDlq;
  }

  /** The old delivery is acked and gone. */
  lemma AcksRetry(cfg: Config, s0: State, sh: Shared, rest: Items, next: nat, me: nat, h: Item)
    requires Comes(cfg, s0, sh, rest, next, me, h) && h.Hand? && h.pc.AckingRetry?
    ensures Leads(cfg, s0, State(sh, rest, next))
  {
    var s := State(sh, rest[me := h], next);
    assert NextCall(cfg, sh.vid, h) == AckMessage;
    assert StepHand(cfg, sh, me, h, FINE) == (sh, h.(pc := Gone, acked := true)) && StepCopy(cfg, sh, h, FINE) == None;
    LeadsOneMore(cfg, s0, s, Run(me, FINE));
    assert rest[me := h] - {me} == rest;
    assert Do(cfg, s, Run(me, FINE)) == State(sh, rest, next);
  }

  lemma AcksDead(cfg: Config, s0: State, sh: Shared, rest: Items, next: nat, me: nat, h: Item)
    requires Comes(cfg, s0, sh, rest, next, me, h) && h.Hand? && h.pc.AckingDlq? && h.msg.TriggerMsg?
    ensures Comes(cfg, s0, sh, rest, next, me, h.(pc := Failing(h.msg.step), acked := true))
  {
    var h' := h.(pc := Failing(h.msg.step), acked := true);
    assert NextCall(cfg, sh.vid, h) == AckMessage;
    assert StepHand(cfg, sh, me, h, FINE) == (sh, h') && StepCopy(cfg, sh, h, FINE) == None;
    Replaced(cfg, s0, sh, rest, next, me, h, Run(me, FINE), h');
  }

  /** One delivery fails: its delayed copy comes back with one retry more, and nothing else is left of it. */
  lemma ComesAgain(cfg: Config, s0: State, sh: Shared, rest: Items, next: nat, me: nat, st: StepName, r: nat)
    requires Comes(cfg, s0, sh, rest, next, me, Queued(Main, TriggerMsg(st), r)) && r + 1 <= cfg.maxRetries
    ensures Comes(cfg, s0, sh, rest, next + 1, next, Queued(Main, TriggerMsg(st), r + 1))
  {
    var msg := TriggerMsg(st);
    var copy := Queued(Delay(r + 1), msg, r + 1);
    TakenUp(cfg, s0, sh, rest, next, me, Queued(Main, msg, r));
    FailsToFetch(cfg, s0, sh, rest, next, me, st, r);
    SendsNext(cfg, s0, sh, rest, next, me, Hand(msg, r, false, Returned(false)));
    AcksRetry(cfg, s0, sh, rest[next := copy], next + 1, me, Hand(msg, r, false, AckingRetry));
    assert Comes(cfg, s0, sh, rest, next + 1, next, copy);
    HandedBack(cfg, s0, sh, rest, next + 1, next, copy);
  }

  /** The last delivery fails: its copy is in the dead letters, and the worker is about to fail the row. */
  lemma Dies(cfg: Config, s0: State, sh: Shared, rest: Items, next: nat, me: nat, st: StepName, r: nat)
    requires Comes(cfg, s0, sh, rest, next, me, Queued(Main, TriggerMsg(st), r)) && r + 1 > cfg.maxRetries
    ensures Comes(cfg, s0, sh, rest[next := Queued(Dlq, TriggerMsg(st), r)], next + 1, me,
                  Hand(TriggerMsg(st), r, true, Failing(st)))
  {
    var msg := TriggerMsg(st);
    TakenUp(cfg, s0, sh, rest, next, me, Queued(Main, msg, r));
    FailsToFetch(cfg, s0, sh, rest, next, me, st, r);
    SendsNext(cfg, s0, sh, rest, next, me, Hand(msg, r, false, Returned(false)));
    AcksDead(cfg, s0, sh, rest[next := Queued(Dlq, msg, r)], next + 1, me, Hand(msg, r, false, AckingDlq));
  }

  /** Failing again and again, a trigger gets to the dead letters and its worker to the failure report, with the
      tables as they were. */
  lemma {:induction false} FailsToDeath(cfg: Config, s0: State, sh: Shared, rest: Items, next: nat, me: nat,
      st: StepName, r: nat)
    returns (n: nat, i: nat, d: nat, r': nat)
    requires Comes(cfg, s0, sh, rest, next, me, Queued(Main, TriggerMsg(st), r))
    ensures d !in rest && Comes(cfg, s0, sh, rest[d := Queued(Dlq, TriggerMsg(st), r')], n, i,
              Hand(TriggerMsg(st), r', true, Failing(st)))
    decreases cfg.maxRetries - r
  {
    if r + 1 <= cfg.maxRetries {
      ComesAgain(cfg, s0, sh, rest, next, me, st, r);
      n, i, d, r' := FailsToDeath(cfg, s0, sh, rest, next + 1, next, st, r + 1);
    } else {
      Dies(cfg, s0, sh, rest, next, me, st, r);
      n, i, d, r' := next + 1, me, next, r;
    }
  }

  // ---------------------------------------------------------------- exactly when

  /** Some continuation makes the row done or failed. */
  ghost predicate CanBeSettled(cfg: Config, s: State, st: StepName) {
    exists t :: Leads(cfg, s, t) && (Is(t.shared.rows, st, Done) || Is(t.shared.rows, st, Failed))
  }

  /** The update of a processing row to done or failed applies. */
  lemma UpdateSettles(cfg: Config, s0: State, sh: Shared, rest: Items, next: nat, me: nat, h: Item, st: StepName,
      target: Status)
    requires Comes(cfg, s0, sh, rest, next, me, h) && h.Hand? && Is(sh.rows, st, Processing)
    requires NextCall(cfg, sh.vid, h) == UpdateStep(st, target) && (target.Done? || target.Failed?)
    ensures CanBeSettled(cfg, s0, st)
  {
    var s := State(sh, rest[me := h], next);
    LeadsOneMore(cfg, s0, s, Run(me, FINE));
    assert Apply(sh, me, UpdateStep(st, target), FINE).0.rows == sh.rows[st := target];
    LeavesItsEffect(cfg, s, me);
  }

  lemma LeavesItsEffect(cfg: Config, s: State, me: nat)
    requires Enabled(cfg, s, Run(me, FINE))
    ensures Do(cfg, s, Run(me, FINE)).shared == Apply(s.shared, me, NextCall(cfg, s.shared.vid, s.items[me]), FINE).0
  {
  }

  lemma FailingSettles(cfg: Config, s0: State, sh: Shared, rest: Items, next: nat, me: nat, h: Item, st: StepName)
    requires Comes(cfg, s0, sh, rest, next, me, h) && h.Hand? && h.pc == Failing(st) && Is(sh.rows, st, Processing)
    ensures CanBeSettled(cfg, s0, st)
  {
    UpdateSettles(cfg, s0, sh, rest, next, me, h, st, Failed);
  }

  lemma QueuedSettles(cfg: Config, s0: State, sh: Shared, rest: Items, next: nat, me: nat, q: Item, st: StepName)
    requires Comes(cfg, s0, sh, rest, next, me, q) && q.Queued? && Carries(q, st) && Is(sh.rows, st, Processing)
    ensures CanBeSettled(cfg, s0, st)
  {
    HandedBack(cfg, s0, sh, rest, next, me, q);
    if q.msg == TriggerMsg(st) {
      var n, i, d, r := FailsToDeath(cfg, s0, sh, rest, next, me, st, q.retries);
      FailingSettles(cfg, s0, sh, rest[d := Queued(Dlq, TriggerMsg(st), r)], n, i,
          Hand(TriggerMsg(st), r, true, Failing(st)), st);
    } else {
      TakenUp(cfg, s0, sh, rest, next, me, q.(place := Main));
      UpdateSettles(cfg, s0, sh, rest, next, me, Hand(q.msg, q.retries, false, Advancing(st)), st, Done);
    }
  }

  /** An orchestrator about to publish the trigger publishes it. */
  lemma SenderSettles(cfg: Config, s0: State, sh: Shared, rest: Items, next: nat, me: nat, h: Item, st: StepName)
    requires Comes(cfg, s0, sh, rest, next, me, h) && h.Hand? && AboutToSend(h.pc, st) && Is(sh.rows, st, Processing)
    ensures CanBeSettled(cfg, s0, st)
  {
    var copy := Queued(Main, TriggerMsg(st), 0);
    var (sh', h') := StepHand(cfg, sh, me, h, FINE);
    TriggerSent(cfg, sh, me, h, st);
    SentBeside(cfg, s0, sh, rest, next, me, h, sh', h', copy);
    QueuedSettles(cfg, s0, sh', rest[me := h'], next + 1, next, copy, st);
  }

  lemma TriggerSent(cfg: Config, sh: Shared, me: nat, h: Item, st: StepName)
    requires h.Hand? && AboutToSend(h.pc, st)
    ensures var (sh', h') := StepHand(cfg, sh, me, h, FINE); sh'.rows == sh.rows && !h'.pc.Gone?
    ensures StepCopy(cfg, sh, h, FINE) == Some(Queued(Main, TriggerMsg(st), 0))
  {
    assert NextCall(cfg, sh.vid, h) == SendTrigger(st);
  }

  lemma CarrierSettles(cfg: Config, s: State, i: nat, st: StepName)
    requires Reachable(cfg, s) && i in s.items && Carries(s.items[i], st) && Is(s.shared.rows, st, Processing)
    ensures CanBeSettled(cfg, s, st)
  {
    IdsBelowNext(cfg, s);
    LeadsNowhere(cfg, s);
    var rest := s.items - {i};
    assert rest[i := s.items[i]] == s.items;
    assert s == State(s.shared, rest[i := s.items[i]], s.next);
    var item := s.items[i];
    if item.Queued? {
      QueuedSettles(cfg, s, s.shared, rest, s.next, i, item, st);
    } else if AboutToSend(item.pc, st) {
      SenderSettles(cfg, s, s.shared, rest, s.next, i, item, st);
    } else if item.acked {
      FailingSettles(cfg, s, s.shared, rest, s.next, i, item, st);
    } else {
      Requeued(cfg, s, s.shared, rest, s.next, i, item);
      QueuedSettles(cfg, s, s.shared, rest, s.next, i, Queued(Main, item.msg, item.retries), st);
    }
  }

  /** A processing row can still become done or failed if and only if something carries it: its trigger or done
      result on a live queue or in a hand that has not acked it, a worker about to fail it, or an orchestrator
      about to publish its trigger. */
  lemma StuckExactlyWhen(cfg: Config, s: State, st: StepName)
    requires Reachable(cfg, s) && Is(s.shared.rows, st, Processing)
    ensures CanBeSettled(cfg, s, st) <==> SomeoneCarries(s.items, st)
  {
    if SomeoneCarries(s.items, st) {
      var i :| i in s.items && Carries(s.items[i], st);
      CarrierSettles(cfg, s, i, st);
    } else if CanBeSettled(cfg, s, st) {
      StuckIsNotSettled(cfg, s, st);
    }
  }

  lemma StuckIsNotSettled(cfg: Config, s: State, st: StepName)
    requires Reachable(cfg, s) && Stuck(s, st)
    ensures !CanBeSettled(cfg, s, st)
  {
    ReachableOk(cfg, s);
    ReachableAcked(cfg, s);
    if CanBeSettled(cfg, s, st) {
      var t :| Leads(cfg, s, t) && (Is(t.shared.rows, st, Done) || Is(t.shared.rows, st, Failed));
      StaysUndecided(cfg, s, t, st);
      assert false;
    }
  }

  lemma StaysUndecided(cfg: Config, s: State, t: State, st: StepName)
    requires Inv(cfg, s) && AckedOk(s.items) && Stuck(s, st) && Leads(cfg, s, t)
    ensures Undecided(t.shared.rows, st)
  {
    var acts :| Legal(cfg, s, acts) && t == Exec(cfg, s, acts);
    StuckForever(cfg, s, acts, st);
  }
}
