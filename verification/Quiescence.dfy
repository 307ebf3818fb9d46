/** Runs without crashes and without broker or store faults, in which the workers' own work may fail as it
    likes: the work of every processing row is in exactly one place, so nothing is left behind when the
    queues are empty. */
module Quiescence {
  import opened Basics
  import opened StepTable
  import opened Pipeline
  import opened PipelineInvariant
  import opened PipelineSteps

  // ---------------------------------------------------------------- quiet runs

  predicate QuietFault(fault: Fault) {
    fault.Fault? ==> fault.work
  }

  predicate Quiet(s: State, a: Action) {
    match a
    case Run(_, ch) => QuietFault(ch.fault)
    case Crash(i) => i in s.items && s.items[i].Finalizer?
    case _ => true
  }

  ghost predicate QuietRun(cfg: Config, s: State, acts: seq<Action>)
    decreases |acts|
  {
    acts == [] || (Quiet(s, acts[0]) && Enabled(cfg, s, acts[0]) && QuietRun(cfg, Do(cfg, s, acts[0]), acts[1..]))
  }

  // ---------------------------------------------------------------- who holds a step's work

  /** This hand carries the one token of step `st`: an orchestrator about to publish the trigger, a worker
      that has not handed the row on, or an orchestrator about to apply a done result. */
  predicate HandHolds(msg: Msg, pc: Pc, st: StepName) {
    match pc
    case Sending(k) => k < |INITIAL_STEPS| && INITIAL_STEPS[k] == st
    case SendingNext(next) => next == st
    case Advancing(_) => msg == ResultMsg(st, Done)
    case _ => msg == TriggerMsg(st) && !Through(pc)
  }

  predicate Through(pc: Pc) {
    OrchestratorPc(pc) || pc == Returned(true) || pc.AckingRetry? || pc.FailingUpload? || pc.ReportingFailed?
        || pc.Gone?
  }

  predicate Holds(item: Item, st: StepName) {
    match item
    case Queued(place, msg, _) => !place.Dlq? && (msg == TriggerMsg(st) || msg == ResultMsg(st, Done))
    case Hand(msg, _, _, pc) => HandHolds(msg, pc, st)
    case Finalizer(_) => false
  }

  predicate CopyHolds(copy: Option<Item>, st: StepName) {
    copy.Some? && Holds(copy.value, st)
  }

  ghost predicate AtMostOne(items: map<nat, Item>) {
    forall st, i, j :: i in items && j in items && Holds(items[i], st) && Holds(items[j], st) ==> i == j
  }

  predicate SomeoneHolds(items: map<nat, Item>, st: StepName) {
    exists i :: i in items && Holds(items[i], st)
  }

  predicate NoneLost(rows: StepRows, items: map<nat, Item>) {
    forall st <- rows :: rows[st].Processing? ==> SomeoneHolds(items, st)
  }

  /** Only worker hands fail, and a failing report comes after the ack. */
  predicate QuietHand(h: Item)
    requires h.Hand?
  {
    && (h.pc == Returned(false) ==> h.msg.TriggerMsg?)
    && (h.pc.Failing? || h.pc.FailingUpload? || h.pc.ReportingFailed? ==> h.acked)
  }

  ghost predicate QuietInv(cfg: Config, s: State) {
    && Inv(cfg, s)
    && AtMostOne(s.items)
    && NoneLost(s.shared.rows, s.items)
    && (forall i <- s.items :: s.items[i].Hand? ==> QuietHand(s.items[i]))
  }

  // ---------------------------------------------------------------- one call

  predicate MayRefuse(call: Call) {
    IsWork(call) || call.GetContext? || call.ReadVideo? || call.InsertRendition?
  }

  predicate Polite(call: Call, r: Resp) {
    r.NotOk? ==> MayRefuse(call)
  }

  predicate Claims(call: Call, r: Resp, st: StepName) {
    call == UpdateStep(st, Processing) && r == Outcome(true)
  }

  predicate Ends(call: Call, st: StepName) {
    call == UpdateStep(st, Done) || call == UpdateStep(st, Failed)
  }

  lemma QuietAnswers(cfg: Config, sh: Shared, me: nat, call: Call, ch: Choice)
    requires QuietFault(ch.fault) && (ch.fault.Fault? ==> IsWork(call))
    ensures Polite(call, Effect(sh, me, call, ch).1)
  {
  }

  /** Where the processing rows after a call come from. */
  lemma ProcessingComesFrom(sh: Shared, me: nat, call: Call, ch: Choice, st: StepName)
    requires ch.fault.Fault? ==> IsWork(call)
    requires Is(Effect(sh, me, call, ch).0.rows, st, Processing)
    ensures Claims(call, Effect(sh, me, call, ch).1, st) || (Is(sh.rows, st, Processing) && !Ends(call, st))
  {
    if !call.InsertStep? && !call.UpdateStep? {
      OtherCallsKeepRows(sh, me, call, ch);
    }
  }

  /** The program counter fits the message: what the tokens need of the pipeline's invariant. */
  predicate Fits(msg: Msg, pc: Pc) {
    match pc
    case Advancing(st) => msg == ResultMsg(st, Done)
    case Closing(st) => msg == TriggerMsg(st)
    case Reporting(st) => msg == TriggerMsg(st)
    case Failing(st) => msg == TriggerMsg(st)
    case _ => OrchestratorPc(pc) || pc.Returned? || pc.AckingRetry? || pc.AckingDlq? || msg.TriggerMsg?
  }

  lemma PcFits(cfg: Config, sh: Shared, me: nat, h: Item)
    requires h.Hand? && PcOk(cfg, sh, me, h.msg, h.pc)
    ensures Fits(h.msg, h.pc)
  {
  }

  ghost predicate TokenPasses(cfg: Config, vid: string, h: Item, r: Resp, st: StepName)
    requires h.Hand?
  {
    var call := NextCall(cfg, vid, h);
    var after := HandHolds(h.msg, Resume(cfg, h, r), st);
    var copy := CopyHolds(SentCopy(call, h.msg, h.retries), st);
    && (after || copy ==> HandHolds(h.msg, h.pc, st) || Claims(call, r, st))
    && !(after && copy)
    && (Claims(call, r, st) ==> after)
    && (HandHolds(h.msg, h.pc, st) && !Ends(call, st) ==> after || copy)
  }

  /** The token of `st` is neither made nor doubled by a call, except by the claim of the row, and it is
      dropped only by the update that ends the row. */
  lemma OrchestratorPasses(cfg: Config, vid: string, h: Item, r: Resp, st: StepName)
    requires h.Hand? && OrchestratorPc(h.pc) && Fits(h.msg, h.pc) && Polite(NextCall(cfg, vid, h), r)
    ensures TokenPasses(cfg, vid, h, r, st)
  {
    if h.pc.Triggering? || h.pc.Sending? {
      StartPasses(cfg, vid, h, r, st);
    } else if h.pc.Advancing? || h.pc.TriggeringNext? || h.pc.SendingNext? {
      NextPasses(cfg, vid, h, r, st);
    } else {
      BystanderPasses(cfg, vid, h, r, st);
    }
  }

  /** Creating rows, failing and canceling, and finishing touch no token. */
  lemma BystanderPasses(cfg: Config, vid: string, h: Item, r: Resp, st: StepName)
    requires h.Hand? && (h.pc.Creating? || h.pc.MarkingFailed? || h.pc.Canceling? || h.pc.AllCanceled?
               || h.pc.Finishing?)
    requires !r.NotOk?
    ensures TokenPasses(cfg, vid, h, r, st)
  {
    var call := NextCall(cfg, vid, h);
    var pc := Resume(cfg, h, r);
    assert !(call.UpdateStep? && call.target.Processing?) && !CopyHolds(SentCopy(call, h.msg, h.retries), st);
    assert OrchestratorPc(pc) || pc.Gone? || pc == Returned(true);
  }

  lemma StartPasses(cfg: Config, vid: string, h: Item, r: Resp, st: StepName)
    requires h.Hand? && (h.pc.Triggering? || h.pc.Sending?) && !r.NotOk?
    ensures TokenPasses(cfg, vid, h, r, st)
  {
  }

  lemma NextPasses(cfg: Config, vid: string, h: Item, r: Resp, st: StepName)
    requires h.Hand? && (h.pc.Advancing? || h.pc.TriggeringNext? || h.pc.SendingNext?) && Fits(h.msg, h.pc) && !r.NotOk?
    ensures TokenPasses(cfg, vid, h, r, st)
  {
  }

  predicate TailPc(pc: Pc) {
    pc.Closing? || pc.Reporting? || pc.Returned? || pc.AckingRetry? || pc.AckingDlq? || pc.Failing?
    || pc.FailingUpload? || pc.ReportingFailed? || pc.Gone?
  }

  /** A worker keeps the token all through its own work. */
  lemma WorkKeepsToken(cfg: Config, vid: string, h: Item, r: Resp, st: StepName)
    requires h.Hand? && !OrchestratorPc(h.pc) && !TailPc(h.pc) && Fits(h.msg, h.pc)
    ensures HandHolds(h.msg, h.pc, st) <==> h.msg == TriggerMsg(st)
    ensures StillWorking(cfg, h, r) ==> TokenPasses(cfg, vid, h, r, st)
  {
  }

  /** The hand goes on working, closes, or fails. */
  predicate StillWorking(cfg: Config, h: Item, r: Resp)
    requires h.Hand?
  {
    var pc := Resume(cfg, h, r);
    !OrchestratorPc(pc) && !Through(pc)
  }

  lemma SegmentGoesOn(cfg: Config, h: Item, r: Resp)
    requires h.Hand? && (h.pc.Segmenting? || h.pc.ListingToSegment?)
    ensures StillWorking(cfg, h, r)
  {
    if h.pc.Segmenting? && h.pc.k < |h.pc.list| { SegmentFromStays(h.pc.list, h.pc.k + 1); }
    if h.pc.ListingToSegment? && r.Rows? { SegmentFromStays(r.list, 0); }
  }

  lemma WorkGoesOn(cfg: Config, h: Item, r: Resp)
    requires h.Hand? && !OrchestratorPc(h.pc) && !TailPc(h.pc)
    requires !(h.pc.Fetching? && h.pc.step.OtherStep?)
    ensures StillWorking(cfg, h, r)
  {
    if h.pc.Segmenting? || h.pc.ListingToSegment? {
      SegmentGoesOn(cfg, h, r);
    } else {
      var pc := Resume(cfg, h, r);
      assert pc == Returned(false) || !pc.Returned?;
    }
  }

  lemma AckedReturnPasses(cfg: Config, vid: string, h: Item, r: Resp, st: StepName)
    requires h.Hand? && h.pc == Returned(true) && !r.NotOk?
    ensures TokenPasses(cfg, vid, h, r, st)
  {
    assert NextCall(cfg, vid, h) == AckMessage && Resume(cfg, h, r) == Gone;
  }

  lemma RetriedReturnPasses(cfg: Config, vid: string, h: Item, r: Resp, st: StepName)
    requires h.Hand? && h.pc == Returned(false) && QuietHand(h) && !r.NotOk? && h.retries + 1 <= cfg.maxRetries
    ensures TokenPasses(cfg, vid, h, r, st)
  {
    assert NextCall(cfg, vid, h) == SendDelay && Resume(cfg, h, r) == AckingRetry;
  }

  lemma BuriedReturnPasses(cfg: Config, vid: string, h: Item, r: Resp, st: StepName)
    requires h.Hand? && h.pc == Returned(false) && QuietHand(h) && !r.NotOk? && h.retries + 1 > cfg.maxRetries
    ensures TokenPasses(cfg, vid, h, r, st)
  {
    assert NextCall(cfg, vid, h) == SendDlq && Resume(cfg, h, r) == AckingDlq;
  }

  /** A failed delivery passes the token to the delayed copy, or keeps it until the failure is reported. */
  lemma ReturnPasses(cfg: Config, vid: string, h: Item, r: Resp, st: StepName)
    requires h.Hand? && h.pc.Returned? && QuietHand(h) && !r.NotOk?
    ensures TokenPasses(cfg, vid, h, r, st)
  {
    if h.pc.ok {
      AckedReturnPasses(cfg, vid, h, r, st);
    } else if h.retries + 1 <= cfg.maxRetries {
      RetriedReturnPasses(cfg, vid, h, r, st);
    } else {
      BuriedReturnPasses(cfg, vid, h, r, st);
    }
  }

  /** Where a closing or failing hand goes; none of its calls claims a row. */
  lemma ClosingPasses(cfg: Config, vid: string, h: Item, r: Resp, st: StepName)
    requires h.Hand? && (h.pc.Closing? || h.pc.Reporting?) && Fits(h.msg, h.pc) && !r.NotOk?
    ensures TokenPasses(cfg, vid, h, r, st)
  {
    var call := NextCall(cfg, vid, h);
    var pc := Resume(cfg, h, r);
    if h.pc.Closing? {
      assert call == UpdateStep(h.pc.step, Done) && (pc == Reporting(h.pc.step) || pc == Returned(true));
    } else {
      assert call == SendResult(h.pc.step, Done) && pc == Returned(true);
    }
  }

  lemma DeadLetteredPasses(cfg: Config, vid: string, h: Item, r: Resp, st: StepName)
    requires h.Hand? && h.pc.AckingDlq?
    ensures TokenPasses(cfg, vid, h, r, st)
  {
    assert NextCall(cfg, vid, h) == AckMessage;
    assert Resume(cfg, h, r) == if h.msg.TriggerMsg? then Failing(h.msg.step) else Gone;
  }

  lemma FailedRowPasses(cfg: Config, vid: string, h: Item, r: Resp, st: StepName)
    requires h.Hand? && h.pc.Failing? && Fits(h.msg, h.pc)
    ensures TokenPasses(cfg, vid, h, r, st)
  {
    var pc := Resume(cfg, h, r);
    assert NextCall(cfg, vid, h) == UpdateStep(h.pc.step, Failed);
    assert pc.FailingUpload? || pc.ReportingFailed? || pc.Gone?;
  }

  lemma FailingPasses(cfg: Config, vid: string, h: Item, r: Resp, st: StepName)
    requires h.Hand? && (h.pc.AckingDlq? || h.pc.Failing?) && Fits(h.msg, h.pc)
    ensures TokenPasses(cfg, vid, h, r, st)
  {
    if h.pc.AckingDlq? {
      DeadLetteredPasses(cfg, vid, h, r, st);
    } else {
      FailedRowPasses(cfg, vid, h, r, st);
    }
  }

  lemma LastPasses(cfg: Config, vid: string, h: Item, r: Resp, st: StepName)
    requires h.Hand? && (h.pc.AckingRetry? || h.pc.FailingUpload? || h.pc.ReportingFailed? || h.pc.Gone?)
    ensures TokenPasses(cfg, vid, h, r, st)
  {
    var call := NextCall(cfg, vid, h);
    var pc := Resume(cfg, h, r);
    assert pc.ReportingFailed? || pc.Gone?;
    assert !call.UpdateStep? && !CopyHolds(SentCopy(call, h.msg, h.retries), st);
  }

  lemma TailPasses(cfg: Config, vid: string, h: Item, r: Resp, st: StepName)
    requires h.Hand? && TailPc(h.pc) && Fits(h.msg, h.pc) && QuietHand(h) && Polite(NextCall(cfg, vid, h), r)
    ensures TokenPasses(cfg, vid, h, r, st)
  {
    if h.pc.Returned? {
      ReturnPasses(cfg, vid, h, r, st);
    } else if h.pc.Closing? || h.pc.Reporting? {
      ClosingPasses(cfg, vid, h, r, st);
    } else if h.pc.AckingDlq? || h.pc.Failing? {
      FailingPasses(cfg, vid, h, r, st);
    } else {
      LastPasses(cfg, vid, h, r, st);
    }
  }

  lemma HandPasses(cfg: Config, sh: Shared, me: nat, h: Item, r: Resp, st: StepName)
    requires h.Hand? && MsgOk(cfg, sh, h.msg) && PcOk(cfg, sh, me, h.msg, h.pc) && RowsOk(sh.rows) && QuietHand(h)
    requires Polite(NextCall(cfg, sh.vid, h), r)
    ensures TokenPasses(cfg, sh.vid, h, r, st)
  {
    PcFits(cfg, sh, me, h);
    if OrchestratorPc(h.pc) {
      OrchestratorPasses(cfg, sh.vid, h, r, st);
    } else if TailPc(h.pc) {
      TailPasses(cfg, sh.vid, h, r, st);
    } else {
      WorkGoesOn(cfg, h, r);
      WorkKeepsToken(cfg, sh.vid, h, r, st);
    }
  }

  lemma OrchestratorStaysQuiet(cfg: Config, vid: string, h: Item, r: Resp)
    requires h.Hand? && OrchestratorPc(h.pc) && Polite(NextCall(cfg, vid, h), r)
    ensures var pc := Resume(cfg, h, r);
            pc != Returned(false) && !pc.Failing? && !pc.FailingUpload? && !pc.ReportingFailed?
            && (pc.Gone? ==> NextCall(cfg, vid, h).AckMessage?)
  {
  }

  lemma TailStaysQuiet(cfg: Config, vid: string, h: Item, r: Resp)
    requires h.Hand? && TailPc(h.pc) && !h.pc.Gone? && QuietHand(h) && Fits(h.msg, h.pc)
               && Polite(NextCall(cfg, vid, h), r)
    ensures var pc := Resume(cfg, h, r);
            (pc == Returned(false) ==> h.msg.TriggerMsg?)
            && (pc.Failing? || pc.FailingUpload? || pc.ReportingFailed? || pc.Gone? ==>
                h.acked || NextCall(cfg, vid, h).AckMessage?)
  {
  }

  lemma StaysQuiet(cfg: Config, sh: Shared, me: nat, h: Item, ch: Choice)
    requires Ready(cfg, sh, me, h, ch) && QuietHand(h)
    requires QuietFault(ch.fault) && (ch.fault.Fault? ==> IsWork(NextCall(cfg, sh.vid, h)))
    ensures var h' := StepHand(cfg, sh, me, h, ch).1; QuietHand(h') && (h'.pc.Gone? ==> h'.acked)
  {
    var call := NextCall(cfg, sh.vid, h);
    QuietAnswers(cfg, sh, me, call, ch);
    PcFits(cfg, sh, me, h);
    var r := Effect(sh, me, call, ch).1;
    if OrchestratorPc(h.pc) {
      OrchestratorStaysQuiet(cfg, sh.vid, h, r);
    } else if TailPc(h.pc) {
      TailStaysQuiet(cfg, sh.vid, h, r);
    } else {
      WorkGoesOn(cfg, h, r);
      WorkNeverAcks(cfg, h, r);
    }
  }

  lemma WorkNeverAcks(cfg: Config, h: Item, r: Resp)
    requires h.Hand? && !OrchestratorPc(h.pc) && !TailPc(h.pc)
    ensures var pc := Resume(cfg, h, r); !pc.Failing? && !pc.FailingUpload? && !pc.ReportingFailed? && !pc.Gone?
  {
    if h.pc.Segmenting? && h.pc.k < |h.pc.list| { SegmentFromStays(h.pc.list, h.pc.k + 1); }
    if h.pc.ListingToSegment? && r.Rows? { SegmentFromStays(r.list, 0); }
  }

  // ---------------------------------------------------------------- one step of a hand

  /** What one step of a hand does to the token of `st`, without naming its call. */
  ghost predicate Balanced(rows: StepRows, h: Item, rows': StepRows, h': Item, copy: Option<Item>, st: StepName)
    requires h.Hand? && h'.Hand?
  {
    var after := HandHolds(h'.msg, h'.pc, st);
    && (after || CopyHolds(copy, st) ==> HandHolds(h.msg, h.pc, st) || Is(rows, st, Pending))
    && !(after && CopyHolds(copy, st))
    && (Is(rows', st, Processing) ==>
          (Is(rows, st, Processing) && !HandHolds(h.msg, h.pc, st)) || after || CopyHolds(copy, st))
  }

  lemma HandBalances(cfg: Config, sh: Shared, me: nat, h: Item, ch: Choice, st: StepName)
    requires Ready(cfg, sh, me, h, ch) && QuietHand(h)
    requires QuietFault(ch.fault) && (ch.fault.Fault? ==> IsWork(NextCall(cfg, sh.vid, h)))
    ensures var (sh', h') := StepHand(cfg, sh, me, h, ch);
            Balanced(sh.rows, h, sh'.rows, h', StepCopy(cfg, sh, h, ch), st)
  {
    if ch.skipClose && h.pc.Closing? {
      PcFits(cfg, sh, me, h);
      SkipBalances(sh.rows, h, st);
    } else {
      CallKeepsBalance(cfg, sh, me, h, NextCall(cfg, sh.vid, h), ch, st);
      QuietStepHand(cfg, sh, me, h, NextCall(cfg, sh.vid, h), ch);
    }
  }

  lemma SkipBalances(rows: StepRows, h: Item, st: StepName)
    requires h.Hand? && h.pc.Closing? && Fits(h.msg, h.pc)
    ensures Balanced(rows, h, rows, h.(pc := Reporting(h.pc.step)), None, st)
  {
  }

  lemma CallKeepsBalance(cfg: Config, sh: Shared, me: nat, h: Item, call: Call, ch: Choice, st: StepName)
    requires h.Hand? && MsgOk(cfg, sh, h.msg) && PcOk(cfg, sh, me, h.msg, h.pc) && RowsOk(sh.rows) && QuietHand(h)
    requires call == NextCall(cfg, sh.vid, h) && QuietFault(ch.fault) && (ch.fault.Fault? ==> IsWork(call))
    ensures var (sh', r) := Effect(sh, me, call, ch);
            Balanced(sh.rows, h, sh'.rows, h.(pc := Resume(cfg, h, r)), SentCopy(call, h.msg, h.retries), st)
  {
    QuietAnswers(cfg, sh, me, call, ch);
    HandPasses(cfg, sh, me, h, Effect(sh, me, call, ch).1, st);
    CallBalances(cfg, sh, me, h, call, ch, st);
  }

  lemma QuietStepHand(cfg: Config, sh: Shared, me: nat, h: Item, call: Call, ch: Choice)
    requires h.Hand? && call == NextCall(cfg, sh.vid, h) && !(ch.skipClose && h.pc.Closing?)
    requires ch.fault.Fault? ==> IsWork(call)
    ensures var (sh', r) := Effect(sh, me, call, ch);
            StepHand(cfg, sh, me, h, ch).0 == sh'
            && StepHand(cfg, sh, me, h, ch).1.(acked := h.acked) == h.(pc := Resume(cfg, h, r))
    ensures StepCopy(cfg, sh, h, ch) == SentCopy(call, h.msg, h.retries)
  {
    WorkSendsNothing(call, h.msg, h.retries);
  }

  lemma CallBalances(cfg: Config, sh: Shared, me: nat, h: Item, call: Call, ch: Choice, st: StepName)
    requires h.Hand? && call == NextCall(cfg, sh.vid, h)
    requires QuietFault(ch.fault) && (ch.fault.Fault? ==> IsWork(call))
    requires var r := Effect(sh, me, call, ch).1; TokenPasses(cfg, sh.vid, h, r, st)
    ensures var (sh', r) := Effect(sh, me, call, ch);
            Balanced(sh.rows, h, sh'.rows, h.(pc := Resume(cfg, h, r)), SentCopy(call, h.msg, h.retries), st)
  {
    var (sh', r) := Effect(sh, me, call, ch);
    if Is(sh'.rows, st, Processing) {
      ProcessingComesFrom(sh, me, call, ch, st);
    }
    ClaimNeedsPending(sh, me, call, ch, st);
  }

  lemma WorkSendsNothing(call: Call, msg: Msg, retries: nat)
    ensures IsWork(call) ==> SentCopy(call, msg, retries) == None
  {
  }

  lemma ClaimNeedsPending(sh: Shared, me: nat, call: Call, ch: Choice, st: StepName)
    ensures Claims(call, Effect(sh, me, call, ch).1, st) ==> Is(sh.rows, st, Pending)
  {
  }

  /** A pending row's work is nowhere. */
  lemma PendingMeansNoToken(cfg: Config, s: State, st: StepName)
    requires Inv(cfg, s) && Is(s.shared.rows, st, Pending)
    ensures !SomeoneHolds(s.items, st)
  {
    forall i | i in s.items ensures !Holds(s.items[i], st) {
      assert ItemOk(cfg, s.shared, i, s.items[i]);
    }
  }

  // ---------------------------------------------------------------- one step of the system

  /** How the items change: `i` is replaced by `item` or gone, and at most one copy is new. */
  ghost predicate ItemsAfter(items: map<nat, Item>, next: nat, i: nat, item: Option<Item>, copy: Option<Item>,
      after: map<nat, Item>) {
    && (forall j <- items :: j != i ==> j in after && after[j] == items[j])
    && (item.Some? ==> i in after && after[i] == item.value)
    && (copy.Some? ==> next in after && after[next] == copy.value)
    && (forall j <- after :: (j in items && j != i) || (j == i && item.Some?) || (j == next && copy.Some?))
  }

  lemma StillAtMostOne(cfg: Config, s: State, i: nat, rows': StepRows, h': Item, item: Option<Item>,
                       copy: Option<Item>, after: map<nat, Item>, st: StepName, j: nat, k: nat)
    requires QuietInv(cfg, s) && i in s.items && s.items[i].Hand? && h'.Hand?
    requires item == if h'.pc.Gone? then None else Some(h')
    requires ItemsAfter(s.items, s.next, i, item, copy, after)
    requires Balanced(s.shared.rows, s.items[i], rows', h', copy, st)
    requires j in after && k in after && Holds(after[j], st) && Holds(after[k], st)
    ensures j == k
  {
    if Is(s.shared.rows, st, Pending) { PendingMeansNoToken(cfg, s, st); }
  }

  lemma StillHeld(items: map<nat, Item>, next: nat, i: nat, rows: StepRows, rows': StepRows, h': Item,
                  item: Option<Item>, copy: Option<Item>, after: map<nat, Item>, st: StepName)
    requires NoneLost(rows, items) && i in items && items[i].Hand? && h'.Hand?
    requires item == if h'.pc.Gone? then None else Some(h')
    requires ItemsAfter(items, next, i, item, copy, after)
    requires Balanced(rows, items[i], rows', h', copy, st) && Is(rows', st, Processing)
    ensures SomeoneHolds(after, st)
  {
    if HandHolds(h'.msg, h'.pc, st) {
      assert Holds(after[i], st);
    } else if CopyHolds(copy, st) {
      assert Holds(after[next], st);
    } else {
      assert SomeoneHolds(items, st);
      var j :| j in items && Holds(items[j], st);
      assert Holds(after[j], st);
    }
  }

  lemma TokensMove(cfg: Config, s: State, i: nat, rows': StepRows, h': Item, item: Option<Item>, copy: Option<Item>,
                   after: map<nat, Item>)
    requires QuietInv(cfg, s) && i in s.items && s.items[i].Hand? && h'.Hand?
    requires item == if h'.pc.Gone? then None else Some(h')
    requires ItemsAfter(s.items, s.next, i, item, copy, after)
    requires forall st :: Balanced(s.shared.rows, s.items[i], rows', h', copy, st)
    ensures AtMostOne(after) && NoneLost(rows', after)
  {
    forall st, j, k | j in after && k in after && Holds(after[j], st) && Holds(after[k], st) ensures j == k {
      assert Balanced(s.shared.rows, s.items[i], rows', h', copy, st);
      StillAtMostOne(cfg, s, i, rows', h', item, copy, after, st, j, k);
    }
    forall st <- rows' | rows'[st].Processing? ensures SomeoneHolds(after, st) {
      assert Balanced(s.shared.rows, s.items[i], rows', h', copy, st);
      StillHeld(s.items, s.next, i, s.shared.rows, rows', h', item, copy, after, st);
    }
  }

  /** A quiet hand is never requeued, so its step only moves its own item and adds a copy. */
  lemma RunMovesItems(cfg: Config, s: State, i: nat, ch: Choice, sh': Shared, h': Item, copy: Option<Item>)
    requires Enabled(cfg, s, Run(i, ch)) && h'.Hand? && (h'.pc.Gone? ==> h'.acked) && s.next !in s.items
    requires (sh', h') == StepHand(cfg, s.shared, i, s.items[i], ch) && copy == StepCopy(cfg, s.shared, s.items[i], ch)
    ensures var after := Do(cfg, s, Run(i, ch));
            after.shared == sh'
            && ItemsAfter(s.items, s.next, i, if h'.pc.Gone? then None else Some(h'), copy, after.items)
  {
  }

  lemma QuietHandsStay(items: map<nat, Item>, next: nat, i: nat, item: Option<Item>, copy: Option<Item>,
      after: map<nat, Item>)
    requires forall j <- items :: items[j].Hand? ==> QuietHand(items[j])
    requires ItemsAfter(items, next, i, item, copy, after) && (copy.Some? ==> copy.value.Queued?)
    requires item.Some? ==> item.value.Hand? && QuietHand(item.value)
    ensures forall j <- after :: after[j].Hand? ==> QuietHand(after[j])
  {
  }

  lemma QuietRunStep(cfg: Config, s: State, i: nat, ch: Choice)
    requires QuietInv(cfg, s) && Enabled(cfg, s, Run(i, ch)) && QuietFault(ch.fault)
    ensures QuietInv(cfg, Do(cfg, s, Run(i, ch)))
  {
    var h := s.items[i];
    assert ItemOk(cfg, s.shared, i, h);
    var (sh', h') := StepHand(cfg, s.shared, i, h, ch);
    var copy := StepCopy(cfg, s.shared, h, ch);
    var item := if h'.pc.Gone? then None else Some(h');
    var after := Do(cfg, s, Run(i, ch));
    StaysQuiet(cfg, s.shared, i, h, ch);
    RunMovesItems(cfg, s, i, ch, sh', h', copy);
    SentIsQueued(cfg, s.shared, h, ch);
    QuietHandsStay(s.items, s.next, i, item, copy, after.items);
    forall st ensures Balanced(s.shared.rows, h, sh'.rows, h', copy, st) {
      HandBalances(cfg, s.shared, i, h, ch, st);
    }
    TokensMove(cfg, s, i, sh'.rows, h', item, copy, after.items);
    StepKeeps(cfg, s, Run(i, ch));
  }

  /** One item changes and keeps the tokens it holds. */
  lemma SameTokens(items: map<nat, Item>, i: nat, item: Item, rows: StepRows)
    requires AtMostOne(items) && NoneLost(rows, items) && i in items
    requires forall st :: Holds(item, st) <==> Holds(items[i], st)
    ensures AtMostOne(items[i := item]) && NoneLost(rows, items[i := item])
  {
    forall st <- rows | rows[st].Processing? ensures SomeoneHolds(items[i := item], st) {
      assert SomeoneHolds(items, st);
      var j :| j in items && Holds(items[j], st);
      assert Holds(items[i := item][j], st);
    }
  }

  lemma NoTokenAdded(items: map<nat, Item>, next: nat, item: Item, rows: StepRows)
    requires AtMostOne(items) && NoneLost(rows, items) && next !in items
    requires forall st :: !Holds(item, st)
    ensures AtMostOne(items[next := item]) && NoneLost(rows, items[next := item])
  {
    forall st <- rows | rows[st].Processing? ensures SomeoneHolds(items[next := item], st) {
      assert SomeoneHolds(items, st);
      var j :| j in items && Holds(items[j], st);
      assert Holds(items[next := item][j], st);
    }
  }

  lemma NoTokenGone(items: map<nat, Item>, i: nat, rows: StepRows)
    requires AtMostOne(items) && NoneLost(rows, items) && i in items && items[i].Finalizer?
    ensures AtMostOne(items - {i}) && NoneLost(rows, items - {i})
  {
    forall st <- rows | rows[st].Processing? ensures SomeoneHolds(items - {i}, st) {
      assert SomeoneHolds(items, st);
      var j :| j in items && Holds(items[j], st);
      assert Holds((items - {i})[j], st);
    }
  }

  lemma QuietClientItems(s: State, i: nat, ch: Choice)
    requires AtMostOne(s.items) && NoneLost(s.shared.rows, s.items) && i in s.items && s.items[i].Finalizer?
    requires forall j <- s.items :: s.items[j].Hand? ==> QuietHand(s.items[j])
    ensures var after := StepClient(s, i, ch);
            && after.shared.rows == s.shared.rows
            && AtMostOne(after.items) && NoneLost(s.shared.rows, after.items)
            && forall j <- after.items :: after.items[j].Hand? ==> QuietHand(after.items[j])
  {
    NoTokenGone(s.items, i, s.shared.rows);
    SameTokens(s.items, i, Finalizer(CheckingFile), s.shared.rows);
    SameTokens(s.items, i, Finalizer(Committing), s.shared.rows);
  }

  lemma QuietClientStep(cfg: Config, s: State, i: nat, ch: Choice)
    requires QuietInv(cfg, s) && Enabled(cfg, s, Client(i, ch))
    ensures QuietInv(cfg, StepClient(s, i, ch))
  {
    QuietClientItems(s, i, ch);
    StepKeeps(cfg, s, Client(i, ch));
  }

  lemma QuietArrival(cfg: Config, s: State, item: Item)
    requires QuietInv(cfg, s) && (item.Finalizer? || (item.Queued? && item.msg.StartMsg?))
    ensures var after := Add(s, Some(item));
            AtMostOne(after.items) && NoneLost(after.shared.rows, after.items)
            && forall i <- after.items :: after.items[i].Hand? ==> QuietHand(after.items[i])
  {
    NoTokenAdded(s.items, s.next, item, s.shared.rows);
  }

  lemma QuietDelivery(cfg: Config, s: State, i: nat)
    requires QuietInv(cfg, s) && i in s.items && s.items[i].Queued? && !s.items[i].place.Dlq?
    ensures var q := s.items[i];
            var after := s.items[i := Hand(q.msg, q.retries, false, InitialPc(q.msg))];
            AtMostOne(after) && NoneLost(s.shared.rows, after) && forall j <- after :: after[j].Hand? ==>
                QuietHand(after[j])
  {
    var q := s.items[i];
    DeliveryHoldsTheSame(q);
    SameTokens(s.items, i, Hand(q.msg, q.retries, false, InitialPc(q.msg)), s.shared.rows);
  }

  lemma DeliveryHoldsTheSame(q: Item)
    requires q.Queued? && !q.place.Dlq?
    ensures var h := Hand(q.msg, q.retries, false, InitialPc(q.msg));
            QuietHand(h) && forall st :: Holds(h, st) <==> Holds(q, st)
  {
  }

  lemma QuietElapse(cfg: Config, s: State, i: nat)
    requires QuietInv(cfg, s) && i in s.items && s.items[i].Queued? && s.items[i].place.Delay?
    ensures var after := s.items[i := s.items[i].(place := Main)];
            AtMostOne(after) && NoneLost(s.shared.rows, after) && forall j <- after :: after[j].Hand? ==>
                QuietHand(after[j])
  {
    SameTokens(s.items, i, s.items[i].(place := Main), s.shared.rows);
  }

  lemma QuietStep(cfg: Config, s: State, a: Action)
    requires QuietInv(cfg, s) && Enabled(cfg, s, a) && Quiet(s, a)
    ensures QuietInv(cfg, Do(cfg, s, a))
  {
    match a
    case Run(i, ch) => QuietRunStep(cfg, s, i, ch);
    case Client(i, ch) => QuietClientStep(cfg, s, i, ch);
    case NewClient =>
      QuietArrival(cfg, s, Finalizer(LookingUp));
      StepKeeps(cfg, s, a);
    case Dispatch =>
      QuietArrival(cfg, s, Queued(Main, StartMsg, 0));
      StepKeeps(cfg, s, a);
    case Expire => StepKeeps(cfg, s, a);
    case Deliver(i) =>
      QuietDelivery(cfg, s, i);
      StepKeeps(cfg, s, a);
    case Elapse(i) =>
      QuietElapse(cfg, s, i);
      StepKeeps(cfg, s, a);
    case Crash(i) =>
      NoTokenGone(s.items, i, s.shared.rows);
      StepKeeps(cfg, s, a);
  }

  lemma {:induction false} QuietRunKeeps(cfg: Config, s: State, acts: seq<Action>)
    requires QuietInv(cfg, s) && QuietRun(cfg, s, acts)
    ensures Legal(cfg, s, acts) && QuietInv(cfg, Exec(cfg, s, acts))
    decreases |acts|
  {
    if acts != [] {
      QuietStep(cfg, s, acts[0]);
      QuietRunKeeps(cfg, Do(cfg, s, acts[0]), acts[1..]);
    }
  }

  // ---------------------------------------------------------------- what it means

  /** The copy of a step's trigger: in an orchestrator's hand before it is published, in the worker's main
      or delay queue, or in the hand of a worker that has not handed the row on. */
  predicate TriggerCopy(item: Item, st: StepName) {
    match item
    case Queued(place, msg, _) => !place.Dlq? && msg == TriggerMsg(st)
    case Hand(msg, _, _, pc) =>
      (pc.Sending? && pc.k < |INITIAL_STEPS| && INITIAL_STEPS[pc.k] == st)
      || pc == SendingNext(st)
      || (msg == TriggerMsg(st) && !Through(pc) && !pc.Reporting?)
    case Finalizer(_) => false
  }

  predicate Idle(items: map<nat, Item>) {
    forall i <- items :: items[i].Finalizer? || (items[i].Queued? && items[i].place.Dlq?)
  }

  lemma TriggerCopyIsToken(item: Item, st: StepName)
    ensures TriggerCopy(item, st) ==> Holds(item, st)
  {
  }

  lemma NoDoneResultYet(cfg: Config, sh: Shared, msg: Msg, st: StepName)
    requires cfg.shipped && Is(sh.rows, st, Processing) && MsgOk(cfg, sh, msg)
    ensures msg != ResultMsg(st, Done)
  {
  }

  lemma NotReportingYet(cfg: Config, sh: Shared, me: nat, msg: Msg, pc: Pc, st: StepName)
    requires cfg.shipped && Is(sh.rows, st, Processing) && PcOk(cfg, sh, me, msg, pc) && msg == TriggerMsg(st)
    ensures !pc.Reporting?
  {
  }

  lemma TokenIsTriggerCopy(cfg: Config, sh: Shared, i: nat, item: Item, st: StepName)
    requires cfg.shipped && Is(sh.rows, st, Processing) && ItemOk(cfg, sh, i, item) && Holds(item, st)
    ensures TriggerCopy(item, st)
  {
    NoDoneResultYet(cfg, sh, item.msg, st);
    if item.Hand? && item.msg == TriggerMsg(st) {
      NotReportingYet(cfg, sh, i, item.msg, item.pc, st);
    }
  }

  ghost predicate OneTriggerCopy(items: map<nat, Item>, st: StepName) {
    && (exists i :: i in items && TriggerCopy(items[i], st))
    && (forall i, j :: i in items && j in items && TriggerCopy(items[i], st) && TriggerCopy(items[j], st) ==> i == j)
  }

  lemma ProcessingHasOneTrigger(cfg: Config, s: State, st: StepName)
    requires cfg.shipped && QuietInv(cfg, s) && Is(s.shared.rows, st, Processing)
    ensures OneTriggerCopy(s.items, st)
  {
    assert SomeoneHolds(s.items, st);
    var i :| i in s.items && Holds(s.items[i], st);
    TokenIsTriggerCopy(cfg, s.shared, i, s.items[i], st);
    forall j <- s.items ensures TriggerCopy(s.items[j], st) ==> Holds(s.items[j], st) {
      TriggerCopyIsToken(s.items[j], st);
    }
  }

  /** With the workers as shipped, after any quiet run each processing row has exactly one copy of its
      trigger. */
  lemma ExactlyOneTrigger(cfg: Config, s0: State, acts: seq<Action>, st: StepName)
    requires cfg.shipped && Init(s0) && QuietRun(cfg, s0, acts) && Legal(cfg, s0, acts)
    requires Is(Exec(cfg, s0, acts).shared.rows, st, Processing)
    ensures OneTriggerCopy(Exec(cfg, s0, acts).items, st)
  {
    InitOk(cfg, s0);
    QuietRunKeeps(cfg, s0, acts);
    ProcessingHasOneTrigger(cfg, Exec(cfg, s0, acts), st);
  }

  /** Exactly one item holds the work of `st`. */
  ghost predicate OneHolder(items: map<nat, Item>, st: StepName) {
    && SomeoneHolds(items, st)
    && (forall i, j :: i in items && j in items && Holds(items[i], st) && Holds(items[j], st) ==> i == j)
  }

  /** For either kind of worker, after any quiet run the work of each processing row, of any of the five steps,
      is in exactly one place: the trigger about to be published, on its way, or in a worker's hand, or the
      worker's done result on its way or in the orchestrator's hand. */
  lemma ExactlyOneHolder(cfg: Config, s0: State, acts: seq<Action>, st: StepName)
    requires Init(s0) && QuietRun(cfg, s0, acts) && Legal(cfg, s0, acts)
    requires Is(Exec(cfg, s0, acts).shared.rows, st, Processing)
    ensures OneHolder(Exec(cfg, s0, acts).items, st)
  {
    InitOk(cfg, s0);
    QuietRunKeeps(cfg, s0, acts);
  }

  /** Quiescence, for either kind of worker: once every queue but the dead letters is empty and no handler
      is at work, no row is processing. */
  lemma IdleMeansNoneProcessing(cfg: Config, s0: State, acts: seq<Action>)
    requires Init(s0) && QuietRun(cfg, s0, acts) && Legal(cfg, s0, acts) && Idle(Exec(cfg, s0, acts).items)
    ensures var rows := Exec(cfg, s0, acts).shared.rows; forall st <- rows :: !rows[st].Processing?
  {
    InitOk(cfg, s0);
    QuietRunKeeps(cfg, s0, acts);
  }
}
