/** The orchestrator's handlers and the consume loop around every handler, as the running code makes its
    calls: each method drives the state machine of module Pipeline from a handler's first program counter to
    its last, whatever everybody else does in between. */
module Orchestrator {
  import opened StepTable
  import opened Pipeline
  import opened PipelineInvariant
  import opened PipelineSteps
  import opened PipelineTheorems
  import opened Sessions

  method CreateRow(sess: Session, k: nat) returns (ok: bool)
    requires sess.Valid() && k < |PIPELINE_STEPS| && sess.At(Creating(k))
    modifies sess
    ensures sess.Valid() && Leads(sess.cfg, old(sess.s), sess.s)
    ensures sess.At(if !ok then Returned(false) else if k + 1 < |PIPELINE_STEPS| then Creating(k + 1)
              else Triggering(0))
  {
    var r := sess.Make(Creating(k), InsertStep(PIPELINE_STEPS[k]));
    return !r.NotOk?;
  }

  /** CreateUploadSteps: one insert a step, in order; the first error ends it. */
  method CreateUploadSteps(sess: Session) returns (ok: bool)
    requires sess.Valid() && sess.At(Creating(0))
    modifies sess
    ensures sess.Valid() && Leads(sess.cfg, old(sess.s), sess.s)
    ensures sess.At(if ok then Triggering(0) else Returned(false))
  {
    LeadsNowhere(sess.cfg, sess.s);
    ghost var start := sess.s;
    var k := 0;
    while k < |PIPELINE_STEPS|
      invariant 0 <= k <= |PIPELINE_STEPS|
      invariant sess.Valid() && Leads(sess.cfg, start, sess.s)
      invariant sess.At(if k < |PIPELINE_STEPS| then Creating(k) else Triggering(0))
    {
      ghost var before := sess.s;
      ok := CreateRow(sess, k);
      LeadsOn(sess.cfg, start, before, sess.s);
      if !ok {
        return false;
      }
      k := k + 1;
    }
    return true;
  }

  /** Where triggerStep is called from: the start of an upload, or the step before. */
  predicate ClaimAt(step: StepName, claiming: Pc, sending: Pc) {
    (claiming.Triggering? && claiming.k < |INITIAL_STEPS| && INITIAL_STEPS[claiming.k] == step
        && sending == Sending(claiming.k))
    || (claiming == TriggeringNext(step) && sending == SendingNext(step))
  }

  function AfterClaim(claiming: Pc): Pc {
    if claiming.Triggering? then NextTrigger(claiming.k) else Returned(true)
  }

  /** The calls of triggerStep: the claim, and a publish after it exactly when it applied. */
  predicate ClaimLog(log: Log, step: StepName, ok: bool) {
    && log != [] && log[0].0 == UpdateStep(step, Processing)
    && if log[0].1 == Outcome(true)
       then |log| == 2 && log[1].0 == SendTrigger(step) && (ok <==> !log[1].1.NotOk?)
       else |log| == 1 && (ok <==> !log[0].1.NotOk?)
  }

  method Claim(sess: Session, step: StepName, ghost claiming: Pc, ghost sending: Pc) returns (r: Resp)
    requires sess.Valid() && sess.At(claiming) && ClaimAt(step, claiming, sending)
    modifies sess
    ensures sess.Valid() && Leads(sess.cfg, old(sess.s), sess.s) && Forward(old(sess.s.shared), sess.s.shared)
    ensures sess.At(if r.NotOk? then Returned(false) else if r == Outcome(true) then sending else AfterClaim(claiming))
    ensures !r.NotOk? ==> step in sess.s.shared.rows ==> !sess.s.shared.rows[step].Pending?
    ensures r == Outcome(true) ==> Is(sess.s.shared.rows, step, Processing)
    ensures sess.log == old(sess.log) + [(UpdateStep(step, Processing), r)]
  {
    r := sess.Make(claiming, UpdateStep(step, Processing));
  }

  method SendClaimed(sess: Session, step: StepName, ghost claiming: Pc, ghost sending: Pc) returns (r: Resp)
    requires sess.Valid() && sess.At(sending) && ClaimAt(step, claiming, sending)
    modifies sess
    ensures sess.Valid() && Leads(sess.cfg, old(sess.s), sess.s) && Forward(old(sess.s.shared), sess.s.shared)
    ensures sess.At(if r.NotOk? then Returned(false) else AfterClaim(claiming))
    ensures sess.log == old(sess.log) + [(SendTrigger(step), r)]
  {
    r := sess.Make(sending, SendTrigger(step));
  }

  /** Claims the row, and only if that applied publishes the trigger. When it returns without an error the
      step has left pending, by this claim or another's. */
  method TriggerStep(sess: Session, step: StepName, ghost claiming: Pc, ghost sending: Pc) returns (ok: bool)
    requires sess.Valid() && sess.At(claiming) && ClaimAt(step, claiming, sending)
    modifies sess
    ensures sess.Valid() && Leads(sess.cfg, old(sess.s), sess.s) && Forward(old(sess.s.shared), sess.s.shared)
    ensures sess.At(if ok then AfterClaim(claiming) else Returned(false))
    ensures ok ==> step in sess.s.shared.rows ==> !sess.s.shared.rows[step].Pending?
    ensures ClaimLog(sess.Since(|old(sess.log)|), step, ok) && old(sess.log) <= sess.log
  {
    var r := Claim(sess, step, claiming, sending);
    ghost var claim := (UpdateStep(step, Processing), r);
    OneCall(old(sess.log), claim);
    if r.NotOk? {
      return false;
    }
    if r != Outcome(true) {
      return true;
    }
    ghost var claimed := sess.s;
    r := SendClaimed(sess, step, claiming, sending);
    TwoCalls(old(sess.log), claim, (SendTrigger(step), r));
    LeadsOn(sess.cfg, old(sess.s), claimed, sess.s);
    ForwardOn(old(sess.s.shared), claimed.shared, sess.s.shared);
    return !r.NotOk?;
  }

  /** All rows exist, and the first k initial steps have left pending. */
  predicate Begun(rows: StepRows, k: nat) {
    AllRows(rows) && forall j :: 0 <= j < k && j < |INITIAL_STEPS| ==> !rows[INITIAL_STEPS[j]].Pending?
  }

  lemma BegunStays(a: Shared, b: Shared, k: nat)
    requires Begun(a.rows, k) && Forward(a, b)
    ensures Begun(b.rows, k)
  {
    forall j | 0 <= j < k && j < |INITIAL_STEPS| ensures !b.rows[INITIAL_STEPS[j]].Pending? {
      assert INITIAL_STEPS[j] in a.rows && !a.rows[INITIAL_STEPS[j]].Pending?;
    }
  }

  /** Where the loop over the initial steps stands. */
  function InitialAt(k: nat): Pc {
    if k < |INITIAL_STEPS| then Triggering(k) else Returned(true)
  }

  method TriggerInitial(sess: Session, k: nat) returns (ok: bool)
    requires sess.Valid() && k < |INITIAL_STEPS| && sess.At(Triggering(k)) && Begun(sess.s.shared.rows, k)
    modifies sess
    ensures sess.Valid() && Leads(sess.cfg, old(sess.s), sess.s)
    ensures sess.At(if ok then InitialAt(k + 1) else Returned(false))
    ensures ok ==> Begun(sess.s.shared.rows, k + 1)
  {
    ghost var before := sess.s;
    ok := TriggerStep(sess, INITIAL_STEPS[k], Triggering(k), Sending(k));
    BegunStays(before.shared, sess.s.shared, k);
  }

  /** The initial steps, one after the other; the first error ends it. */
  method TriggerInitialSteps(sess: Session) returns (ok: bool)
    requires sess.Valid() && sess.At(Triggering(0)) && Begun(sess.s.shared.rows, 0)
    modifies sess
    ensures sess.Valid() && Leads(sess.cfg, old(sess.s), sess.s) && sess.At(Returned(ok))
    ensures ok ==> Begun(sess.s.shared.rows, |INITIAL_STEPS|)
  {
    LeadsNowhere(sess.cfg, sess.s);
    var k := 0;
    while k < |INITIAL_STEPS|
      invariant 0 <= k <= |INITIAL_STEPS|
      invariant sess.Valid() && Leads(sess.cfg, old(sess.s), sess.s)
      invariant sess.At(InitialAt(k))
      invariant Begun(sess.s.shared.rows, k)
    {
      ghost var before := sess.s;
      ok := TriggerInitial(sess, k);
      LeadsOn(sess.cfg, old(sess.s), before, sess.s);
      if !ok {
        return false;
      }
      k := k + 1;
    }
    return true;
  }

  /** The start message: five pending rows, then the two initial steps. When it succeeds all rows exist and
      both initial steps have left pending. */
  method ProcessUploadProcess(sess: Session) returns (ok: bool)
    requires sess.Valid() && sess.msg.StartMsg? && sess.At(InitialPc(sess.msg))
    modifies sess
    ensures sess.Valid() && Leads(sess.cfg, old(sess.s), sess.s) && sess.At(Returned(ok))
    ensures ok ==> var rows := sess.s.shared.rows;
              AllRows(rows) && !rows[Metadata].Pending? && !rows[Thumbnail].Pending?
  {
    ok := CreateUploadSteps(sess);
    if !ok {
      return false;
    }
    RowsExist(sess.cfg, sess.s, sess.me);
    ghost var created := sess.s;
    ok := TriggerInitialSteps(sess);
    LeadsOn(sess.cfg, old(sess.s), created, sess.s);
    assert INITIAL_STEPS[0] == Metadata && INITIAL_STEPS[1] == Thumbnail;
  }

  lemma RowsExist(cfg: Config, s: State, me: nat)
    requires Reachable(cfg, s) && me in s.items && s.items[me].Hand? && s.items[me].pc == Triggering(0)
    ensures Begun(s.shared.rows, 0)
  {
    ReachableOk(cfg, s);
    assert ItemOk(cfg, s.shared, me, s.items[me]);
  }

  method CancelOne(sess: Session, k: nat, ghost clean: bool) returns (ghost still: bool, ghost r: Resp)
    requires sess.Valid() && k < |PIPELINE_STEPS| && sess.At(Canceling(k, clean))
    modifies sess
    ensures sess.Valid() && Leads(sess.cfg, old(sess.s), sess.s)
    ensures sess.At(if k + 1 < |PIPELINE_STEPS| then Canceling(k + 1, still) else AllCanceled(still))
    ensures sess.log == old(sess.log) + [(UpdateStep(PIPELINE_STEPS[k], Canceled), r)]
    ensures still <==> clean && !r.NotOk?
  {
    var answer := sess.Make(Canceling(k, clean), UpdateStep(PIPELINE_STEPS[k], Canceled));
    r := answer;
    still := clean && !r.NotOk?;
  }

  /** The calls of the cancel loop up to its k-th turn, and whether all of them were answered. */
  predicate CancelLog(log: Log, k: nat, clean: bool) {
    && |log| == k <= |PIPELINE_STEPS|
    && (forall j :: 0 <= j < k ==> log[j].0 == UpdateStep(PIPELINE_STEPS[j], Canceled))
    && (clean <==> forall j :: 0 <= j < k ==> !log[j].1.NotOk?)
  }

  /** The same for the calls that follow `first`. */
  predicate CanceledAfter(first: Log, log: Log, k: nat, clean: bool) {
    first <= log && CancelLog(log[|first|..], k, clean)
  }

  lemma NoneCanceled(first: Log)
    ensures CanceledAfter(first, first, 0, true)
  {
  }

  lemma OneMoreCanceled(first: Log, log: Log, k: nat, clean: bool, r: Resp)
    requires CanceledAfter(first, log, k, clean) && k < |PIPELINE_STEPS|
    ensures CanceledAfter(first, log + [(UpdateStep(PIPELINE_STEPS[k], Canceled), r)], k + 1, clean && !r.NotOk?)
  {
    var a := (UpdateStep(PIPELINE_STEPS[k], Canceled), r);
    var before, after := log[|first|..], (log + [a])[|first|..];
    assert after == before + [a];
    assert forall j :: 0 <= j < k ==> after[j] == before[j];
    assert after[k].1 == r;
  }

  /** Where the cancel loop stands. */
  function CancelAt(k: nat, clean: bool): Pc {
    if k < |PIPELINE_STEPS| then Canceling(k, clean) else AllCanceled(clean)
  }

  /** One turn of the cancel loop. */
  method CancelNext(sess: Session, ghost start: State, ghost first: Log, k: nat, ghost clean: bool)
    returns (ghost still: bool)
    requires sess.Valid() && k < |PIPELINE_STEPS| && sess.At(CancelAt(k, clean))
    requires Leads(sess.cfg, start, sess.s) && CanceledAfter(first, sess.log, k, clean)
    modifies sess
    ensures sess.Valid() && Leads(sess.cfg, start, sess.s) && sess.At(CancelAt(k + 1, still))
    ensures CanceledAfter(first, sess.log, k + 1, still)
  {
    ghost var r;
    still, r := CancelOne(sess, k, clean);
    OneMoreCanceled(first, old(sess.log), k, clean, r);
    LeadsOn(sess.cfg, start, old(sess.s), sess.s);
  }

  /** The cancel loop passes over every step and ignores every error. */
  method CancelAll(sess: Session) returns (ghost clean: bool)
    requires sess.Valid() && sess.At(Canceling(0, true))
    modifies sess
    ensures sess.Valid() && Leads(sess.cfg, old(sess.s), sess.s) && sess.At(AllCanceled(clean))
    ensures CanceledAfter(old(sess.log), sess.log, |PIPELINE_STEPS|, clean)
  {
    LeadsNowhere(sess.cfg, sess.s);
    NoneCanceled(sess.log);
    clean := true;
    for k := 0 to |PIPELINE_STEPS|
      invariant sess.Valid() && Leads(sess.cfg, old(sess.s), sess.s) && sess.At(CancelAt(k, clean))
      invariant CanceledAfter(old(sess.log), sess.log, k, clean)
    {
      clean := CancelNext(sess, old(sess.s), old(sess.log), k, clean);
    }
  }

  lemma CanceledMeansTerminal(cfg: Config, s: State, me: nat)
    requires Reachable(cfg, s) && me in s.items && s.items[me].Hand? && s.items[me].pc == AllCanceled(true)
    ensures AllTerminal(s.shared.rows)
  {
    ReachableOk(cfg, s);
    assert ItemOk(cfg, s.shared, me, s.items[me]);
    TerminalEverywhere(s.shared.rows);
  }

  /** The calls after a failed result: the upload marked failed, and only when that was answered the cancel loop,
      over all five steps whatever its answers. */
  predicate FailureLog(log: Log, ok: bool, clean: bool) {
    && log != [] && log[0].0 == SetUpload(UploadFailed) && (ok <==> !log[0].1.NotOk?)
    && if ok then CancelLog(log[1..], 5, clean) else |log| == 1
  }

  /** The calls after a done result: the row's done update, and what follows only when that applied. */
  predicate AdvanceLog(log: Log, step: StepName, ok: bool) {
    && log != [] && log[0].0 == UpdateStep(step, Done)
    && if log[0].1 != Outcome(true) then |log| == 1 && (ok <==> !log[0].1.NotOk?)
       else NextLog(log[1..], step, ok)
  }

  /** What an applied done result sets going: `finished` after publish, or the claim of the step that comes next,
      if there is one. */
  predicate NextLog(log: Log, step: StepName, ok: bool) {
    match step
    case Metadata => ClaimLog(log, Transcode, ok)
    case Transcode => ClaimLog(log, Segment, ok)
    case Segment => ClaimLog(log, Publish, ok)
    case Publish => |log| == 1 && log[0].0 == SetUpload(UploadFinished) && (ok <==> !log[0].1.NotOk?)
    case _ => log == [] && ok
  }

  /** A step result. A failed one marks the upload failed and cancels every step: with no store error all
      five rows end terminal. A done one advances its row, and only an applied advance goes on to the next
      step or to `finished`; either way the row is no longer processing. Any other status does nothing. */
  method HandleStepResult(sess: Session, step: StepName, status: Status) returns (ok: bool, ghost clean: bool)
    requires sess.Valid() && sess.msg == ResultMsg(step, status) && sess.At(InitialPc(sess.msg))
    modifies sess
    ensures sess.Valid() && Leads(sess.cfg, old(sess.s), sess.s)
    ensures sess.At(if ok && status.Failed? then AllCanceled(clean) else Returned(ok))
    ensures status.Failed? ==> FailureLog(sess.Since(|old(sess.log)|), ok, clean)
    ensures status.Done? ==> AdvanceLog(sess.Since(|old(sess.log)|), step, ok)
    ensures ok && status.Failed? ==> sess.s.shared.hist.failedWrites > 0
    ensures ok && status.Failed? && clean ==> AllTerminal(sess.s.shared.rows)
    ensures ok && status.Done? ==> !Is(sess.s.shared.rows, step, Processing)
    ensures !status.Failed? && !status.Done? ==> ok && sess.s == old(sess.s) && sess.log == old(sess.log)
  {
    clean := false;
    if status.Failed? {
      ok, clean := FailAndCancel(sess);
      return;
    }
    LeadsNowhere(sess.cfg, sess.s);
    if !status.Done? {
      return true, clean;
    }
    ok := Advance(sess, step);
  }

  method FailAndCancel(sess: Session) returns (ok: bool, ghost clean: bool)
    requires sess.Valid() && sess.msg.ResultMsg? && sess.At(MarkingFailed)
    modifies sess
    ensures sess.Valid() && Leads(sess.cfg, old(sess.s), sess.s)
    ensures sess.At(if ok then AllCanceled(clean) else Returned(false))
    ensures FailureLog(sess.Since(|old(sess.log)|), ok, clean)
    ensures ok ==> sess.s.shared.hist.failedWrites > 0
    ensures ok && clean ==> AllTerminal(sess.s.shared.rows)
  {
    clean := false;
    var r := sess.Make(MarkingFailed, SetUpload(UploadFailed));
    ghost var mark := (SetUpload(UploadFailed), r);
    OneCall(old(sess.log), mark);
    if r.NotOk? {
      return false, clean;
    }
    ghost var marked, log := sess.s, sess.log;
    clean := CancelAll(sess);
    LeadsOn(sess.cfg, old(sess.s), marked, sess.s);
    FirstAndRest(old(sess.log), mark, sess.log);
    CanceledMeansMarked(sess.cfg, sess.s, sess.me);
    if clean {
      CanceledMeansTerminal(sess.cfg, sess.s, sess.me);
    }
    return true, clean;
  }

  lemma FirstAndRest(first: Log, a: (Call, Resp), log: Log)
    requires first + [a] <= log
    ensures first <= log && log[|first|..] == [a] + log[|first| + 1..]
    ensures log[|first|..][1..] == log[|first + [a]|..]
  {
  }

  lemma CanceledMeansMarked(cfg: Config, s: State, me: nat)
    requires Reachable(cfg, s) && me in s.items && s.items[me].Hand? && s.items[me].pc.AllCanceled?
    ensures s.shared.hist.failedWrites > 0
  {
    ReachableOk(cfg, s);
    assert ItemOk(cfg, s.shared, me, s.items[me]);
  }

  /** The row after a done result stays out of processing. */
  lemma NeverProcessingAgain(a: StepRows, b: StepRows, st: StepName)
    requires forall x <- a :: x in b && (a[x] == b[x] || Rank(a[x]) < Rank(b[x]))
    requires st in a && !a[st].Pending? && !a[st].Processing?
    ensures !Is(b, st, Processing)
  {
  }

  method Advance(sess: Session, step: StepName) returns (ok: bool)
    requires sess.Valid() && sess.At(Advancing(step)) && sess.msg == ResultMsg(step, Done)
    modifies sess
    ensures sess.Valid() && Leads(sess.cfg, old(sess.s), sess.s) && sess.At(Returned(ok))
    ensures AdvanceLog(sess.Since(|old(sess.log)|), step, ok)
    ensures ok ==> !Is(sess.s.shared.rows, step, Processing)
  {
    var r := sess.Make(Advancing(step), UpdateStep(step, Done));
    ghost var close := (UpdateStep(step, Done), r);
    OneCall(old(sess.log), close);
    if r.NotOk? {
      return false;
    }
    if r != Outcome(true) {
      return true;
    }
    ghost var advanced := sess.s;
    ResultRowExists(sess.cfg, sess.s, sess.me);
    ok := GoOn(sess, step);
    LeadsOn(sess.cfg, old(sess.s), advanced, sess.s);
    FirstAndRest(old(sess.log), close, sess.log);
    NeverProcessingAgain(advanced.shared.rows, sess.s.shared.rows, step);
  }

  method GoOn(sess: Session, step: StepName) returns (ok: bool)
    requires sess.Valid() && sess.At(Resume(sess.cfg, sess.Me(Advancing(step)), Outcome(true)))
    modifies sess
    ensures sess.Valid() && Leads(sess.cfg, old(sess.s), sess.s) && sess.At(Returned(ok))
    ensures Forward(old(sess.s.shared), sess.s.shared) && old(sess.log) <= sess.log
    ensures NextLog(sess.Since(|old(sess.log)|), step, ok)
  {
    match step {
      case Publish =>
        var r := sess.Make(Finishing, SetUpload(UploadFinished));
        OneCall(old(sess.log), (SetUpload(UploadFinished), r));
        ok := !r.NotOk?;
      case Metadata => ok := TriggerStep(sess, Transcode, TriggeringNext(Transcode), SendingNext(Transcode));
      case Transcode => ok := TriggerStep(sess, Segment, TriggeringNext(Segment), SendingNext(Segment));
      case Segment => ok := TriggerStep(sess, Publish, TriggeringNext(Publish), SendingNext(Publish));
      case _ =>
        LeadsNowhere(sess.cfg, sess.s);
        ok := true;
    }
  }

  lemma ResultRowExists(cfg: Config, s: State, me: nat)
    requires Reachable(cfg, s) && me in s.items && s.items[me].Hand? && s.items[me].msg.ResultMsg?
    ensures var st := s.items[me].msg.step; st in s.shared.rows && !s.shared.rows[st].Pending?
  {
    ReachableOk(cfg, s);
    assert ItemOk(cfg, s.shared, me, s.items[me]);
  }

  // ---------------------------------------------------------------- the consume loop

  /** The calls of a retry: the next copy is published, and only when that was answered without an error the
      delivery is acked; it counts as exhausted exactly when the copy went to the dead letters. */
  predicate RetryLog(log: Log, again: bool, exhausted: bool) {
    && log != [] && log[0].0 == (if again then SendDelay else SendDlq)
    && (exhausted <==> !again && !log[0].1.NotOk?)
    && if log[0].1.NotOk? then |log| == 1 else |log| == 2 && log[1].0 == AckMessage
  }

  /** Whether a failed delivery has retries left. */
  predicate RetriesLeft(retries: nat, cfg: Config) {
    retries + 1 <= cfg.maxRetries
  }

  /** HandleRetry: publish the delayed or dead copy first, then ack. Only a dead-lettered delivery reports
      exhaustion, and only when its retries are used up. */
  method HandleRetry(sess: Session) returns (exhausted: bool)
    requires sess.Valid() && sess.At(Returned(false))
    modifies sess
    ensures sess.Valid() && Leads(sess.cfg, old(sess.s), sess.s)
    ensures if exhausted && sess.msg.TriggerMsg? then sess.At(Failing(sess.msg.step)) else sess.Left()
    ensures RetryLog(sess.Since(|old(sess.log)|), RetriesLeft(sess.retries, sess.cfg), exhausted)
    ensures old(sess.log) <= sess.log
  {
    if sess.retries + 1 <= sess.cfg.maxRetries {
      RetryLater(sess);
      return false;
    }
    exhausted := DeadLetter(sess);
  }

  method RetryLater(sess: Session)
    requires sess.Valid() && sess.At(Returned(false)) && RetriesLeft(sess.retries, sess.cfg)
    modifies sess
    ensures sess.Valid() && Leads(sess.cfg, old(sess.s), sess.s) && sess.Left()
    ensures RetryLog(sess.Since(|old(sess.log)|), true, false) && old(sess.log) <= sess.log
  {
    var r := sess.Make(Returned(false), SendDelay);
    ghost var send := (SendDelay, r);
    OneCall(old(sess.log), send);
    if r.NotOk? {
      return;
    }
    ghost var sent := sess.s;
    r := sess.Make(AckingRetry, AckMessage);
    TwoCalls(old(sess.log), send, (AckMessage, r));
    LeadsOn(sess.cfg, old(sess.s), sent, sess.s);
  }

  method DeadLetter(sess: Session) returns (moved: bool)
    requires sess.Valid() && sess.At(Returned(false)) && !RetriesLeft(sess.retries, sess.cfg)
    modifies sess
    ensures sess.Valid() && Leads(sess.cfg, old(sess.s), sess.s)
    ensures if moved && sess.msg.TriggerMsg? then sess.At(Failing(sess.msg.step)) else sess.Left()
    ensures RetryLog(sess.Since(|old(sess.log)|), false, moved) && old(sess.log) <= sess.log
  {
    var r := sess.Make(Returned(false), SendDlq);
    ghost var send := (SendDlq, r);
    OneCall(old(sess.log), send);
    if r.NotOk? {
      return false;
    }
    ghost var sent := sess.s;
    r := sess.Make(AckingDlq, AckMessage);
    TwoCalls(old(sess.log), send, (AckMessage, r));
    LeadsOn(sess.cfg, old(sess.s), sent, sess.s);
    return true;
  }

  /** The calls after a handler returned: the ack, or the retry. */
  predicate DisposalLog(log: Log, ok: bool, again: bool) {
    if ok then |log| == 1 && log[0].0 == AckMessage else RetryLog(log, again, !again && log != [] && !log[0].1.NotOk?)
  }

  method Acknowledge(sess: Session, ghost pc: Pc)
    requires sess.Valid() && sess.At(pc) && (pc == Returned(true) || pc.AllCanceled?)
    modifies sess
    ensures sess.Valid() && Leads(sess.cfg, old(sess.s), sess.s) && sess.Left()
    ensures Forward(old(sess.s.shared), sess.s.shared)
    ensures DisposalLog(sess.Since(|old(sess.log)|), true, RetriesLeft(sess.retries, sess.cfg))
    ensures |sess.log| == |old(sess.log)| + 1
  {
    var r := sess.Make(pc, AckMessage);
    OneCall(old(sess.log), (AckMessage, r));
  }

  /** One turn of RunUploadProcessConsumer on a readable message: the handler, then, from its `done`-th call on,
      the ack or the retry. */
  method ConsumeStart(sess: Session) returns (ok: bool, ghost done: nat)
    requires sess.Valid() && sess.msg.StartMsg? && sess.At(InitialPc(sess.msg))
    modifies sess
    ensures sess.Valid() && Leads(sess.cfg, old(sess.s), sess.s) && sess.Left()
    ensures DisposalLog(sess.Since(done), ok, RetriesLeft(sess.retries, sess.cfg))
  {
    ok := ProcessUploadProcess(sess);
    ghost var handled := sess.s;
    done := |sess.log|;
    if ok {
      Acknowledge(sess, Returned(true));
    } else {
      var _ := HandleRetry(sess);
    }
    LeadsOn(sess.cfg, old(sess.s), handled, sess.s);
  }

  /** One turn of RunStepResultConsumer on a readable message, likewise. */
  method ConsumeResult(sess: Session) returns (ok: bool, ghost done: nat)
    requires sess.Valid() && sess.msg.ResultMsg? && sess.At(InitialPc(sess.msg))
    modifies sess
    ensures sess.Valid() && Leads(sess.cfg, old(sess.s), sess.s) && sess.Left()
    ensures DisposalLog(sess.Since(done), ok, RetriesLeft(sess.retries, sess.cfg))
  {
    ghost var clean;
    ok, clean := HandleStepResult(sess, sess.msg.step, sess.msg.status);
    ghost var handled := sess.s;
    done := |sess.log|;
    if ok {
      Acknowledge(sess, if sess.msg.status.Failed? then AllCanceled(clean) else Returned(true));
    } else {
      var _ := HandleRetry(sess);
    }
    LeadsOn(sess.cfg, old(sess.s), handled, sess.s);
  }
}
