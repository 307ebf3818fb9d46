/** The life of one upload: who writes its status, who deletes it, who may still finalize it, and how often a
    message comes again. */
module Lifecycle {
  import opened Basics
  import opened Pipeline
  import opened PipelineInvariant
  import opened PipelineSteps

  // ---------------------------------------------------------------- the status

  lemma OnlySetUploadWrites(sh: Shared, me: nat, call: Call, ch: Choice)
    ensures var sh' := Effect(sh, me, call, ch).0;
            && sh'.upStatus == (if call.SetUpload? && TakesEffect(ch.fault) then call.upload else sh.upStatus)
            && sh'.hist.failedWrites
               == sh.hist.failedWrites + (if call == SetUpload(UploadFailed) && TakesEffect(ch.fault) then 1 else 0)
  {
  }

  /** The result consumer on a failed result, and publish's failure report. */
  predicate MarksFailed(item: Item) {
    item.Hand? && (item.pc.MarkingFailed? || item.pc.FailingUpload?)
  }

  lemma HandsWrite(cfg: Config, vid: string, h: Item)
    requires h.Hand?
    ensures var call := NextCall(cfg, vid, h);
            && (call.SetUpload? <==> MarksFailed(h) || h.pc.Finishing?)
            && (MarksFailed(h) ==> call == SetUpload(UploadFailed))
            && (h.pc.Finishing? ==> call == SetUpload(UploadFinished))
  {
  }

  /** What a step leaves as the upload's status: `failed` by the two that mark failures, `finished` by the result
      consumer after publish, `processing` by a client's commit, `expired` by the expirer on a pending upload
      that is not deleted; nothing else writes it. */
  function StatusAfter(s: State, a: Action): UploadStatus
  {
    match a
    case Run(i, ch) =>
      if i !in s.items || !s.items[i].Hand? || !TakesEffect(ch.fault) then s.shared.upStatus
      else if MarksFailed(s.items[i]) then UploadFailed
      else if s.items[i].pc.Finishing? then UploadFinished
      else s.shared.upStatus
    case Client(i, ch) =>
      if i in s.items && s.items[i] == Finalizer(Committing) && TakesEffect(ch.fault) then UploadProcessing
      else s.shared.upStatus
    case Expire =>
      if s.shared.upStatus.UploadPending? && !s.shared.deleted then UploadExpired else s.shared.upStatus
    case _ => s.shared.upStatus
  }

  lemma HandLeavesStatus(cfg: Config, sh: Shared, me: nat, h: Item, ch: Choice)
    requires h.Hand? && (ch.skipClose ==> h.pc.Closing?)
    ensures var sh' := StepHand(cfg, sh, me, h, ch).0;
            && sh'.upStatus == (if !TakesEffect(ch.fault) then sh.upStatus else if MarksFailed(h) then UploadFailed
                else if h.pc.Finishing? then UploadFinished else sh.upStatus)
            && sh'.hist.failedWrites
               == sh.hist.failedWrites + (if MarksFailed(h) && TakesEffect(ch.fault) then 1 else 0)
  {
    OnlySetUploadWrites(sh, me, NextCall(cfg, sh.vid, h), ch);
    HandsWrite(cfg, sh.vid, h);
  }

  lemma StatusWrittenExactlyBy(cfg: Config, s: State, a: Action)
    requires Enabled(cfg, s, a)
    ensures Do(cfg, s, a).shared.upStatus == StatusAfter(s, a)
    ensures Do(cfg, s, a).shared.hist.failedWrites
         == s.shared.hist.failedWrites
            + (if a.Run? && MarksFailed(s.items[a.i]) && TakesEffect(a.ch.fault) then 1 else 0)
  {
    if a.Run? {
      HandLeavesStatus(cfg, s.shared, a.i, s.items[a.i], a.ch);
    }
  }

  /** An upload that has left pending is never pending again, whatever happens. */
  lemma {:induction false} PendingNeverReturns(cfg: Config, s: State, acts: seq<Action>)
    requires Legal(cfg, s, acts) && !s.shared.upStatus.UploadPending?
    ensures !Exec(cfg, s, acts).shared.upStatus.UploadPending?
    decreases |acts|
  {
    if acts != [] {
      StatusWrittenExactlyBy(cfg, s, acts[0]);
      PendingNeverReturns(cfg, Do(cfg, s, acts[0]), acts[1..]);
    }
  }

  /** A handler past the mark of a failed result has marked the upload failed; a status that reads failed was
      written by such a mark. Both over every reachable state. */
  lemma FailureIsMarked(cfg: Config, s: State)
    requires Reachable(cfg, s)
    ensures forall i <- s.items :: s.items[i].Hand? && (s.items[i].pc.Canceling? || s.items[i].pc.AllCanceled?) ==>
              s.shared.hist.failedWrites > 0 && s.items[i].msg.ResultMsg? && s.items[i].msg.status.Failed?
    ensures s.shared.upStatus.UploadFailed? ==> s.shared.hist.failedWrites > 0
  {
    ReachableOk(cfg, s);
    forall i <- s.items | s.items[i].Hand? && (s.items[i].pc.Canceling? || s.items[i].pc.AllCanceled?)
      ensures s.shared.hist.failedWrites > 0 && s.items[i].msg.ResultMsg? && s.items[i].msg.status.Failed?
    {
      assert ItemOk(cfg, s.shared, i, s.items[i]);
    }
  }

  // ---------------------------------------------------------------- deletion

  lemma HandKeepsColumns(cfg: Config, sh: Shared, me: nat, h: Item, ch: Choice)
    requires h.Hand?
    ensures var sh' := StepHand(cfg, sh, me, h, ch).0;
            && sh'.deleted == sh.deleted && sh'.videoDeleted == sh.videoDeleted
            && sh'.path == sh.path && sh'.startEvents == sh.startEvents
  {
    CallKeepsColumns(sh, me, NextCall(cfg, sh.vid, h), ch);
  }

  lemma CallKeepsColumns(sh: Shared, me: nat, call: Call, ch: Choice)
    ensures var sh' := Effect(sh, me, call, ch).0;
            && sh'.deleted == sh.deleted && sh'.videoDeleted == sh.videoDeleted
            && sh'.path == sh.path && sh'.startEvents == sh.startEvents
  {
  }

  /** Only the expirer deletes, and only an upload that is pending at that moment; its video goes with it. */
  lemma DeletedExactlyBy(cfg: Config, s: State, a: Action)
    requires Enabled(cfg, s, a)
    ensures var after := Do(cfg, s, a).shared;
            && (after.deleted <==> s.shared.deleted || (a.Expire? && s.shared.upStatus.UploadPending?))
            && (s.shared.videoDeleted == s.shared.deleted ==> after.videoDeleted == after.deleted)
  {
    if a.Run? { HandKeepsColumns(cfg, s.shared, a.i, s.items[a.i], a.ch); }
  }

  lemma {:induction false} DeletedTogetherAlong(cfg: Config, s: State, acts: seq<Action>)
    requires Legal(cfg, s, acts) && s.shared.videoDeleted == s.shared.deleted
    ensures var after := Exec(cfg, s, acts).shared;
            after.videoDeleted == after.deleted && (s.shared.deleted ==> after.deleted)
    decreases |acts|
  {
    if acts != [] {
      DeletedExactlyBy(cfg, s, acts[0]);
      DeletedTogetherAlong(cfg, Do(cfg, s, acts[0]), acts[1..]);
    }
  }

  /** An upload and its video are deleted together, in every reachable state. */
  lemma DeletedTogether(cfg: Config, s: State)
    requires Reachable(cfg, s)
    ensures s.shared.videoDeleted == s.shared.deleted
  {
    var s0, acts :| Init(s0) && Legal(cfg, s0, acts) && s == Exec(cfg, s0, acts);
    DeletedTogetherAlong(cfg, s0, acts);
  }

  /** A worker that looks up a deleted upload does not work on it: the attempt fails and nothing is changed. */
  lemma DeletedIsNotWorkedOn(cfg: Config, s: State, i: nat, ch: Choice)
    requires Reachable(cfg, s) && Enabled(cfg, s, Run(i, ch)) && s.items[i].pc.Fetching? && s.shared.deleted
    ensures var after := Do(cfg, s, Run(i, ch));
            && after.shared == s.shared && i in after.items && after.items[i] == s.items[i].(pc := Returned(false))
  {
    var h := s.items[i];
    assert NextCall(cfg, s.shared.vid, h) == GetContext;
    assert StepHand(cfg, s.shared, i, h, ch) == (s.shared, h.(pc := Returned(false)));
    assert StepCopy(cfg, s.shared, h, ch) == None;
  }

  // ---------------------------------------------------------------- finalizing

  /** A client that looked while the upload was still pending. */
  predicate PastTheLook(item: Item) {
    item == Finalizer(CheckingFile) || item == Finalizer(Committing)
  }

  predicate SomeonePastTheLook(items: map<nat, Item>) {
    exists i :: i in items && PastTheLook(items[i])
  }

  /** A look lets its client go on exactly when it is answered and finds the upload pending and not deleted; it
      changes nothing. */
  lemma LookPassesExactlyWhen(cfg: Config, s: State, i: nat, ch: Choice)
    requires Enabled(cfg, s, Client(i, ch)) && s.items[i] == Finalizer(LookingUp)
    ensures var after := Do(cfg, s, Client(i, ch));
            && after.shared == s.shared
            && (i in after.items <==> ch.fault.NoFault? && !s.shared.deleted && s.shared.upStatus.UploadPending?)
            && (i in after.items ==> after.items[i] == Finalizer(CheckingFile))
  {
  }

  /** No longer open to a client that has yet to look. */
  predicate Closed(sh: Shared) {
    sh.deleted || !sh.upStatus.UploadPending?
  }

  lemma ClosedStep(cfg: Config, s: State, a: Action)
    requires Enabled(cfg, s, a) && Closed(s.shared) && !SomeonePastTheLook(s.items)
    ensures var after := Do(cfg, s, a);
            && Closed(after.shared) && !SomeonePastTheLook(after.items)
            && after.shared.path == s.shared.path && after.shared.startEvents == s.shared.startEvents
  {
    StatusWrittenExactlyBy(cfg, s, a);
    DeletedExactlyBy(cfg, s, a);
    if a.Run? { HandKeepsColumns(cfg, s.shared, a.i, s.items[a.i], a.ch); }
    NobodyGetsPast(cfg, s, a);
    if a.Client? { assert !PastTheLook(s.items[a.i]); }
  }

  lemma NobodyGetsPast(cfg: Config, s: State, a: Action)
    requires Enabled(cfg, s, a) && Closed(s.shared) && !SomeonePastTheLook(s.items)
    ensures !SomeonePastTheLook(Do(cfg, s, a).items)
  {
    var after := Do(cfg, s, a);
    forall i | i in after.items ensures !PastTheLook(after.items[i]) {
      if i in s.items { assert !PastTheLook(s.items[i]); }
      if a.Run? { SentIsQueued(cfg, s.shared, s.items[a.i], a.ch); }
      if a.Client? { assert !PastTheLook(s.items[a.i]); }
    }
  }

  /** Once an upload is deleted or has left pending, and no client is past its look, it is never finalized: its
      path stays as it is and no start event is added, in every continuation. */
  lemma {:induction false} FinalizingIsOver(cfg: Config, s: State, acts: seq<Action>)
    requires Legal(cfg, s, acts) && Closed(s.shared) && !SomeonePastTheLook(s.items)
    ensures var after := Exec(cfg, s, acts).shared;
            after.path == s.shared.path && after.startEvents == s.shared.startEvents
    decreases |acts|
  {
    if acts != [] {
      ClosedStep(cfg, s, acts[0]);
      FinalizingIsOver(cfg, Do(cfg, s, acts[0]), acts[1..]);
    }
  }

  // ---------------------------------------------------------------- retries

  /** A copy waits in the delay queue of its own number, never beyond the maximum; it is dead only when its
      retries are used up. */
  predicate CountedCopy(cfg: Config, item: Item) {
    match item
    case Queued(Main, _, r) => r <= cfg.maxRetries
    case Queued(Delay(k), _, r) => 1 <= k == r <= cfg.maxRetries
    case Queued(Dlq, _, r) => r == cfg.maxRetries
    case Hand(_, r, _, _) => r <= cfg.maxRetries
    case Finalizer(_) => true
  }

  predicate Counted(cfg: Config, items: map<nat, Item>) {
    forall i <- items :: CountedCopy(cfg, items[i])
  }

  lemma SentIsCounted(cfg: Config, sh: Shared, h: Item, ch: Choice)
    requires h.Hand? && h.retries <= cfg.maxRetries
    ensures var copy := StepCopy(cfg, sh, h, ch); copy.Some? ==> CountedCopy(cfg, copy.value)
  {
    var call := NextCall(cfg, sh.vid, h);
    SendsExactly(cfg, sh.vid, h);
  }

  lemma SendsExactly(cfg: Config, vid: string, h: Item)
    requires h.Hand?
    ensures var call := NextCall(cfg, vid, h);
            && (call.SendDelay? ==> h.retries < cfg.maxRetries) && (call.SendDlq? ==> h.retries >= cfg.maxRetries)
  {
  }

  lemma SettledIsCounted(cfg: Config, items: map<nat, Item>, i: nat, h: Item)
    requires Counted(cfg, items) && h.Hand? && h.retries <= cfg.maxRetries
    ensures Counted(cfg, Settle(items, i, h))
  {
  }

  lemma CountedRun(cfg: Config, s: State, i: nat, ch: Choice)
    requires Enabled(cfg, s, Run(i, ch)) && Counted(cfg, s.items)
    ensures Counted(cfg, Do(cfg, s, Run(i, ch)).items)
  {
    var h := s.items[i];
    assert CountedCopy(cfg, h);
    SentIsCounted(cfg, s.shared, h, ch);
    SettledIsCounted(cfg, s.items, i, StepHand(cfg, s.shared, i, h, ch).1);
    AddIsCounted(cfg, State(StepHand(cfg, s.shared, i, h, ch).0,
        Settle(s.items, i, StepHand(cfg, s.shared, i, h, ch).1), s.next), StepCopy(cfg, s.shared, h, ch));
  }

  lemma AddIsCounted(cfg: Config, s: State, copy: Option<Item>)
    requires Counted(cfg, s.items) && (copy.Some? ==> CountedCopy(cfg, copy.value))
    ensures Counted(cfg, Add(s, copy).items)
  {
  }

  lemma CountedStep(cfg: Config, s: State, a: Action)
    requires Enabled(cfg, s, a) && Counted(cfg, s.items)
    ensures Counted(cfg, Do(cfg, s, a).items)
  {
    if a.Run? {
      CountedRun(cfg, s, a.i, a.ch);
    } else if Actor(a).Some? {
      assert CountedCopy(cfg, s.items[Actor(a).value]);
    }
  }

  lemma {:induction false} CountedAlong(cfg: Config, s: State, acts: seq<Action>)
    requires Legal(cfg, s, acts) && Counted(cfg, s.items)
    ensures Counted(cfg, Exec(cfg, s, acts).items)
    decreases |acts|
  {
    if acts != [] {
      CountedStep(cfg, s, acts[0]);
      CountedAlong(cfg, Do(cfg, s, acts[0]), acts[1..]);
    }
  }

  /** In every reachable state a copy in a delay queue carries that queue's number, which is at most the maximum,
      and a copy is dead only with all its retries behind it. */
  lemma RetriesAreBounded(cfg: Config, s: State, i: nat)
    requires Reachable(cfg, s) && i in s.items && s.items[i].Queued?
    ensures s.items[i].retries <= cfg.maxRetries
    ensures s.items[i].place.Delay? ==> 1 <= s.items[i].place.k == s.items[i].retries
    ensures s.items[i].place.Dlq? ==> s.items[i].retries == cfg.maxRetries
  {
    var s0, acts :| Init(s0) && Legal(cfg, s0, acts) && s == Exec(cfg, s0, acts);
    CountedAlong(cfg, s0, acts);
    assert CountedCopy(cfg, s.items[i]);
  }
}
