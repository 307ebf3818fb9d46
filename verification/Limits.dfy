/** Where the pipeline does not do what one would like, and exactly when: how `finished` is lost, how an expired
    upload comes back, how a batch of renditions is abandoned, how a playback path is lost. */
module Limits {
  import opened StepTable
  import opened Renditions
  import opened Playlist
  import opened Pipeline
  import opened PipelineInvariant
  import opened PipelineEffects
  import opened PipelineSteps
  import opened PipelineTheorems
  import opened Sessions
  import opened Lifecycle

  // ---------------------------------------------------------------- `finished` is lost

  /** About to write the upload's status without a look at it: the result consumer on any failed result,
      publish's failure report, and a client that has passed its own look. */
  predicate Overwrites(item: Item) {
    match item
    case Queued(_, _, _) => false
    case Hand(_, _, _, pc) => pc.MarkingFailed? || pc.FailingUpload?
    case Finalizer(at) => at.Committing?
  }

  lemma HandOverwrites(cfg: Config, sh: Shared, me: nat, h: Item, ch: Choice)
    requires h.Hand? && sh.upStatus.UploadFinished? && (ch.skipClose ==> h.pc.Closing?)
    ensures !StepHand(cfg, sh, me, h, ch).0.upStatus.UploadFinished? <==> Overwrites(h) && TakesEffect(ch.fault)
  {
    var call := NextCall(cfg, sh.vid, h);
    OnlySetUploadWrites(sh, me, call, ch);
    assert call.SetUpload? && !call.upload.UploadFinished? <==> Overwrites(h);
  }

  /** `finished` is not final: a step takes it away if and only if it is a write of one of these three that
      takes effect. */
  lemma FinishedLostExactlyBy(cfg: Config, s: State, a: Action)
    requires Reachable(cfg, s) && Enabled(cfg, s, a) && s.shared.upStatus.UploadFinished?
    ensures !Do(cfg, s, a).shared.upStatus.UploadFinished?
       <==> (a.Run? || a.Client?) && Overwrites(s.items[a.i]) && TakesEffect(a.ch.fault)
  {
    if a.Run? {
      HandOverwrites(cfg, s.shared, a.i, s.items[a.i], a.ch);
    }
  }

  lemma HandNeverFinishesAgain(cfg: Config, sh: Shared, me: nat, h: Item, ch: Choice)
    requires h.Hand? && sh.hist.finishedWrites > 0 && OrchestratorPcOk(sh.rows, sh.hist, me, h.msg, h.pc)
    ensures StepHand(cfg, sh, me, h, ch).0.upStatus.UploadFinished? ==> sh.upStatus.UploadFinished?
  {
    var call := NextCall(cfg, sh.vid, h);
    OnlySetUploadWrites(sh, me, call, ch);
    assert call != SetUpload(UploadFinished);
  }

  /** Lost, it never comes back: `finished` is written once and for all. */
  lemma {:induction false} FinishedNeverComesBack(cfg: Config, s: State, acts: seq<Action>)
    requires Inv(cfg, s) && Legal(cfg, s, acts)
    requires s.shared.hist.finishedWrites > 0 && !s.shared.upStatus.UploadFinished?
    ensures !Exec(cfg, s, acts).shared.upStatus.UploadFinished?
    decreases |acts|
  {
    if acts != [] {
      var a := acts[0];
      StepKeeps(cfg, s, a);
      OnceWrittenStays(cfg, s, a);
      FinishedNeverComesBack(cfg, Do(cfg, s, a), acts[1..]);
    }
  }

  /** `finished` was written and is gone. */
  predicate LostFinished(sh: Shared) {
    sh.hist.finishedWrites > 0 && !sh.upStatus.UploadFinished?
  }

  lemma OnceWrittenRun(cfg: Config, s: State, i: nat, ch: Choice)
    requires Inv(cfg, s) && Enabled(cfg, s, Run(i, ch)) && LostFinished(s.shared)
    ensures LostFinished(Do(cfg, s, Run(i, ch)).shared)
  {
    assert ItemOk(cfg, s.shared, i, s.items[i]);
    HandNeverFinishesAgain(cfg, s.shared, i, s.items[i], ch);
    HandLeaves(cfg, s, i, ch);
    WritesOnlyGrow(s.shared, i, NextCall(cfg, s.shared.vid, s.items[i]), ch);
  }

  lemma OnceWrittenStays(cfg: Config, s: State, a: Action)
    requires Inv(cfg, s) && Enabled(cfg, s, a) && LostFinished(s.shared)
    ensures LostFinished(Do(cfg, s, a).shared)
  {
    if a.Run? { OnceWrittenRun(cfg, s, a.i, a.ch); } else { OnceWrittenOther(cfg, s, a); }
  }

  lemma OnceWrittenOther(cfg: Config, s: State, a: Action)
    requires Enabled(cfg, s, a) && !a.Run? && LostFinished(s.shared)
    ensures LostFinished(Do(cfg, s, a).shared)
  {
  }

  lemma WritesOnlyGrow(sh: Shared, me: nat, call: Call, ch: Choice)
    ensures Effect(sh, me, call, ch).0.hist.finishedWrites >= sh.hist.finishedWrites
  {
  }

  // ---------------------------------------------------------------- an expired upload comes back

  predicate AtCommit(s: State, a: Action) {
    a.Client? && a.i in s.items && s.items[a.i] == Finalizer(Committing) && TakesEffect(a.ch.fault)
  }

  lemma HandKeepsProcessing(cfg: Config, sh: Shared, me: nat, h: Item, ch: Choice)
    requires h.Hand?
    ensures StepHand(cfg, sh, me, h, ch).0.upStatus.UploadProcessing? ==> sh.upStatus.UploadProcessing?
  {
    var call := NextCall(cfg, sh.vid, h);
    OnlySetUploadWrites(sh, me, call, ch);
    assert call.SetUpload? ==> !call.upload.UploadProcessing?;
  }

  /** Finalize and expire do not exclude each other: an expired and deleted upload gets its path and its
      processing status if and only if a client that had passed its look commits; it stays deleted. */
  lemma DeletedRevivedExactlyBy(cfg: Config, s: State, a: Action)
    requires Reachable(cfg, s) && Enabled(cfg, s, a) && s.shared.deleted
    ensures var after := Do(cfg, s, a).shared;
            && after.deleted
            && (s.shared.path == "" ==> (after.path != "" <==> AtCommit(s, a)))
            && (!s.shared.upStatus.UploadProcessing? ==> (after.upStatus.UploadProcessing? <==> AtCommit(s, a)))
            && (!AtCommit(s, a) ==> after.path == s.shared.path && after.startEvents == s.shared.startEvents)
  {
    match a
    case Run(i, ch) =>
      HandKeepsProcessing(cfg, s.shared, i, s.items[i], ch);
      HandKeepsColumns(cfg, s.shared, i, s.items[i], ch);
    case Client(i, ch) => KeyTextNotEmpty(s.shared.vid, OriginalKey);
    case _ =>
  }

  ghost predicate CanGetPath(cfg: Config, s: State) {
    exists acts :: Legal(cfg, s, acts) && Exec(cfg, s, acts).shared.path != ""
  }

  lemma CommitGivesPath(cfg: Config, s: State, i: nat)
    requires Reachable(cfg, s) && i in s.items && s.items[i] == Finalizer(Committing)
    ensures CanGetPath(cfg, s)
  {
    KeyTextNotEmpty(s.shared.vid, OriginalKey);
    OneAction(cfg, s, Client(i, FINE));
  }

  lemma OneAction(cfg: Config, s: State, a: Action)
    requires Enabled(cfg, s, a)
    ensures Legal(cfg, s, [a]) && Exec(cfg, s, [a]) == Do(cfg, s, a)
  {
    assert [a][1..] == [];
  }

  lemma PathOneStepOn(cfg: Config, s: State, a: Action)
    requires Enabled(cfg, s, a) && CanGetPath(cfg, Do(cfg, s, a))
    ensures CanGetPath(cfg, s)
  {
    var acts :| Legal(cfg, Do(cfg, s, a), acts) && Exec(cfg, Do(cfg, s, a), acts).shared.path != "";
    assert ([a] + acts)[1..] == acts;
    assert Legal(cfg, s, [a] + acts) && Exec(cfg, s, [a] + acts) == Exec(cfg, Do(cfg, s, a), acts);
  }

  /** Once deleted before it was finalized, an upload can still get a path if and only if some client is past
      its look at that moment. */
  lemma RevivableExactlyWhen(cfg: Config, s: State)
    requires Reachable(cfg, s) && s.shared.deleted && s.shared.path == ""
    ensures CanGetPath(cfg, s) <==> SomeonePastTheLook(s.items)
  {
    if SomeonePastTheLook(s.items) {
      var i :| i in s.items && PastTheLook(s.items[i]);
      if s.items[i] == Finalizer(CheckingFile) {
        ReachableStep(cfg, s, Client(i, FINE));
        CommitGivesPath(cfg, Do(cfg, s, Client(i, FINE)), i);
        PathOneStepOn(cfg, s, Client(i, FINE));
      } else {
        CommitGivesPath(cfg, s, i);
      }
    } else if CanGetPath(cfg, s) {
      var acts :| Legal(cfg, s, acts) && Exec(cfg, s, acts).shared.path != "";
      FinalizingIsOver(cfg, s, acts);
    }
  }

  /** And such a run exists: look, look at the file, expire, commit. */
  lemma FinalizedAfterExpiry(cfg: Config, vid: string)
    ensures exists s :: Reachable(cfg, s) && s.shared.deleted && s.shared.videoDeleted
                        && s.shared.path != "" && s.shared.upStatus.UploadProcessing? && s.shared.startEvents == 1
  {
    var s0 := Unborn(vid);
    assert Init(s0) && Legal(cfg, s0, []) && Exec(cfg, s0, []) == s0;
    ReachableStep(cfg, s0, NewClient);
    var s1 := Do(cfg, s0, NewClient);
    ReachableStep(cfg, s1, Client(0, FINE));
    var s2 := Do(cfg, s1, Client(0, FINE));
    ReachableStep(cfg, s2, Client(0, FINE));
    var s3 := Do(cfg, s2, Client(0, FINE));
    ReachableStep(cfg, s3, Expire);
    var s4 := Do(cfg, s3, Expire);
    ReachableStep(cfg, s4, Client(0, FINE));
    var s5 := Do(cfg, s4, Client(0, FINE));
    KeyTextNotEmpty(vid, OriginalKey);
    assert s5.shared.deleted && s5.shared.upStatus.UploadProcessing?;
  }

  // ---------------------------------------------------------------- a batch is abandoned

  predicate InsertGoesOn(item: Item) {
    item.Hand? && item.pc.Inserting? && item.pc.k > 0
  }

  predicate SomeoneInserts(items: map<nat, Item>) {
    exists i :: i in items && InsertGoesOn(items[i])
  }

  /** Begun, not whole, and the hand that began it is gone. */
  predicate Abandoned(s: State) {
    s.shared.media.rends != [] && !s.shared.media.batchClosed && !SomeoneInserts(s.items)
  }

  lemma InsertOutcome(cfg: Config, sh: Shared, me: nat, h: Item, ch: Choice)
    requires h.Hand? && h.pc.Inserting? && h.pc.k < |h.pc.batch| && !ch.skipClose
    ensures var (sh', h') := StepHand(cfg, sh, me, h, ch);
            var taken := HasName(sh.media.rends, h.pc.batch[h.pc.k].resolution);
            && (taken ==> sh' == sh && h' == h.(pc := Returned(false)))
            && (!taken && TakesEffect(ch.fault) ==> sh'.media.rends == sh.media.rends + [h.pc.batch[h.pc.k]])
  {
    assert NextCall(cfg, sh.vid, h) == InsertRendition(h.pc.batch, h.pc.k);
  }

  lemma HandLeaves(cfg: Config, s: State, i: nat, ch: Choice)
    requires Enabled(cfg, s, Run(i, ch))
    ensures Do(cfg, s, Run(i, ch)).shared == StepHand(cfg, s.shared, i, s.items[i], ch).0
  {
  }

  /** ExtractMetadata cannot be repeated: an insert that reaches the table is accepted if and only if it goes
      on with the batch its own hand began, or the video has no rendition yet; a refused one changes nothing. */
  lemma InsertAcceptedExactlyWhen(cfg: Config, s: State, i: nat, ch: Choice)
    requires Reachable(cfg, s) && Enabled(cfg, s, Run(i, ch)) && s.items[i].pc.Inserting? && TakesEffect(ch.fault)
    ensures var pc, before, after := s.items[i].pc, s.shared, Do(cfg, s, Run(i, ch)).shared;
            && pc.k < |pc.batch|
            && (after.media.rends == before.media.rends + [pc.batch[pc.k]] <==> pc.k > 0 || before.media.rends == [])
            && (pc.k == 0 && before.media.rends != [] ==> after == before)
  {
    ReachableOk(cfg, s);
    var h := s.items[i];
    assert ItemOk(cfg, s.shared, i, h);
    if h.pc.k > 0 {
      OwnerMeetsNoTakenName(s.shared.media, i, h.pc.batch, h.pc.k);
    } else if s.shared.media.rends != [] {
      FirstRowIsOriginal(s.shared.media);
    }
    InsertOutcome(cfg, s.shared, i, h, ch);
    HandLeaves(cfg, s, i, ch);
  }

  lemma OnlyInsertsTouchTheBatch(sh: Shared, me: nat, call: Call, ch: Choice)
    requires !call.InsertRendition?
    ensures var m := Effect(sh, me, call, ch).0.media;
            m.batchClosed == sh.media.batchClosed && |m.rends| == |sh.media.rends|
  {
  }

  lemma OnlyInsertingGoesOn(cfg: Config, h: Item, r: Resp)
    requires h.Hand? && !h.pc.Inserting?
    ensures !InsertGoesOn(h.(pc := Resume(cfg, h, r)))
  {
    HandlersStayApart(cfg, h, r);
    if h.pc.Segmenting? && h.pc.k < |h.pc.list| { SegmentFromStays(h.pc.list, h.pc.k + 1); }
    if h.pc.ListingToSegment? && r.Rows? { SegmentFromStays(r.list, 0); }
  }

  lemma OnlyInsertsInsert(cfg: Config, vid: string, h: Item)
    requires h.Hand?
    ensures NextCall(cfg, vid, h).InsertRendition? ==> h.pc.Inserting?
  {
  }

  lemma AbandonedHand(cfg: Config, sh: Shared, me: nat, h: Item, ch: Choice)
    requires h.Hand? && !InsertGoesOn(h) && BatchOk(sh.media) && PcOk(cfg, sh, me, h.msg, h.pc)
    requires sh.media.rends != [] && !sh.media.batchClosed && (ch.skipClose ==> h.pc.Closing?)
    ensures var (sh', h') := StepHand(cfg, sh, me, h, ch);
            sh'.media.rends != [] && !sh'.media.batchClosed && !InsertGoesOn(h')
  {
    if h.pc.Inserting? {
      FirstRowIsOriginal(sh.media);
      InsertOutcome(cfg, sh, me, h, ch);
    } else if !ch.skipClose {
      var call := NextCall(cfg, sh.vid, h);
      OnlyInsertsInsert(cfg, sh.vid, h);
      OnlyInsertsTouchTheBatch(sh, me, call, ch);
      OnlyInsertingGoesOn(cfg, h, Effect(sh, me, call, ch).1);
    }
  }

  lemma NobodyGoesOn(cfg: Config, s: State, i: nat, ch: Choice)
    requires Enabled(cfg, s, Run(i, ch)) && !SomeoneInserts(s.items)
    requires !InsertGoesOn(StepHand(cfg, s.shared, i, s.items[i], ch).1)
    ensures !SomeoneInserts(Do(cfg, s, Run(i, ch)).items)
  {
    SentIsQueued(cfg, s.shared, s.items[i], ch);
    var after := Do(cfg, s, Run(i, ch));
    forall j | j in after.items ensures !InsertGoesOn(after.items[j]) {
      if j in s.items { assert !InsertGoesOn(s.items[j]); }
    }
  }

  lemma AbandonedRun(cfg: Config, s: State, i: nat, ch: Choice)
    requires Inv(cfg, s) && Enabled(cfg, s, Run(i, ch)) && Abandoned(s)
    ensures Abandoned(Do(cfg, s, Run(i, ch)))
  {
    var h := s.items[i];
    assert ItemOk(cfg, s.shared, i, h) && !InsertGoesOn(h);
    AbandonedHand(cfg, s.shared, i, h, ch);
    HandLeaves(cfg, s, i, ch);
    NobodyGoesOn(cfg, s, i, ch);
  }

  lemma AbandonedStep(cfg: Config, s: State, a: Action)
    requires Inv(cfg, s) && Enabled(cfg, s, a) && Abandoned(s)
    ensures Abandoned(Do(cfg, s, a))
  {
    if a.Run? {
      AbandonedRun(cfg, s, a.i, a.ch);
    } else {
      var after := Do(cfg, s, a);
      forall j | j in after.items ensures !InsertGoesOn(after.items[j]) {
        if j in s.items { assert !InsertGoesOn(s.items[j]); }
      }
    }
  }

  lemma {:induction false} AbandonedForever(cfg: Config, s: State, acts: seq<Action>)
    requires Inv(cfg, s) && Legal(cfg, s, acts) && Abandoned(s)
    ensures Abandoned(Exec(cfg, s, acts)) && Inv(cfg, Exec(cfg, s, acts))
    decreases |acts|
  {
    if acts != [] {
      AbandonedStep(cfg, s, acts[0]);
      StepKeeps(cfg, s, acts[0]);
      AbandonedForever(cfg, Do(cfg, s, acts[0]), acts[1..]);
    }
  }

  /** An abandoned batch ends the upload: in no continuation, whatever is redelivered and however often
      ExtractMetadata runs again, is metadata done, does a later step start, or is the upload finished. */
  lemma AbandonedEndsTheChain(cfg: Config, s: State, acts: seq<Action>)
    requires Reachable(cfg, s) && Abandoned(s) && Legal(cfg, s, acts)
    ensures var after := Exec(cfg, s, acts).shared;
            && !Is(after.rows, Metadata, Done) && Unstarted(after.rows) && !after.upStatus.UploadFinished?
            && !after.media.batchClosed
  {
    ReachableOk(cfg, s);
    AbandonedForever(cfg, s, acts);
    AbandonedTells(cfg, Exec(cfg, s, acts));
  }

  lemma AbandonedTells(cfg: Config, s: State)
    requires Inv(cfg, s) && !s.shared.media.batchClosed
    ensures !Is(s.shared.rows, Metadata, Done) && Unstarted(s.shared.rows) && !s.shared.upStatus.UploadFinished?
  {
    var rows := s.shared.rows;
    assert Is(rows, Metadata, Done) ==> WorkDone(s.shared.media, Metadata);
    assert Started(rows, Publish) ==> Started(rows, Segment);
    assert Started(rows, Segment) ==> Started(rows, Transcode);
    assert Started(rows, Transcode) ==> Is(rows, Metadata, Done);
    assert s.shared.upStatus.UploadFinished? ==> Is(rows, Publish, Done);
  }

  ghost predicate CanBecomeWhole(cfg: Config, s: State) {
    exists acts :: Legal(cfg, s, acts) && Exec(cfg, s, acts).shared.media.batchClosed
  }

  lemma WholeOneStepOn(cfg: Config, s: State, a: Action)
    requires Enabled(cfg, s, a) && CanBecomeWhole(cfg, Do(cfg, s, a))
    ensures CanBecomeWhole(cfg, s)
  {
    var acts :| Legal(cfg, Do(cfg, s, a), acts) && Exec(cfg, Do(cfg, s, a), acts).shared.media.batchClosed;
    assert ([a] + acts)[1..] == acts;
    assert Legal(cfg, s, [a] + acts) && Exec(cfg, s, [a] + acts) == Exec(cfg, Do(cfg, s, a), acts);
  }

  /** One more row by the hand that began the batch. */
  lemma InsertsOneMore(cfg: Config, s: State, i: nat)
    requires Reachable(cfg, s) && i in s.items && InsertGoesOn(s.items[i]) && s.items[i].pc.k < |s.items[i].pc.batch|
    ensures Enabled(cfg, s, Run(i, FINE))
    ensures var after, pc := Do(cfg, s, Run(i, FINE)), s.items[i].pc;
            if pc.k + 1 == |pc.batch| then after.shared.media.batchClosed
            else i in after.items && InsertGoesOn(after.items[i]) && after.items[i].pc == Inserting(pc.batch, pc.k + 1)
  {
    ReachableOk(cfg, s);
    var h := s.items[i];
    assert ItemOk(cfg, s.shared, i, h);
    OwnerMeetsNoTakenName(s.shared.media, i, h.pc.batch, h.pc.k);
    InsertSucceeds(cfg, s.shared, i, h);
    HandLeaves(cfg, s, i, FINE);
    HandStays(cfg, s, i, FINE);
  }

  lemma InsertSucceeds(cfg: Config, sh: Shared, me: nat, h: Item)
    requires h.Hand? && h.pc.Inserting? && h.pc.k < |h.pc.batch|
               && !HasName(sh.media.rends, h.pc.batch[h.pc.k].resolution)
    ensures var (sh', h') := StepHand(cfg, sh, me, h, FINE);
            && sh'.media == AfterInsert(sh.media, me, h.pc.batch, h.pc.k)
            && h' == h.(pc := if h.pc.k + 1 < |h.pc.batch| then Inserting(h.pc.batch, h.pc.k + 1)
                else Closing(Metadata))
  {
    assert NextCall(cfg, sh.vid, h) == InsertRendition(h.pc.batch, h.pc.k);
  }

  lemma HandStays(cfg: Config, s: State, i: nat, ch: Choice)
    requires Reachable(cfg, s) && Enabled(cfg, s, Run(i, ch))
    ensures var h' := StepHand(cfg, s.shared, i, s.items[i], ch).1;
            !h'.pc.Gone? ==> i in Do(cfg, s, Run(i, ch)).items && Do(cfg, s, Run(i, ch)).items[i] == h'
  {
    IdsBelowNext(cfg, s);
  }

  lemma {:induction false} InsertsTheRest(cfg: Config, s: State, i: nat)
    requires Reachable(cfg, s) && i in s.items && InsertGoesOn(s.items[i]) && s.items[i].pc.k < |s.items[i].pc.batch|
    ensures CanBecomeWhole(cfg, s)
    decreases |s.items[i].pc.batch| - s.items[i].pc.k
  {
    InsertsOneMore(cfg, s, i);
    ReachableStep(cfg, s, Run(i, FINE));
    var after := Do(cfg, s, Run(i, FINE));
    if after.shared.media.batchClosed {
      OneAction(cfg, s, Run(i, FINE));
    } else {
      InsertsTheRest(cfg, after, i);
      WholeOneStepOn(cfg, s, Run(i, FINE));
    }
  }

  /** A batch that is begun and not whole can still become whole if and only if the hand that began it is still
      inserting. */
  lemma CompletableExactlyWhen(cfg: Config, s: State)
    requires Reachable(cfg, s) && s.shared.media.rends != [] && !s.shared.media.batchClosed
    ensures CanBecomeWhole(cfg, s) <==> SomeoneInserts(s.items)
  {
    ReachableOk(cfg, s);
    if SomeoneInserts(s.items) {
      var i :| i in s.items && InsertGoesOn(s.items[i]);
      assert ItemOk(cfg, s.shared, i, s.items[i]);
      InsertsTheRest(cfg, s, i);
    } else if CanBecomeWhole(cfg, s) {
      var acts :| Legal(cfg, s, acts) && Exec(cfg, s, acts).shared.media.batchClosed;
      AbandonedForever(cfg, s, acts);
    }
  }

  // ---------------------------------------------------------------- a playback path is lost

  /** A hand about to write the video back as it read it before the playback path was set. */
  predicate WritesStale(item: Item) {
    item.Hand? && (item.pc == WritingThumbnail("") || (item.pc.WritingMetadata? && item.pc.hls == ""))
  }

  /** A playback path once set is lost again exactly by such a write, and by nothing else. */
  lemma PlaybackLostExactlyBy(cfg: Config, s: State, a: Action)
    requires Reachable(cfg, s) && Enabled(cfg, s, a) && s.shared.hls != ""
    ensures Do(cfg, s, a).shared.hls == "" <==> a.Run? && WritesStale(s.items[a.i]) && TakesEffect(a.ch.fault)
  {
    match a
    case Run(i, ch) =>
      KeyTextNotEmpty(s.shared.vid, MasterKey);
      StaleWrites(cfg, s.shared, i, s.items[i], ch);
    case _ =>
  }

  lemma StaleWrites(cfg: Config, sh: Shared, me: nat, h: Item, ch: Choice)
    requires h.Hand? && sh.hls != "" && KeyText(sh.vid, MasterKey) != ""
    requires ch.skipClose ==> h.pc.Closing?
    ensures StepHand(cfg, sh, me, h, ch).0.hls == "" <==> WritesStale(h) && TakesEffect(ch.fault)
  {
    OnlyWriteVideoWrites(sh, me, NextCall(cfg, sh.vid, h), ch);
    assert NextCall(cfg, sh.vid, h) == WriteVideo("") <==> WritesStale(h);
  }

  lemma OnlyWriteVideoWrites(sh: Shared, me: nat, call: Call, ch: Choice)
    ensures Effect(sh, me, call, ch).0.hls == if call.WriteVideo? && TakesEffect(ch.fault) then call.hls else sh.hls
  {
  }
}
