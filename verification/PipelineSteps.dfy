/** Every step of every handler keeps the invariant: its effect keeps the table facts, the fact at its
    next program counter holds, and what it puts on a queue is a message that may exist. */
module PipelineSteps {
  import opened Basics
  import opened StepTable
  import opened Renditions
  import opened Decimal
  import opened Playlist
  import opened Pipeline
  import opened PipelineInvariant
  import opened PipelineEffects

  // ---------------------------------------------------------------- what a call may assume

  /** What a hand must know before it makes a call. */
  ghost predicate Allowed(cfg: Config, sh: Shared, me: nat, call: Call) {
    match call
    case InsertStep(st) => sh.path != "" && !st.OtherStep?
    case UpdateStep(st, target) => Applies(sh.rows, st, target) ==> Justified(sh.rows, sh.media, st, target)
    case SetUpload(status) => status.UploadFinished? ==> MayFinish(sh.hist, me)
    case SendTrigger(st) => Triggered(sh.rows, st) && MayTrigger(sh.hist, me, st)
    case SendResult(st, status) => ReportOk(cfg, sh.rows, sh.media, st, status)
    case WriteVideo(hls) => PlaybackOk(sh.vid, sh.media.objects, hls)
    case InsertRendition(batch, k) =>
      GoodBatch(sh.path, batch) && k < |batch| && sh.path != "" && (k > 0 ==> OwnsBatch(sh.media, me, batch, k))
    case Put(key, content) =>
      if key.VariantKey? then content.VariantPlaylist? && ReadySource(sh.media.rends, key.resolution, content.source)
      else !key.MasterKey? && Belongs(key, content)
    case PutMaster(text, listed) =>
      && text == MasterText(Names(listed)) && sh.media.batchClosed && AllReady(sh.media.rends)
      && ListsAll(sh.media.rends, sh.media.objects, listed)
    case MarkReady(resolution, path) =>
      && resolution != ORIGINAL && path == KeyText(sh.vid, Mp4Key(resolution))
      && Mp4Key(resolution) in sh.media.objects
    case _ => true
  }

  /** Rows change only by these two calls. */
  lemma OtherCallsKeepRows(sh: Shared, me: nat, call: Call, ch: Choice)
    requires !call.InsertStep? && !call.UpdateStep?
    ensures Effect(sh, me, call, ch).0.rows == sh.rows
  {
  }

  predicate TableCall(call: Call) {
    call.InsertStep? || call.UpdateStep? || call.SetUpload? || call.SendTrigger? || call.SendResult? || call.WriteVideo?
  }

  lemma UpdateCallKeeps(cfg: Config, sh: Shared, me: nat, st: StepName, target: Status, ch: Choice)
    requires SharedInv(cfg, sh) && Allowed(cfg, sh, me, UpdateStep(st, target))
    ensures Keeps(cfg, me, sh, Apply(sh, me, UpdateStep(st, target), ch).0)
  {
    if Applies(sh.rows, st, target) { UpdateStepKeeps(cfg, me, sh, st, target); } else { NothingKeeps(cfg, me, sh); }
  }

  lemma RecordCallKeeps(cfg: Config, sh: Shared, me: nat, call: Call, ch: Choice)
    requires SharedInv(cfg, sh) && Allowed(cfg, sh, me, call)
               && (call.SetUpload? || call.SendTrigger? || call.SendResult?)
    ensures Keeps(cfg, me, sh, Apply(sh, me, call, ch).0)
  {
    match call
    case SetUpload(status) => SetUploadKeeps(cfg, me, sh, status);
    case SendTrigger(st) => SendTriggerKeeps(cfg, me, sh, st);
    case SendResult(st, status) => SendResultKeeps(cfg, me, sh, st, status);
  }

  lemma TableCallKeeps(cfg: Config, sh: Shared, me: nat, call: Call, ch: Choice)
    requires SharedInv(cfg, sh) && Allowed(cfg, sh, me, call) && TableCall(call)
    ensures Keeps(cfg, me, sh, Apply(sh, me, call, ch).0)
  {
    match call
    case InsertStep(st) => InsertStepKeeps(cfg, me, sh, st);
    case UpdateStep(st, target) => UpdateCallKeeps(cfg, sh, me, st, target, ch);
    case WriteVideo(hls) => WriteVideoKeeps(cfg, me, sh, hls);
    case _ => RecordCallKeeps(cfg, sh, me, call, ch);
  }

  lemma MediaCallKeeps(cfg: Config, sh: Shared, me: nat, call: Call, ch: Choice)
    requires SharedInv(cfg, sh) && Allowed(cfg, sh, me, call) && !TableCall(call)
    ensures Keeps(cfg, me, sh, Apply(sh, me, call, ch).0)
  {
    match call
    case InsertRendition(batch, k) =>
      if HasName(sh.media.rends, batch[k].resolution) { NothingKeeps(cfg, me, sh); }
      else { InsertRenditionKeeps(cfg, me, sh, batch, k); }
    case Put(key, content) =>
      if key.VariantKey? { PutVariantKeeps(cfg, me, sh, key.resolution, content.source); }
      else { PutFileKeeps(cfg, me, sh, key, content); }
    case PutMaster(text, listed) => PutMasterKeeps(cfg, me, sh, text, listed);
    case MarkReady(resolution, path) => MarkReadyKeeps(cfg, me, sh, resolution, ch.width, ch.height);
    case _ => NothingKeeps(cfg, me, sh);
  }

  lemma AppliedKeeps(cfg: Config, sh: Shared, me: nat, call: Call, ch: Choice)
    requires SharedInv(cfg, sh) && Allowed(cfg, sh, me, call)
    ensures Keeps(cfg, me, sh, Apply(sh, me, call, ch).0)
  {
    if TableCall(call) {
      TableCallKeeps(cfg, sh, me, call, ch);
    } else {
      MediaCallKeeps(cfg, sh, me, call, ch);
    }
  }

  lemma AttemptKeeps(cfg: Config, sh: Shared, me: nat, call: Call)
    requires SharedInv(cfg, sh) && (call.SendTrigger? ==> MayTrigger(sh.hist, me, call.step))
    ensures Keeps(cfg, me, sh, Attempt(sh, call))
  {
    if call.SendTrigger? {
      SendTriggerKeeps(cfg, me, sh, call.step);
    } else {
      NothingKeeps(cfg, me, sh);
    }
  }

  /** An allowed call keeps the table facts whether it succeeds, fails, or fails after taking effect. */
  lemma EffectKeeps(cfg: Config, sh: Shared, me: nat, call: Call, ch: Choice)
    requires SharedInv(cfg, sh) && Allowed(cfg, sh, me, call)
    ensures Keeps(cfg, me, sh, Effect(sh, me, call, ch).0)
  {
    if TakesEffect(ch.fault) {
      AppliedKeeps(cfg, sh, me, call, ch);
      assert Effect(sh, me, call, ch).0 == Apply(sh, me, call, ch).0;
    } else {
      AttemptKeeps(cfg, sh, me, call);
      assert Effect(sh, me, call, ch).0 == Attempt(sh, call);
    }
  }

  lemma OrchestratorCallAllowed(cfg: Config, sh: Shared, me: nat, h: Item)
    requires h.Hand? && OrchestratorPc(h.pc) && MsgOk(cfg, sh, h.msg)
               && OrchestratorPcOk(sh.rows, sh.hist, me, h.msg, h.pc)
    ensures Allowed(cfg, sh, me, NextCall(cfg, sh.vid, h))
  {
  }

  lemma WorkerCallAllowed(cfg: Config, sh: Shared, me: nat, h: Item)
    requires h.Hand? && !OrchestratorPc(h.pc) && MsgOk(cfg, sh, h.msg) && WorkerPcOk(cfg, sh, me, h.msg, h.pc)
    requires StartOk(sh.vid, sh.path, sh.startEvents, sh.rows)
    ensures Allowed(cfg, sh, me, NextCall(cfg, sh.vid, h))
  {
  }

  // ---------------------------------------------------------------- what an answer tells

  /** The call was answered without an error: the state is what the call makes of it. */
  ghost predicate Answered(sh: Shared, me: nat, call: Call, ch: Choice, sh': Shared, r: Resp) {
    r.NotOk? || (sh', r) == Apply(sh, me, call, ch)
  }

  lemma FiveRows(rows: StepRows)
    requires RowsUpTo(rows, |PIPELINE_STEPS|)
    ensures AllRows(rows)
  {
    assert PIPELINE_STEPS[0] in rows && PIPELINE_STEPS[1] in rows && PIPELINE_STEPS[2] in rows
        && PIPELINE_STEPS[3] in rows && PIPELINE_STEPS[4] in rows;
  }

  lemma CreatingResumes(cfg: Config, sh: Shared, me: nat, h: Item, ch: Choice, sh': Shared, r: Resp)
    requires h.Hand? && h.pc.Creating? && OrchestratorPcOk(sh.rows, sh.hist, me, h.msg, h.pc)
    requires RowsEvolve(sh.rows, sh'.rows)
    requires Answered(sh, me, InsertStep(PIPELINE_STEPS[h.pc.k]), ch, sh', r)
    ensures OrchestratorPcOk(sh'.rows, sh'.hist, me, h.msg, Resume(cfg, h, r))
  {
    var k := h.pc.k;
    if !r.NotOk? {
      forall j | 0 <= j < k + 1 && j < |PIPELINE_STEPS| ensures PIPELINE_STEPS[j] in sh'.rows {
        if j < k { assert PIPELINE_STEPS[j] in sh.rows; }
      }
      if k + 1 == |PIPELINE_STEPS| {
        FiveRows(sh'.rows);
      }
    }
  }

  /** The claim of a step: after an applied processing update this hand alone may publish the trigger. */
  lemma ClaimTells(sh: Shared, me: nat, st: StepName, ch: Choice, sh': Shared, r: Resp)
    requires CountsOk(sh.rows, sh.upStatus, sh.hist) && AllRows(sh.rows) && PredecessorDone(sh.rows, st)
    requires Answered(sh, me, UpdateStep(st, Processing), ch, sh', r) && r == Outcome(true)
    ensures Triggered(sh'.rows, st) && MayTrigger(sh'.hist, me, st)
  {
    assert Applies(sh.rows, st, Processing);
    assert st !in sh.hist.triggeredBy;
    assert sh'.rows == sh.rows[st := Processing];
  }

  lemma TriggeringResumes(cfg: Config, sh: Shared, me: nat, h: Item, ch: Choice, sh': Shared, r: Resp)
    requires h.Hand? && h.pc.Triggering? && OrchestratorPcOk(sh.rows, sh.hist, me, h.msg, h.pc)
    requires CountsOk(sh.rows, sh.upStatus, sh.hist) && RowsEvolve(sh.rows, sh'.rows)
    requires Answered(sh, me, UpdateStep(INITIAL_STEPS[h.pc.k], Processing), ch, sh', r)
    ensures OrchestratorPcOk(sh'.rows, sh'.hist, me, h.msg, Resume(cfg, h, r))
  {
    if r == Outcome(true) {
      ClaimTells(sh, me, INITIAL_STEPS[h.pc.k], ch, sh', r);
    }
  }

  lemma CancelReaches(rows: StepRows, k: nat)
    requires RowsOk(rows) && AllRows(rows) && TerminalUpTo(rows, k) && k < |PIPELINE_STEPS|
    ensures var st := PIPELINE_STEPS[k];
            TerminalUpTo(if Applies(rows, st, Canceled) then rows[st := Canceled] else rows, k + 1)
  {
    var st := PIPELINE_STEPS[k];
    assert st in rows && !rows[st].OtherStatus?;
    var rows' := if Applies(rows, st, Canceled) then rows[st := Canceled] else rows;
    forall j | 0 <= j < k + 1 && j < |PIPELINE_STEPS|
      ensures PIPELINE_STEPS[j] in rows' && Terminal(rows'[PIPELINE_STEPS[j]])
    {
      if j < k { assert Terminal(rows[PIPELINE_STEPS[j]]); }
    }
  }

  lemma CancelingResumes(cfg: Config, sh: Shared, me: nat, h: Item, ch: Choice, sh': Shared, r: Resp)
    requires h.Hand? && h.pc.Canceling? && OrchestratorPcOk(sh.rows, sh.hist, me, h.msg, h.pc)
    requires RowsOk(sh.rows) && RowsEvolve(sh.rows, sh'.rows) && sh.hist.failedWrites <= sh'.hist.failedWrites
    requires Answered(sh, me, UpdateStep(PIPELINE_STEPS[h.pc.k], Canceled), ch, sh', r)
    ensures OrchestratorPcOk(sh'.rows, sh'.hist, me, h.msg, Resume(cfg, h, r))
  {
    assert AllRows(sh'.rows);
    if h.pc.clean && !r.NotOk? {
      CancelReaches(sh.rows, h.pc.k);
    }
  }

  lemma AdvancingResumes(cfg: Config, sh: Shared, me: nat, h: Item, ch: Choice, sh': Shared, r: Resp)
    requires h.Hand? && h.pc.Advancing? && OrchestratorPcOk(sh.rows, sh.hist, me, h.msg, h.pc) && MsgOk(cfg, sh, h.msg)
    requires CountsOk(sh.rows, sh.upStatus, sh.hist) && RowsEvolve(sh.rows, sh'.rows)
    requires Answered(sh, me, UpdateStep(h.pc.step, Done), ch, sh', r)
    ensures OrchestratorPcOk(sh'.rows, sh'.hist, me, h.msg, Resume(cfg, h, r))
  {
    var st := h.pc.step;
    if r == Outcome(true) {
      assert AllRows(sh.rows) && AllRows(sh'.rows) && Is(sh'.rows, st, Done);
      assert st !in sh.hist.closedBy;
    }
  }

  lemma TriggeringNextResumes(cfg: Config, sh: Shared, me: nat, h: Item, ch: Choice, sh': Shared, r: Resp)
    requires h.Hand? && h.pc.TriggeringNext? && OrchestratorPcOk(sh.rows, sh.hist, me, h.msg, h.pc)
    requires CountsOk(sh.rows, sh.upStatus, sh.hist)
    requires Answered(sh, me, UpdateStep(h.pc.step, Processing), ch, sh', r)
    ensures OrchestratorPcOk(sh'.rows, sh'.hist, me, h.msg, Resume(cfg, h, r))
  {
    if r == Outcome(true) {
      ClaimTells(sh, me, h.pc.step, ch, sh', r);
    }
  }

  lemma MarkingFailedResumes(cfg: Config, sh: Shared, me: nat, h: Item, ch: Choice, sh': Shared, r: Resp)
    requires h.Hand? && h.pc.MarkingFailed? && OrchestratorPcOk(sh.rows, sh.hist, me, h.msg, h.pc)
    requires RowsEvolve(sh.rows, sh'.rows)
    requires Answered(sh, me, SetUpload(UploadFailed), ch, sh', r)
    ensures OrchestratorPcOk(sh'.rows, sh'.hist, me, h.msg, Resume(cfg, h, r))
  {
    assert AllRows(sh'.rows);
  }

  lemma OrchestratorResumes(cfg: Config, sh: Shared, me: nat, h: Item, ch: Choice, sh': Shared, r: Resp)
    requires h.Hand? && OrchestratorPc(h.pc) && OrchestratorPcOk(sh.rows, sh.hist, me, h.msg, h.pc)
               && MsgOk(cfg, sh, h.msg)
    requires RowsOk(sh.rows) && CountsOk(sh.rows, sh.upStatus, sh.hist) && RowsEvolve(sh.rows, sh'.rows)
    requires sh.hist.failedWrites <= sh'.hist.failedWrites
    requires Answered(sh, me, NextCall(cfg, sh.vid, h), ch, sh', r)
    ensures OrchestratorPcOk(sh'.rows, sh'.hist, me, h.msg, Resume(cfg, h, r))
  {
    match h.pc
    case Creating(_) => CreatingResumes(cfg, sh, me, h, ch, sh', r);
    case Triggering(_) => TriggeringResumes(cfg, sh, me, h, ch, sh', r);
    case Canceling(_, _) => CancelingResumes(cfg, sh, me, h, ch, sh', r);
    case Advancing(_) => AdvancingResumes(cfg, sh, me, h, ch, sh', r);
    case TriggeringNext(_) => TriggeringNextResumes(cfg, sh, me, h, ch, sh', r);
    case Sending(_) => assert AllRows(sh'.rows);
    case MarkingFailed => MarkingFailedResumes(cfg, sh, me, h, ch, sh', r);
    case _ =>
  }

  /** An orchestrator handler never turns into a worker, and the other way round. */
  lemma HandlersStayApart(cfg: Config, h: Item, r: Resp)
    requires h.Hand?
    ensures OrchestratorPc(h.pc) ==>
              OrchestratorPc(Resume(cfg, h, r)) || Resume(cfg, h, r).Returned? || Resume(cfg, h, r).Gone?
    ensures !OrchestratorPc(h.pc) ==> !OrchestratorPc(Resume(cfg, h, r))
  {
    if h.pc.Segmenting? && h.pc.k < |h.pc.list| { SegmentFromStays(h.pc.list, h.pc.k + 1); }
    if h.pc.ListingToSegment? && r.Rows? { SegmentFromStays(r.list, 0); }
  }

  lemma {:induction false} SegmentFromStays(list: seq<Rendition>, k: nat)
    requires k <= |list|
    ensures SegmentFrom(list, k) == Closing(Segment) || SegmentFrom(list, k).Segmenting?
    decreases |list| - k
  {
    if k < |list| { SegmentFromStays(list, k + 1); }
  }

  // ---------------------------------------------------------------- workers

  /** Any measured height gives a batch with distinct, fitting names. */
  lemma ExtractedBatch(path: string, w: int, h: int)
    ensures GoodBatch(path, BatchFor(path, w, h, LadderFor(h)))
  {
    var batch := BatchFor(path, w, h, LadderFor(h));
    RungsDescend(|DEFAULT_LADDER|, ToInt32(h));
    BatchNamesDistinct(path, w, h, LadderFor(h));
    assert batch[0] == BatchRow(path, w, h, LadderFor(h), 0);
    forall k | 0 < k < |batch| ensures Named(batch[k]) && batch[k].status == RendPending {
      assert batch[k] == BatchRow(path, w, h, LadderFor(h), k);
    }
  }

  predicate MetadataPc(pc: Pc) {
    pc.Extracting? || pc.ReadingForMetadata? || pc.WritingMetadata? || pc.Inserting?
  }

  lemma MetadataResumes(cfg: Config, sh: Shared, me: nat, h: Item, ch: Choice, sh': Shared, r: Resp)
    requires h.Hand? && MetadataPc(h.pc) && WorkerPcOk(cfg, sh, me, h.msg, h.pc) && !h.pc.Inserting?
    requires PlaybackOk(sh.vid, sh.media.objects, sh.hls)
    requires Answered(sh, me, NextCall(cfg, sh.vid, h), ch, sh', r)
    ensures WorkerPcOk(cfg, sh', me, h.msg, Resume(cfg, h, r))
  {
    if h.pc.Extracting? && !r.NotOk? { ExtractedBatch(h.pc.path, r.width, r.height); }
  }

  lemma RowInserted(cfg: Config, sh: Shared, me: nat, h: Item, ch: Choice, sh': Shared, r: Resp)
    requires h.Hand? && h.pc.Inserting? && h.pc.k < |h.pc.batch|
    requires Answered(sh, me, InsertRendition(h.pc.batch, h.pc.k), ch, sh', r) && !r.NotOk?
    ensures !HasName(sh.media.rends, h.pc.batch[h.pc.k].resolution)
    ensures sh' == sh.(media := AfterInsert(sh.media, me, h.pc.batch, h.pc.k))
    ensures Resume(cfg, h, r) == if h.pc.k + 1 < |h.pc.batch| then Inserting(h.pc.batch, h.pc.k + 1)
                                 else Closing(Metadata)
  {
  }

  lemma InsertingResumes(cfg: Config, sh: Shared, me: nat, h: Item, ch: Choice, sh': Shared, r: Resp)
    requires h.Hand? && h.pc.Inserting? && WorkerPcOk(cfg, sh, me, h.msg, h.pc)
    requires SharedInv(cfg, sh) && sh.path != ""
    requires Answered(sh, me, NextCall(cfg, sh.vid, h), ch, sh', r)
    ensures WorkerPcOk(cfg, sh', me, h.msg, Resume(cfg, h, r))
  {
    if r.NotOk? {
      assert Resume(cfg, h, r) == Returned(false);
    } else {
      RowInserted(cfg, sh, me, h, ch, sh', r);
      InsertRenditionKeeps(cfg, me, sh, h.pc.batch, h.pc.k);
    }
  }

  lemma PendingIsNotOriginal(m: Media, r: Rendition)
    requires BatchOk(m) && m.rends != [] && m.rends[0].status == RendReady
    requires r in m.rends && r.status == RendPending
    ensures r.resolution != ORIGINAL
  {
    var i :| 0 <= i < |m.rends| && m.rends[i] == r;
    assert i != 0;
    assert Names(m.batch)[0] != Names(m.batch)[i];
  }

  lemma PendingIsNamed(m: Media, r: Rendition)
    requires BatchOk(m) && m.rends != [] && m.rends[0].status == RendReady && AsInserted(m.rends, m.batch)
    requires r in m.rends && r.status == RendPending
    ensures Named(r)
  {
    var i :| 0 <= i < |m.rends| && m.rends[i] == r;
    assert i != 0 && Named(m.batch[i]);
  }

  lemma ListedIsMentioned(list: seq<Rendition>, r: Rendition)
    requires r in list
    ensures Mentions(list, 0, r.resolution) && list != []
  {
    var j :| 0 <= j < |list| && list[j] == r;
  }

  lemma PendingListCovers(m: Media)
    requires BatchOk(m) && m.rends != [] && m.rends[0].status == RendReady && AsInserted(m.rends, m.batch)
    ensures CoversPending(m.rends, Listing(m.rends, RendPending), 0)
    ensures Listing(m.rends, RendPending) == [] ==> AllReady(m.rends)
  {
    var list := Listing(m.rends, RendPending);
    assert forall r :: r in list <==> r in m.rends && r.status == RendPending by {
      ListingHoldsExactly(m.rends, RendPending);
    }
    forall j | 0 <= j < |list|
      ensures list[j].resolution != ORIGINAL && Named(list[j]) && HasName(m.rends, list[j].resolution)
    {
      PendingIsNotOriginal(m, list[j]);
      PendingIsNamed(m, list[j]);
    }
    forall i | 0 <= i < |m.rends| && m.rends[i].status == RendPending
      ensures Mentions(list, 0, m.rends[i].resolution) && list != []
    {
      ListedIsMentioned(list, m.rends[i]);
    }
  }

  lemma MarkCovers(rends: seq<Rendition>, list: seq<Rendition>, k: nat, path: string, w: int, h: int)
    requires CoversPending(rends, list, k) && k < |list|
    ensures CoversPending(Marked(rends, list[k].resolution, path, w, h), list, k + 1)
  {
    var rends' := Marked(rends, list[k].resolution, path, w, h);
    forall i | 0 <= i < |rends'| && rends'[i].status == RendPending
      ensures Mentions(list, k + 1, rends'[i].resolution)
    {
      assert rends[i].status == RendPending && rends[i].resolution != list[k].resolution;
      var j :| k <= j < |list| && list[j].resolution == rends[i].resolution;
    }
    forall j | 0 <= j < |list| ensures HasName(rends', list[j].resolution) {
      var i :| 0 <= i < |rends| && rends[i].resolution == list[j].resolution;
      assert rends'[i].resolution == list[j].resolution;
    }
  }

  lemma AllCovered(rends: seq<Rendition>, list: seq<Rendition>)
    requires CoversPending(rends, list, |list|)
    ensures AllReady(rends)
  {
  }

  predicate TranscodePc(pc: Pc) {
    pc.ListingPending? || pc.PuttingMp4? || pc.Marking?
  }

  lemma ListingAnswered(sh: Shared, me: nat, status: RenditionStatus, ch: Choice, sh': Shared, r: Resp)
    requires Answered(sh, me, ListRenditions(status), ch, sh', r) && !r.NotOk?
    ensures sh' == sh && r == Rows(Listing(sh.media.rends, status))
  {
  }

  lemma PendingListed(cfg: Config, sh: Shared, me: nat, h: Item, list: seq<Rendition>)
    requires h.Hand? && h.pc.ListingPending? && h.msg == TriggerMsg(Transcode) && sh.media.batchClosed
    requires FilesStored(sh.media.rends, sh.media.objects)
    requires CoversPending(sh.media.rends, list, 0) && (list == [] ==> AllReady(sh.media.rends))
    ensures WorkerPcOk(cfg, sh, me, h.msg, Resume(cfg, h, Rows(list)))
  {
    assert Resume(cfg, h, Rows(list)) == if list == [] then Closing(Transcode) else PuttingMp4(list, 0);
  }

  /** What transcode finds. */
  predicate TranscodeMay(m: Media) {
    && BatchOk(m) && m.batchClosed && m.rends != [] && m.rends[0].status == RendReady
    && AsInserted(m.rends, m.batch) && FilesStored(m.rends, m.objects)
  }

  lemma ListingPendingResumes(cfg: Config, sh: Shared, me: nat, h: Item, ch: Choice, sh': Shared, r: Resp)
    requires h.Hand? && h.pc.ListingPending? && h.msg == TriggerMsg(Transcode)
    requires TranscodeMay(sh.media)
    requires Answered(sh, me, ListRenditions(RendPending), ch, sh', r)
    ensures WorkerPcOk(cfg, sh', me, h.msg, Resume(cfg, h, r))
  {
    if r.NotOk? {
      assert Resume(cfg, h, r) == Returned(false);
    } else {
      ListingAnswered(sh, me, RendPending, ch, sh', r);
      PendingListCovers(sh.media);
      PendingListed(cfg, sh, me, h, r.list);
    }
  }

  lemma MarkedIsStored(rends: seq<Rendition>, objects: map<Key, Object>, name: string, path: string, w: int, h: int)
    requires FilesStored(rends, objects) && Mp4Key(name) in objects
    ensures FilesStored(Marked(rends, name, path, w, h), objects)
  {
  }

  lemma MarkAnswered(sh: Shared, me: nat, name: string, path: string, ch: Choice, sh': Shared, r: Resp)
    requires Answered(sh, me, MarkReady(name, path), ch, sh', r) && !r.NotOk?
    ensures sh' == sh.(media := sh.media.(rends := Marked(sh.media.rends, name, path, ch.width, ch.height)))
  {
  }

  lemma MarkingGoesOn(cfg: Config, vid: string, h: Item, r: Resp)
    requires h.Hand? && h.pc.Marking? && h.pc.k < |h.pc.list|
    ensures var name := h.pc.list[h.pc.k].resolution;
            NextCall(cfg, vid, h) == MarkReady(name, KeyText(vid, Mp4Key(name)))
    ensures !r.NotOk? ==>
              Resume(cfg, h, r) == if h.pc.k + 1 < |h.pc.list| then PuttingMp4(h.pc.list, h.pc.k + 1)
                                   else Closing(Transcode)
    ensures r.NotOk? ==> Resume(cfg, h, r) == Returned(false)
  {
  }

  lemma MarkedGoesOn(cfg: Config, sh: Shared, me: nat, msg: Msg, list: seq<Rendition>, k: nat)
    requires msg == TriggerMsg(Transcode) && k <= |list| && CoversPending(sh.media.rends, list, k)
    requires sh.media.batchClosed && FilesStored(sh.media.rends, sh.media.objects)
    ensures WorkerPcOk(cfg, sh, me, msg, if k < |list| then PuttingMp4(list, k) else Closing(Transcode))
  {
    if k == |list| { AllCovered(sh.media.rends, list); }
  }

  lemma MarkingResumes(cfg: Config, sh: Shared, me: nat, h: Item, ch: Choice, sh': Shared, r: Resp)
    requires h.Hand? && h.pc.Marking? && WorkerPcOk(cfg, sh, me, h.msg, h.pc) && sh.media.batchClosed
    requires FilesStored(sh.media.rends, sh.media.objects)
    requires Answered(sh, me, NextCall(cfg, sh.vid, h), ch, sh', r)
    ensures WorkerPcOk(cfg, sh', me, h.msg, Resume(cfg, h, r))
  {
    var list, k := h.pc.list, h.pc.k;
    var path := KeyText(sh.vid, Mp4Key(list[k].resolution));
    MarkingGoesOn(cfg, sh.vid, h, r);
    if !r.NotOk? {
      MarkAnswered(sh, me, list[k].resolution, path, ch, sh', r);
      MarkCovers(sh.media.rends, list, k, path, ch.width, ch.height);
      MarkedIsStored(sh.media.rends, sh.media.objects, list[k].resolution, path, ch.width, ch.height);
      MarkedGoesOn(cfg, sh', me, h.msg, list, k + 1);
    }
  }

  lemma PuttingMp4Resumes(cfg: Config, sh: Shared, me: nat, h: Item, ch: Choice, sh': Shared, r: Resp)
    requires h.Hand? && h.pc.PuttingMp4? && WorkerPcOk(cfg, sh, me, h.msg, h.pc)
    requires Answered(sh, me, NextCall(cfg, sh.vid, h), ch, sh', r)
    ensures WorkerPcOk(cfg, sh', me, h.msg, Resume(cfg, h, r))
  {
  }

  lemma TranscodeResumes(cfg: Config, sh: Shared, me: nat, h: Item, ch: Choice, sh': Shared, r: Resp)
    requires h.Hand? && TranscodePc(h.pc) && WorkerPcOk(cfg, sh, me, h.msg, h.pc)
    requires TranscodeMay(sh.media)
    requires Answered(sh, me, NextCall(cfg, sh.vid, h), ch, sh', r)
    ensures WorkerPcOk(cfg, sh', me, h.msg, Resume(cfg, h, r))
  {
    if h.pc.ListingPending? {
      ListingPendingResumes(cfg, sh, me, h, ch, sh', r);
    } else if h.pc.Marking? {
      MarkingResumes(cfg, sh, me, h, ch, sh', r);
    } else {
      PuttingMp4Resumes(cfg, sh, me, h, ch, sh', r);
    }
  }

  lemma ReadyHasSource(m: Media, vid: string, path: string, r: Rendition)
    requires RendsOk(vid, path, m.rends) && AllReady(m.rends) && r in m.rends
    ensures r.storagePath.Some? && r.storagePath.value != "" && ReadySource(m.rends, r.resolution, r.storagePath.value)
  {
    var i :| 0 <= i < |m.rends| && m.rends[i] == r;
    SourceNotEmpty(vid, path, i, r.resolution);
  }

  lemma ReadyListCovers(m: Media, vid: string, path: string)
    requires BatchOk(m) && RendsOk(vid, path, m.rends) && AllReady(m.rends) && m.rends != []
    ensures var list := Listing(m.rends, RendReady); list != [] && CoversReady(m, list, 0)
  {
    var list := Listing(m.rends, RendReady);
    assert forall r :: r in list <==> r in m.rends && Listed(r, RendReady) by {
      ListingHoldsExactly(m.rends, RendReady);
    }
    forall i | 0 <= i < |m.rends| ensures Mentions(list, 0, m.rends[i].resolution) && list != [] {
      ReadyHasSource(m, vid, path, m.rends[i]);
      ListedIsMentioned(list, m.rends[i]);
    }
    assert Mentions(list, 0, m.rends[0].resolution);
    forall j | 0 <= j < |list|
      ensures list[j].storagePath.Some? && list[j].storagePath.value != ""
              && ReadySource(m.rends, list[j].resolution, list[j].storagePath.value)
    {
      ReadyHasSource(m, vid, path, list[j]);
    }
  }

  lemma SourceNotEmpty(vid: string, path: string, k: nat, resolution: string)
    requires path != ""
    ensures Source(vid, path, k, resolution) != ""
  {
    KeyTextNotEmpty(vid, Mp4Key(resolution));
  }

  /** No ready rendition lacks a path, so Segment's loop passes none over. */
  lemma NoneSkipped(list: seq<Rendition>, k: nat)
    requires k <= |list|
    requires forall j :: 0 <= j < |list| ==> list[j].storagePath.Some? && list[j].storagePath.value != ""
    ensures SegmentFrom(list, k) == if k == |list| then Closing(Segment) else Segmenting(list, k)
  {
  }

  lemma SegmentedAll(m: Media, list: seq<Rendition>)
    requires CoversReady(m, list, |list|)
    ensures AllSegmented(m)
  {
    forall i | 0 <= i < |m.rends| ensures VariantKey(m.rends[i].resolution) in m.objects {
      assert Mentions(list, 0, m.rends[i].resolution);
      var j :| 0 <= j < |list| && list[j].resolution == m.rends[i].resolution;
    }
  }

  lemma VariantPutCovers(m: Media, list: seq<Rendition>, k: nat, content: Object)
    requires CoversReady(m, list, k) && k < |list|
    ensures CoversReady(m.(objects := m.objects[VariantKey(list[k].resolution) := content]), list, k + 1)
  {
  }

  predicate SegmentPc(pc: Pc) {
    pc.ListingToSegment? || pc.Segmenting?
  }

  lemma ReadyListed(cfg: Config, sh: Shared, me: nat, h: Item, list: seq<Rendition>)
    requires h.Hand? && h.pc.ListingToSegment? && h.msg == TriggerMsg(Segment)
    requires list != [] && SegmentFrom(list, 0) == Segmenting(list, 0) && CoversReady(sh.media, list, 0)
    ensures WorkerPcOk(cfg, sh, me, h.msg, Resume(cfg, h, Rows(list)))
  {
    assert Resume(cfg, h, Rows(list)) == Segmenting(list, 0);
  }

  lemma ListingToSegmentResumes(cfg: Config, sh: Shared, me: nat, h: Item, ch: Choice, sh': Shared, r: Resp)
    requires h.Hand? && h.pc.ListingToSegment? && h.msg == TriggerMsg(Segment)
    requires BatchOk(sh.media) && RendsOk(sh.vid, sh.path, sh.media.rends) && AllReady(sh.media.rends)
               && sh.media.rends != []
    requires Answered(sh, me, ListRenditions(RendReady), ch, sh', r)
    ensures WorkerPcOk(cfg, sh', me, h.msg, Resume(cfg, h, r))
  {
    if r.NotOk? {
      assert Resume(cfg, h, r) == Returned(false);
    } else {
      ListingAnswered(sh, me, RendReady, ch, sh', r);
      StartsSegmenting(sh.media, sh.vid, sh.path);
      ReadyListed(cfg, sh, me, h, r.list);
    }
  }

  lemma StartsSegmenting(m: Media, vid: string, path: string)
    requires BatchOk(m) && RendsOk(vid, path, m.rends) && AllReady(m.rends) && m.rends != []
    ensures var list := Listing(m.rends, RendReady);
            list != [] && SegmentFrom(list, 0) == Segmenting(list, 0) && CoversReady(m, list, 0)
  {
    ReadyListCovers(m, vid, path);
    NoneSkipped(Listing(m.rends, RendReady), 0);
  }

  lemma SegmentingResumes(cfg: Config, sh: Shared, me: nat, h: Item, ch: Choice, sh': Shared, r: Resp)
    requires h.Hand? && h.pc.Segmenting? && WorkerPcOk(cfg, sh, me, h.msg, h.pc)
    requires sh.media.batchClosed && AllReady(sh.media.rends)
    requires Answered(sh, me, NextCall(cfg, sh.vid, h), ch, sh', r)
    ensures WorkerPcOk(cfg, sh', me, h.msg, Resume(cfg, h, r))
  {
    var list, k := h.pc.list, h.pc.k;
    if !r.NotOk? {
      VariantPutCovers(sh.media, list, k, VariantPlaylist(list[k].storagePath.value));
      NoneSkipped(list, k + 1);
      if k + 1 == |list| { SegmentedAll(sh'.media, list); }
    }
  }

  lemma ReadyListIsAll(m: Media, vid: string, path: string)
    requires BatchOk(m) && AllSegmented(m) && m.batchBy.Some?
    requires AllReady(m.rends) && RendsOk(vid, path, m.rends)
    ensures ListsAll(m.rends, m.objects, Listing(m.rends, RendReady))
  {
    var list := Listing(m.rends, RendReady);
    ReadyListCovers(m, vid, path);
    assert Ordered(list) && forall r :: r in list ==> r in m.rends by {
      ListingHoldsExactly(m.rends, RendReady);
    }
    DistinctNames(m);
    ListingDistinct(m.rends, RendReady);
    forall j | 0 <= j < |list| ensures QualifiedName(list[j].resolution)
        && VariantKey(list[j].resolution) in m.objects && HasName(m.rends, list[j].resolution) {
      assert list[j] in list;
      var i :| 0 <= i < |m.rends| && m.rends[i] == list[j];
      assert Names(m.batch)[i] in Names(m.batch);
    }
  }

  lemma DistinctNames(m: Media)
    requires BatchOk(m) && m.batchBy.Some?
    ensures Distinct(Names(m.rends))
  {
    forall i, j | 0 <= i < j < |m.rends| ensures Names(m.rends)[i] != Names(m.rends)[j] {
      assert Names(m.batch)[i] != Names(m.batch)[j];
    }
  }

  predicate PublishPc(pc: Pc) {
    pc.ListingToPublish? || pc.PuttingMaster? || pc.ReadingForPlayback? || pc.WritingPlayback?
  }

  lemma MasterListed(cfg: Config, sh: Shared, me: nat, h: Item, list: seq<Rendition>)
    requires h.Hand? && h.pc.ListingToPublish? && h.msg == TriggerMsg(Publish)
    requires sh.media.batchClosed && AllReady(sh.media.rends) && ListsAll(sh.media.rends, sh.media.objects, list)
    ensures WorkerPcOk(cfg, sh, me, h.msg, Resume(cfg, h, Rows(list)))
  {
    assert Resume(cfg, h, Rows(list)) == PuttingMaster(list);
  }

  lemma ListingToPublishResumes(cfg: Config, sh: Shared, me: nat, h: Item, ch: Choice, sh': Shared, r: Resp)
    requires h.Hand? && h.pc.ListingToPublish? && h.msg == TriggerMsg(Publish)
    requires BatchOk(sh.media) && AllSegmented(sh.media) && sh.media.batchClosed && sh.media.batchBy.Some?
    requires AllReady(sh.media.rends) && RendsOk(sh.vid, sh.path, sh.media.rends)
    requires Answered(sh, me, ListRenditions(RendReady), ch, sh', r)
    ensures WorkerPcOk(cfg, sh', me, h.msg, Resume(cfg, h, r))
  {
    if r.NotOk? {
      assert Resume(cfg, h, r) == Returned(false);
    } else {
      ListingAnswered(sh, me, RendReady, ch, sh', r);
      ReadyListIsAll(sh.media, sh.vid, sh.path);
      MasterListed(cfg, sh, me, h, r.list);
    }
  }

  lemma MasterAnswered(sh: Shared, me: nat, text: string, list: seq<Rendition>, ch: Choice, sh': Shared, r: Resp)
    requires Answered(sh, me, PutMaster(text, list), ch, sh', r) && !r.NotOk?
    ensures sh' == sh.(media := AfterPutMaster(sh.media, text, list))
  {
  }

  lemma PuttingMasterResumes(cfg: Config, sh: Shared, me: nat, h: Item, ch: Choice, sh': Shared, r: Resp)
    requires h.Hand? && h.pc.PuttingMaster? && WorkerPcOk(cfg, sh, me, h.msg, h.pc)
    requires Answered(sh, me, PutMaster(MasterText(Names(h.pc.list)), h.pc.list), ch, sh', r)
    ensures WorkerPcOk(cfg, sh', me, h.msg, Resume(cfg, h, r))
  {
    assert Resume(cfg, h, r) == if r.NotOk? then Returned(false) else ReadingForPlayback;
    if !r.NotOk? {
      MasterAnswered(sh, me, MasterText(Names(h.pc.list)), h.pc.list, ch, sh', r);
      PutMasterEvolves(me, sh.media, h.pc.list);
    }
  }

  lemma PlaybackResumes(cfg: Config, sh: Shared, me: nat, h: Item, ch: Choice, sh': Shared, r: Resp)
    requires h.Hand? && (h.pc.ReadingForPlayback? || h.pc.WritingPlayback?) && WorkerPcOk(cfg, sh, me, h.msg, h.pc)
    requires Answered(sh, me, NextCall(cfg, sh.vid, h), ch, sh', r)
    ensures WorkerPcOk(cfg, sh', me, h.msg, Resume(cfg, h, r))
  {
  }

  lemma PublishResumes(cfg: Config, sh: Shared, me: nat, h: Item, ch: Choice, sh': Shared, r: Resp)
    requires h.Hand? && PublishPc(h.pc) && WorkerPcOk(cfg, sh, me, h.msg, h.pc)
    requires BatchOk(sh.media) && AllSegmented(sh.media) && sh.media.batchClosed && sh.media.batchBy.Some?
    requires AllReady(sh.media.rends) && RendsOk(sh.vid, sh.path, sh.media.rends)
    requires Answered(sh, me, NextCall(cfg, sh.vid, h), ch, sh', r)
    ensures WorkerPcOk(cfg, sh', me, h.msg, Resume(cfg, h, r))
  {
    if h.pc.ListingToPublish? {
      ListingToPublishResumes(cfg, sh, me, h, ch, sh', r);
    } else if h.pc.PuttingMaster? {
      PuttingMasterResumes(cfg, sh, me, h, ch, sh', r);
    } else {
      PlaybackResumes(cfg, sh, me, h, ch, sh', r);
    }
  }

  predicate PlainPc(pc: Pc) {
    !OrchestratorPc(pc) && !MetadataPc(pc) && !TranscodePc(pc) && !SegmentPc(pc) && !PublishPc(pc)
  }

  predicate TailPc(pc: Pc) {
    pc.Closing? || pc.Reporting? || pc.Failing? || pc.FailingUpload? || pc.ReportingFailed?
  }

  lemma ClosingResumes(cfg: Config, sh: Shared, me: nat, h: Item, ch: Choice, sh': Shared, r: Resp)
    requires h.Hand? && h.pc.Closing? && WorkerPcOk(cfg, sh, me, h.msg, h.pc) && MediaEvolves(me, sh.media, sh'.media)
    requires Answered(sh, me, UpdateStep(h.pc.step, Done), ch, sh', r)
    ensures WorkerPcOk(cfg, sh', me, h.msg, Resume(cfg, h, r))
  {
    WorkDoneStays(me, sh.media, sh'.media, h.pc.step);
  }

  lemma TailResumes(cfg: Config, sh: Shared, me: nat, h: Item, ch: Choice, sh': Shared, r: Resp)
    requires h.Hand? && TailPc(h.pc) && WorkerPcOk(cfg, sh, me, h.msg, h.pc)
    requires RowsEvolve(sh.rows, sh'.rows) && MediaEvolves(me, sh.media, sh'.media)
    requires Answered(sh, me, NextCall(cfg, sh.vid, h), ch, sh', r)
    ensures Resume(cfg, h, r).Gone? || WorkerPcOk(cfg, sh', me, h.msg, Resume(cfg, h, r))
  {
    if h.pc.Closing? { ClosingResumes(cfg, sh, me, h, ch, sh', r); }
  }

  lemma PlainResumes(cfg: Config, sh: Shared, me: nat, h: Item, ch: Choice, sh': Shared, r: Resp)
    requires h.Hand? && PlainPc(h.pc) && !TailPc(h.pc) && WorkerPcOk(cfg, sh, me, h.msg, h.pc) && MsgOk(cfg, sh, h.msg)
    requires PlaybackOk(sh.vid, sh.media.objects, sh.hls)
    requires Answered(sh, me, NextCall(cfg, sh.vid, h), ch, sh', r)
    ensures Resume(cfg, h, r).Gone? || WorkerPcOk(cfg, sh', me, h.msg, Resume(cfg, h, r))
  {
  }

  lemma TranscodeChain(cfg: Config, sh: Shared, me: nat, h: Item, ch: Choice, sh': Shared, r: Resp)
    requires h.Hand? && TranscodePc(h.pc)
    requires WorkerPcOk(cfg, sh, me, h.msg, h.pc) && MsgOk(cfg, sh, h.msg) && SharedInv(cfg, sh)
    requires Answered(sh, me, NextCall(cfg, sh.vid, h), ch, sh', r)
    ensures WorkerPcOk(cfg, sh', me, h.msg, Resume(cfg, h, r))
  {
    ChainWork(sh.rows, sh.media, Transcode);
    TranscodeResumes(cfg, sh, me, h, ch, sh', r);
  }

  lemma SegmentChain(cfg: Config, sh: Shared, me: nat, h: Item, ch: Choice, sh': Shared, r: Resp)
    requires h.Hand? && SegmentPc(h.pc)
    requires WorkerPcOk(cfg, sh, me, h.msg, h.pc) && MsgOk(cfg, sh, h.msg) && SharedInv(cfg, sh)
    requires Answered(sh, me, NextCall(cfg, sh.vid, h), ch, sh', r)
    ensures WorkerPcOk(cfg, sh', me, h.msg, Resume(cfg, h, r))
  {
    ChainWork(sh.rows, sh.media, Segment);
    if h.pc.ListingToSegment? {
      ListingToSegmentResumes(cfg, sh, me, h, ch, sh', r);
    } else {
      SegmentingResumes(cfg, sh, me, h, ch, sh', r);
    }
  }

  lemma PublishChain(cfg: Config, sh: Shared, me: nat, h: Item, ch: Choice, sh': Shared, r: Resp)
    requires h.Hand? && PublishPc(h.pc)
    requires WorkerPcOk(cfg, sh, me, h.msg, h.pc) && MsgOk(cfg, sh, h.msg) && SharedInv(cfg, sh)
    requires Answered(sh, me, NextCall(cfg, sh.vid, h), ch, sh', r)
    ensures WorkerPcOk(cfg, sh', me, h.msg, Resume(cfg, h, r))
  {
    ChainWork(sh.rows, sh.media, Publish);
    PublishResumes(cfg, sh, me, h, ch, sh', r);
  }

  /** The steps whose work needs what its predecessors left behind. */
  lemma ChainResumes(cfg: Config, sh: Shared, me: nat, h: Item, ch: Choice, sh': Shared, r: Resp)
    requires h.Hand? && (TranscodePc(h.pc) || SegmentPc(h.pc) || PublishPc(h.pc))
    requires WorkerPcOk(cfg, sh, me, h.msg, h.pc) && MsgOk(cfg, sh, h.msg) && SharedInv(cfg, sh)
    requires Answered(sh, me, NextCall(cfg, sh.vid, h), ch, sh', r)
    ensures WorkerPcOk(cfg, sh', me, h.msg, Resume(cfg, h, r))
  {
    if TranscodePc(h.pc) {
      TranscodeChain(cfg, sh, me, h, ch, sh', r);
    } else if SegmentPc(h.pc) {
      SegmentChain(cfg, sh, me, h, ch, sh', r);
    } else {
      PublishChain(cfg, sh, me, h, ch, sh', r);
    }
  }

  lemma WorkerResumes(cfg: Config, sh: Shared, me: nat, h: Item, ch: Choice, sh': Shared, r: Resp)
    requires h.Hand? && !OrchestratorPc(h.pc) && WorkerPcOk(cfg, sh, me, h.msg, h.pc) && MsgOk(cfg, sh, h.msg)
    requires SharedInv(cfg, sh) && Evolves(me, sh, sh')
    requires Answered(sh, me, NextCall(cfg, sh.vid, h), ch, sh', r)
    ensures Resume(cfg, h, r).Gone? || WorkerPcOk(cfg, sh', me, h.msg, Resume(cfg, h, r))
  {
    if MetadataPc(h.pc) {
      assert h.msg == TriggerMsg(Metadata) && sh.rows != map[];
      if h.pc.Inserting? { InsertingResumes(cfg, sh, me, h, ch, sh', r); }
          else { MetadataResumes(cfg, sh, me, h, ch, sh', r); }
    } else if TranscodePc(h.pc) || SegmentPc(h.pc) || PublishPc(h.pc) {
      ChainResumes(cfg, sh, me, h, ch, sh', r);
    } else if TailPc(h.pc) {
      TailResumes(cfg, sh, me, h, ch, sh', r);
    } else {
      PlainResumes(cfg, sh, me, h, ch, sh', r);
    }
  }

  // ---------------------------------------------------------------- one step of one hand

  /** A hand about to make its next call, in a good state. */
  ghost predicate Ready(cfg: Config, sh: Shared, me: nat, h: Item, ch: Choice) {
    && h.Hand? && SharedInv(cfg, sh) && MsgOk(cfg, sh, h.msg) && PcOk(cfg, sh, me, h.msg, h.pc)
    && (ch.skipClose ==> !cfg.shipped && h.pc.Closing?)
  }

  lemma CallAllowed(cfg: Config, sh: Shared, me: nat, h: Item)
    requires h.Hand? && MsgOk(cfg, sh, h.msg) && PcOk(cfg, sh, me, h.msg, h.pc)
    requires StartOk(sh.vid, sh.path, sh.startEvents, sh.rows)
    ensures Allowed(cfg, sh, me, NextCall(cfg, sh.vid, h))
  {
    if OrchestratorPc(h.pc) {
      OrchestratorCallAllowed(cfg, sh, me, h);
    } else {
      WorkerCallAllowed(cfg, sh, me, h);
    }
  }

  lemma PcOkAfter(cfg: Config, sh: Shared, me: nat, msg: Msg, pc: Pc)
    ensures !OrchestratorPc(pc) ==> OrchestratorPcOk(sh.rows, sh.hist, me, msg, pc)
    ensures OrchestratorPc(pc) || pc.Returned? ==> WorkerPcOk(cfg, sh, me, msg, pc)
  {
  }

  lemma ResumeOk(cfg: Config, sh: Shared, me: nat, h: Item, ch: Choice, sh': Shared, r: Resp)
    requires h.Hand? && PcOk(cfg, sh, me, h.msg, h.pc) && MsgOk(cfg, sh, h.msg)
    requires SharedInv(cfg, sh) && Evolves(me, sh, sh')
    requires Answered(sh, me, NextCall(cfg, sh.vid, h), ch, sh', r)
    ensures Resume(cfg, h, r).Gone? || PcOk(cfg, sh', me, h.msg, Resume(cfg, h, r))
  {
    HandlersStayApart(cfg, h, r);
    PcOkAfter(cfg, sh', me, h.msg, Resume(cfg, h, r));
    if OrchestratorPc(h.pc) {
      OrchestratorResumes(cfg, sh, me, h, ch, sh', r);
    } else {
      WorkerResumes(cfg, sh, me, h, ch, sh', r);
    }
  }

  ghost predicate CopyOk(cfg: Config, sh: Shared, copy: Option<Item>) {
    copy.Some? ==> copy.value.Queued? && MsgOk(cfg, sh, copy.value.msg)
  }

  /** What an allowed call puts on a queue is a message that may exist. */
  lemma SentOk(cfg: Config, sh: Shared, me: nat, call: Call, msg: Msg, retries: nat)
    requires Allowed(cfg, sh, me, call) && MsgOk(cfg, sh, msg)
    ensures CopyOk(cfg, sh, SentCopy(call, msg, retries))
  {
  }

  /** Whatever a step sends is a message on a queue. */
  lemma SentIsQueued(cfg: Config, sh: Shared, h: Item, ch: Choice)
    requires h.Hand?
    ensures StepCopy(cfg, sh, h, ch).Some? ==> StepCopy(cfg, sh, h, ch).value.Queued?
  {
  }

  lemma CallOk(cfg: Config, sh: Shared, me: nat, h: Item, ch: Choice)
    requires Ready(cfg, sh, me, h, ch) && !ch.skipClose
    ensures var (sh', r) := Effect(sh, me, NextCall(cfg, sh.vid, h), ch);
            && Keeps(cfg, me, sh, sh')
            && (Resume(cfg, h, r).Gone? || PcOk(cfg, sh', me, h.msg, Resume(cfg, h, r)))
  {
    var call := NextCall(cfg, sh.vid, h);
    CallAllowed(cfg, sh, me, h);
    EffectKeeps(cfg, sh, me, call, ch);
    ResumeOk(cfg, sh, me, h, ch, Effect(sh, me, call, ch).0, Effect(sh, me, call, ch).1);
  }

  lemma SkipOk(cfg: Config, sh: Shared, me: nat, msg: Msg, st: StepName)
    requires !cfg.shipped && PcOk(cfg, sh, me, msg, Closing(st))
    ensures PcOk(cfg, sh, me, msg, Reporting(st))
  {
  }

  /** Any hand, any program counter, any outcome of its call. */
  lemma HandStepOk(cfg: Config, sh: Shared, me: nat, h: Item, ch: Choice)
    requires Ready(cfg, sh, me, h, ch)
    ensures var (sh', h') := StepHand(cfg, sh, me, h, ch);
            && Keeps(cfg, me, sh, sh')
            && (h'.pc.Gone? || PcOk(cfg, sh', me, h.msg, h'.pc))
    ensures CopyOk(cfg, sh, StepCopy(cfg, sh, h, ch))
  {
    CallAllowed(cfg, sh, me, h);
    SentOk(cfg, sh, me, NextCall(cfg, sh.vid, h), h.msg, h.retries);
    if ch.skipClose {
      NothingKeeps(cfg, me, sh);
      SkipOk(cfg, sh, me, h.msg, h.pc.step);
    } else {
      CallOk(cfg, sh, me, h, ch);
    }
  }

  // ---------------------------------------------------------------- actions and runs

  lemma FreshHandOk(cfg: Config, sh: Shared, i: nat, q: Item)
    requires q.Queued? && ItemOk(cfg, sh, i, q)
    ensures ItemOk(cfg, sh, i, Hand(q.msg, q.retries, false, InitialPc(q.msg)))
  {
  }

  lemma AddKeeps(cfg: Config, s: State, copy: Option<Item>)
    requires Inv(cfg, s) && (copy.Some? ==> ItemOk(cfg, s.shared, s.next, copy.value))
    ensures Inv(cfg, Add(s, copy))
  {
  }

  /** Others' items after a step of `me`. */
  lemma OthersKeep(cfg: Config, me: nat, s: State, sh': Shared)
    requires Inv(cfg, s) && Evolves(me, s.shared, sh')
    ensures forall j <- s.items :: j != me ==> j < s.next && ItemOk(cfg, sh', j, s.items[j])
  {
    forall j <- s.items | j != me ensures j < s.next && ItemOk(cfg, sh', j, s.items[j]) {
      ItemStays(cfg, me, s.shared, sh', j, s.items[j]);
    }
  }

  /** A state put together from new tables, the stepping hand's new item, and everybody else's old items. */
  lemma SettleKeeps(cfg: Config, s: State, i: nat, sh': Shared, h': Item)
    requires i in s.items && i < s.next && h'.Hand? && SharedInv(cfg, sh') && MsgOk(cfg, sh', h'.msg)
    requires h'.pc.Gone? || PcOk(cfg, sh', i, h'.msg, h'.pc)
    requires forall j <- s.items :: j != i ==> j < s.next && ItemOk(cfg, sh', j, s.items[j])
    ensures Inv(cfg, State(sh', Settle(s.items, i, h'), s.next))
  {
    var items := Settle(s.items, i, h');
    forall j <- items ensures j < s.next && ItemOk(cfg, sh', j, items[j]) {}
  }

  lemma RunKeeps(cfg: Config, s: State, i: nat, ch: Choice)
    requires Inv(cfg, s) && Enabled(cfg, s, Run(i, ch))
    ensures Inv(cfg, Do(cfg, s, Run(i, ch)))
    ensures Evolves(i, s.shared, Do(cfg, s, Run(i, ch)).shared)
  {
    var h := s.items[i];
    var (sh', h') := StepHand(cfg, s.shared, i, h, ch);
    var copy := StepCopy(cfg, s.shared, h, ch);
    assert ItemOk(cfg, s.shared, i, h);
    HandStepOk(cfg, s.shared, i, h, ch);
    OthersKeep(cfg, i, s, sh');
    MsgStays(cfg, i, s.shared, sh', h.msg);
    if copy.Some? { MsgStays(cfg, i, s.shared, sh', copy.value.msg); }
    SettleKeeps(cfg, s, i, sh', h');
    AddKeeps(cfg, State(sh', Settle(s.items, i, h'), s.next), copy);
  }

  lemma ClientKeeps(cfg: Config, s: State, i: nat, ch: Choice)
    requires Inv(cfg, s) && Enabled(cfg, s, Client(i, ch))
    ensures Inv(cfg, Do(cfg, s, Client(i, ch)))
    ensures Evolves(i, s.shared, Do(cfg, s, Client(i, ch)).shared)
  {
    var sh' := Do(cfg, s, Client(i, ch)).shared;
    if sh' == s.shared { NothingKeeps(cfg, i, s.shared); } else { CommitKeeps(cfg, i, s.shared); }
    OthersKeep(cfg, i, s, sh');
  }

  /** The name under which a step counts: its hand's, or the next free item number. */
  function Mover(s: State, a: Action): nat {
    if Actor(a).Some? then Actor(a).value else s.next
  }

  /** One item changes, or goes, with the tables as they are. */
  lemma ItemKeeps(cfg: Config, s: State, i: nat, item: Item)
    requires Inv(cfg, s) && i in s.items && ItemOk(cfg, s.shared, i, item)
    ensures Inv(cfg, s.(items := s.items[i := item])) && Inv(cfg, s.(items := s.items - {i}))
  {
  }

  lemma CrashKeeps(cfg: Config, s: State, i: nat)
    requires Inv(cfg, s) && Enabled(cfg, s, Crash(i))
    ensures Inv(cfg, Do(cfg, s, Crash(i))) && Do(cfg, s, Crash(i)).shared == s.shared
  {
    if s.items[i].Hand? {
      ItemKeeps(cfg, s, i, Queued(Main, s.items[i].msg, s.items[i].retries));
    } else {
      ItemKeeps(cfg, s, i, s.items[i]);
    }
  }

  lemma QueueStepKeeps(cfg: Config, s: State, a: Action)
    requires Inv(cfg, s) && Enabled(cfg, s, a) && (a.Deliver? || a.Elapse? || a.Crash?)
    ensures Inv(cfg, Do(cfg, s, a)) && Do(cfg, s, a).shared == s.shared
  {
    match a
    case Deliver(i) =>
      var q := s.items[i];
      FreshHandOk(cfg, s.shared, i, q);
      ItemKeeps(cfg, s, i, Hand(q.msg, q.retries, false, InitialPc(q.msg)));
    case Elapse(i) => ItemKeeps(cfg, s, i, s.items[i].(place := Main));
    case Crash(i) => CrashKeeps(cfg, s, i);
  }

  lemma ArrivalKeeps(cfg: Config, s: State, a: Action)
    requires Inv(cfg, s) && Enabled(cfg, s, a) && (a.NewClient? || a.Dispatch?)
    ensures Inv(cfg, Do(cfg, s, a)) && Do(cfg, s, a).shared == s.shared
  {
    AddKeeps(cfg, s, Some(if a.NewClient? then Finalizer(LookingUp) else Queued(Main, StartMsg, 0)));
  }

  lemma ExpireStepKeeps(cfg: Config, s: State)
    requires Inv(cfg, s)
    ensures Inv(cfg, Do(cfg, s, Expire)) && Evolves(s.next, s.shared, Do(cfg, s, Expire).shared)
  {
    NothingKeeps(cfg, s.next, s.shared);
    ExpireKeeps(cfg, s.next, s.shared);
    OthersKeep(cfg, s.next, s, Do(cfg, s, Expire).shared);
  }

  lemma StepKeeps(cfg: Config, s: State, a: Action)
    requires Inv(cfg, s) && Enabled(cfg, s, a)
    ensures Inv(cfg, Do(cfg, s, a))
    ensures Evolves(Mover(s, a), s.shared, Do(cfg, s, a).shared)
  {
    if a.Run? {
      RunKeeps(cfg, s, a.i, a.ch);
    } else if a.Client? {
      ClientKeeps(cfg, s, a.i, a.ch);
    } else if a.Expire? {
      ExpireStepKeeps(cfg, s);
    } else {
      NothingKeeps(cfg, Mover(s, a), s.shared);
      if a.NewClient? || a.Dispatch? { ArrivalKeeps(cfg, s, a); } else { QueueStepKeeps(cfg, s, a); }
    }
  }

  lemma InitOk(cfg: Config, s: State)
    requires Init(s)
    ensures Inv(cfg, s)
  {
  }

  lemma {:induction false} RunsKeep(cfg: Config, s: State, acts: seq<Action>)
    requires Inv(cfg, s) && Legal(cfg, s, acts)
    ensures Inv(cfg, Exec(cfg, s, acts))
    decreases |acts|
  {
    if acts != [] {
      StepKeeps(cfg, s, acts[0]);
      RunsKeep(cfg, Do(cfg, s, acts[0]), acts[1..]);
    }
  }

  lemma ReachableOk(cfg: Config, s: State)
    requires Reachable(cfg, s)
    ensures Inv(cfg, s)
  {
    var s0, acts :| Init(s0) && Legal(cfg, s0, acts) && s == Exec(cfg, s0, acts);
    InitOk(cfg, s0);
    RunsKeep(cfg, s0, acts);
  }
}
