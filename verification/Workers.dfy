/** The five workers, their common tail, their failure reports and their consume loops. A worker that acks
    its trigger leaves its work finished and its row terminal, whatever attempts went before, overlap or
    fail. */
module Workers {
  import opened Basics
  import opened StepTable
  import opened Renditions
  import opened Playlist
  import opened Pipeline
  import opened PipelineInvariant
  import opened PipelineSteps
  import opened PipelineTheorems
  import opened Sessions
  import opened Orchestrator

  predicate PipelineStep(st: StepName) {
    !st.OtherStep?
  }

  /** What an ack of step `st` promises. */
  predicate Settled(sh: Shared, st: StepName) {
    st in sh.rows && Terminal(sh.rows[st]) && WorkDone(sh.media, st)
  }

  lemma SettledStays(a: Shared, b: Shared, st: StepName)
    requires Settled(a, st) && Forward(a, b) && PipelineStep(st)
    requires RowsOk(b.rows)
    ensures Settled(b, st)
  {
    assert PIPELINE_STEPS[0] == Thumbnail && PIPELINE_STEPS[1] == Metadata && PIPELINE_STEPS[2] == Transcode
        && PIPELINE_STEPS[3] == Segment && PIPELINE_STEPS[4] == Publish;
    assert st in PIPELINE_STEPS;
  }

  /** A hand at its own done update has finished the work, and its row has left pending. */
  lemma ClosingFacts(cfg: Config, s: State, me: nat, st: StepName)
    requires Reachable(cfg, s) && me in s.items && s.items[me].Hand? && s.items[me].pc == Closing(st)
    ensures WorkDone(s.shared.media, st) && s.items[me].msg == TriggerMsg(st)
    ensures st in s.shared.rows && !s.shared.rows[st].Pending?
  {
    ReachableOk(cfg, s);
    assert ItemOk(cfg, s.shared, me, s.items[me]);
  }

  lemma SettledNow(cfg: Config, a: Shared, s: State, st: StepName)
    requires Reachable(cfg, s) && Forward(a, s.shared) && WorkDone(a.media, st) && PipelineStep(st)
    requires st in a.rows && !a.rows[st].Pending? && !Is(s.shared.rows, st, Processing)
    ensures Settled(s.shared, st)
  {
    ReachableOk(cfg, s);
    assert PIPELINE_STEPS[0] == Thumbnail && PIPELINE_STEPS[1] == Metadata && PIPELINE_STEPS[2] == Transcode
        && PIPELINE_STEPS[3] == Segment && PIPELINE_STEPS[4] == Publish;
    assert st in PIPELINE_STEPS;
  }

  /** The calls of the tail: the row's update, and the result after it exactly when it applied. */
  predicate CloseLog(log: Log, st: StepName, ok: bool) {
    && log != [] && log[0].0 == UpdateStep(st, Done)
    && if log[0].1 == Outcome(true)
       then |log| == 2 && log[1].0 == SendResult(st, Done) && (ok <==> !log[1].1.NotOk?)
       else |log| == 1 && (ok <==> !log[0].1.NotOk?)
  }

  /** The tail of every worker: close the own row, and only if that applied publish the result. */
  method CloseAndReport(sess: Session, st: StepName) returns (ok: bool)
    requires sess.Valid() && sess.At(Closing(st)) && PipelineStep(st)
    modifies sess
    ensures sess.Valid() && Leads(sess.cfg, old(sess.s), sess.s) && sess.At(Returned(ok))
    ensures ok ==> Settled(sess.s.shared, st)
    ensures CloseLog(sess.Since(|old(sess.log)|), st, ok) && old(sess.log) <= sess.log
  {
    ghost var r;
    var applied;
    ok, applied, r := CloseRow(sess, st);
    OneCall(old(sess.log), (UpdateStep(st, Done), r));
    if applied {
      ghost var closed := sess.s;
      ok := ReportClosed(sess, st, old(sess.log), r);
      LeadsOn(sess.cfg, old(sess.s), closed, sess.s);
    }
  }

  method ReportClosed(sess: Session, st: StepName, ghost first: Log, ghost r: Resp) returns (ok: bool)
    requires sess.Valid() && sess.At(Reporting(st)) && PipelineStep(st) && Settled(sess.s.shared, st)
    requires sess.log == first + [(UpdateStep(st, Done), r)] && r == Outcome(true)
    modifies sess
    ensures sess.Valid() && Leads(sess.cfg, old(sess.s), sess.s) && sess.At(Returned(ok))
    ensures Settled(sess.s.shared, st)
    ensures CloseLog(sess.Since(|first|), st, ok) && first <= sess.log
  {
    ghost var sent;
    ok, sent := Report(sess, st);
    TwoCalls(first, (UpdateStep(st, Done), r), (SendResult(st, Done), sent));
  }

  method CloseRow(sess: Session, st: StepName) returns (ok: bool, applied: bool, ghost r: Resp)
    requires sess.Valid() && sess.At(Closing(st)) && PipelineStep(st)
    modifies sess
    ensures sess.Valid() && Leads(sess.cfg, old(sess.s), sess.s)
    ensures sess.At(if applied then Reporting(st) else Returned(ok))
    ensures ok ==> Settled(sess.s.shared, st)
    ensures sess.log == old(sess.log) + [(UpdateStep(st, Done), r)]
    ensures (ok <==> !r.NotOk?) && (applied <==> r == Outcome(true))
  {
    ClosingFacts(sess.cfg, sess.s, sess.me, st);
    ghost var start := sess.s;
    var answer := sess.Make(Closing(st), UpdateStep(st, Done));
    r := answer;
    if answer.NotOk? {
      return false, false, r;
    }
    SettledNow(sess.cfg, start.shared, sess.s, st);
    return true, answer == Outcome(true), r;
  }

  method Report(sess: Session, st: StepName) returns (ok: bool, ghost r: Resp)
    requires sess.Valid() && sess.At(Reporting(st)) && PipelineStep(st) && Settled(sess.s.shared, st)
    modifies sess
    ensures sess.Valid() && Leads(sess.cfg, old(sess.s), sess.s) && sess.At(Returned(ok))
    ensures Settled(sess.s.shared, st)
    ensures sess.log == old(sess.log) + [(SendResult(st, Done), r)] && (ok <==> !r.NotOk?)
  {
    var answer := sess.Make(Reporting(st), SendResult(st, Done));
    StaysSettled(sess.cfg, old(sess.s.shared), sess.s, st);
    return !answer.NotOk?, answer;
  }

  method StoreThumbnail(sess: Session) returns (ok: bool)
    requires sess.Valid() && sess.At(Fetching(Thumbnail))
    modifies sess
    ensures sess.Valid() && Leads(sess.cfg, old(sess.s), sess.s)
    ensures sess.At(if ok then ReadingForThumbnail else Returned(false))
  {
    var r := sess.Make(Fetching(Thumbnail), GetContext);
    if r.NotOk? { return false; }
    ghost var fetched := sess.s;
    r := sess.Make(PuttingThumbnail, Put(ThumbnailKey, Image));
    LeadsOn(sess.cfg, old(sess.s), fetched, sess.s);
    return !r.NotOk?;
  }

  /** UpdateVideoThumbnail: the video is read, then written back as a whole. */
  method WriteThumbnail(sess: Session) returns (ok: bool)
    requires sess.Valid() && sess.At(ReadingForThumbnail)
    modifies sess
    ensures sess.Valid() && Leads(sess.cfg, old(sess.s), sess.s)
    ensures sess.At(if ok then Closing(Thumbnail) else Returned(false))
  {
    var r := sess.Make(ReadingForThumbnail, ReadVideo);
    if r.NotOk? { return false; }
    var hls := r.hls;
    ghost var read := sess.s;
    r := sess.Make(WritingThumbnail(hls), WriteVideo(hls));
    LeadsOn(sess.cfg, old(sess.s), read, sess.s);
    return !r.NotOk?;
  }

  /** When it succeeds an image is stored under the video's thumbnail key. */
  method GenerateThumbnail(sess: Session) returns (ok: bool)
    requires sess.Valid() && sess.At(Fetching(Thumbnail))
    modifies sess
    ensures sess.Valid() && Leads(sess.cfg, old(sess.s), sess.s) && sess.At(Returned(ok))
    ensures ok ==> Settled(sess.s.shared, Thumbnail)
    ensures ok ==> var objects := sess.s.shared.media.objects; ThumbnailKey in objects && objects[ThumbnailKey].Image?
  {
    ghost var start := sess.s;
    ok := StoreThumbnail(sess);
    if !ok { return false; }
    ghost var stored := sess.s;
    ok := WriteThumbnail(sess);
    LeadsOn(sess.cfg, start, stored, sess.s);
    if !ok { return false; }
    ghost var written := sess.s;
    ok := CloseAndReport(sess, Thumbnail);
    LeadsOn(sess.cfg, start, written, sess.s);
    ThumbnailIsImage(sess.cfg, sess.s);
  }

  lemma ThumbnailIsImage(cfg: Config, s: State)
    requires Reachable(cfg, s)
    ensures ThumbnailKey in s.shared.media.objects ==> s.shared.media.objects[ThumbnailKey].Image?
  {
    ReachableOk(cfg, s);
    if ThumbnailKey in s.shared.media.objects {
      assert Belongs(ThumbnailKey, s.shared.media.objects[ThumbnailKey]);
    }
  }

  method InsertOne(sess: Session, batch: seq<Rendition>, k: nat) returns (ok: bool)
    requires sess.Valid() && k < |batch| && sess.At(Inserting(batch, k))
    modifies sess
    ensures sess.Valid() && Leads(sess.cfg, old(sess.s), sess.s) && Forward(old(sess.s.shared), sess.s.shared)
    ensures sess.At(InsertAt(batch, k, ok))
    ensures (ok && k == 0 ==> Begun(sess.s.shared.media, batch)) && old(sess.log) <= sess.log
  {
    var r := sess.Make(Inserting(batch, k), InsertRendition(batch, k));
    return !r.NotOk?;
  }

  function InsertAt(batch: seq<Rendition>, k: nat, ok: bool): Pc {
    if !ok then Returned(false) else if k + 1 < |batch| then Inserting(batch, k + 1) else Closing(Metadata)
  }

  /** The rows of the video are these, or will be. */
  predicate Begun(m: Media, batch: seq<Rendition>) {
    m.batchBy.Some? && m.batch == batch
  }

  /** CreateRenditions: the source row and one row a rung; the first refused insert ends it. */
  method InsertAll(sess: Session, batch: seq<Rendition>) returns (ok: bool)
    requires sess.Valid() && batch != [] && sess.At(Inserting(batch, 0))
    modifies sess
    ensures sess.Valid() && Leads(sess.cfg, old(sess.s), sess.s)
    ensures sess.At(if ok then Closing(Metadata) else Returned(false))
    ensures (ok ==> Begun(sess.s.shared.media, batch)) && old(sess.log) <= sess.log
  {
    LeadsNowhere(sess.cfg, sess.s);
    for k := 0 to |batch|
      invariant sess.Valid() && Leads(sess.cfg, old(sess.s), sess.s) && old(sess.log) <= sess.log
      invariant sess.At(if k < |batch| then Inserting(batch, k) else Closing(Metadata))
      invariant k > 0 ==> Begun(sess.s.shared.media, batch)
    {
      ghost var before := sess.s;
      ok := InsertOne(sess, batch, k);
      LeadsOn(sess.cfg, old(sess.s), before, sess.s);
      if !ok {
        return false;
      }
    }
    return true;
  }

  /** What a probe answered, and the batch it decides: the source and every rung below its height. */
  predicate Probed(log: Log, path: string, w: int, h: int, batch: seq<Rendition>) {
    && |log| == 2 && log[0] == (GetContext, Context(path)) && log[1] == (Extract, Dimensions(w, h))
    && batch == BatchFor(path, w, h, LadderFor(h))
  }

  predicate ProbedFirst(log: Log, path: string, w: int, h: int, batch: seq<Rendition>) {
    |log| >= 2 && Probed(log[..2], path, w, h, batch)
  }

  method Probe(sess: Session) returns (ok: bool, batch: seq<Rendition>, ghost path: string, ghost w: int, ghost h: int)
    requires sess.Valid() && sess.At(Fetching(Metadata))
    modifies sess
    ensures sess.Valid() && Leads(sess.cfg, old(sess.s), sess.s) && batch != []
    ensures sess.At(if ok then ReadingForMetadata(batch) else Returned(false))
    ensures (ok ==> Probed(sess.Since(|old(sess.log)|), path, w, h, batch)) && old(sess.log) <= sess.log
  {
    batch := BatchFor("", 0, 0, []);
    path, w, h := "", 0, 0;
    var r := sess.Make(Fetching(Metadata), GetContext);
    if r.NotOk? { return false, batch, path, w, h; }
    var source := r.path;
    ghost var fetched, first := sess.s, (GetContext, r);
    r := sess.Make(Extracting(source), Extract);
    TwoCalls(old(sess.log), first, (Extract, r));
    LeadsOn(sess.cfg, old(sess.s), fetched, sess.s);
    if r.NotOk? { return false, batch, path, w, h; }
    var ladder := ComputeLadder(r.height);
    return true, BatchFor(source, r.width, r.height, ladder), source, r.width, r.height;
  }

  /** UpdateVideoMetadata: the video is read, then written back as a whole. */
  method WriteMetadata(sess: Session, ghost batch: seq<Rendition>) returns (ok: bool)
    requires sess.Valid() && sess.At(ReadingForMetadata(batch))
    modifies sess
    ensures sess.Valid() && Leads(sess.cfg, old(sess.s), sess.s)
    ensures sess.At(if ok then Inserting(batch, 0) else Returned(false)) && old(sess.log) <= sess.log
  {
    var r := sess.Make(ReadingForMetadata(batch), ReadVideo);
    if r.NotOk? { return false; }
    var hls := r.hls;
    ghost var read := sess.s;
    ok := WriteBack(sess, batch, hls);
    LeadsOn(sess.cfg, old(sess.s), read, sess.s);
  }

  method WriteBack(sess: Session, ghost batch: seq<Rendition>, hls: string) returns (ok: bool)
    requires sess.Valid() && sess.At(WritingMetadata(batch, hls))
    modifies sess
    ensures sess.Valid() && Leads(sess.cfg, old(sess.s), sess.s)
    ensures sess.At(if ok then Inserting(batch, 0) else Returned(false)) && old(sess.log) <= sess.log
  {
    var r := sess.Make(WritingMetadata(batch, hls), WriteVideo(hls));
    return !r.NotOk?;
  }

  /** When it succeeds the rows of the video are whole, and they are the ones for the path and the dimensions that
      its own look-up and probe answered. */
  method ExtractMetadata(sess: Session) returns (ok: bool, ghost path: string, ghost w: int, ghost h: int)
    requires sess.Valid() && sess.At(Fetching(Metadata))
    modifies sess
    ensures sess.Valid() && Leads(sess.cfg, old(sess.s), sess.s) && sess.At(Returned(ok))
    ensures ok ==> Settled(sess.s.shared, Metadata) && RowsFor(sess.s.shared.media.rends, path, w, h)
    ensures ok ==> ProbedFirst(sess.Since(|old(sess.log)|), path, w, h, sess.s.shared.media.batch)
  {
    ghost var start, first := sess.s, sess.log;
    var batch;
    ok, batch, path, w, h := Probe(sess);
    if !ok { return false, path, w, h; }
    ghost var probed, log := sess.s, sess.log;
    ok := WriteMetadata(sess, batch);
    LeadsOn(sess.cfg, start, probed, sess.s);
    if !ok { return false, path, w, h; }
    ghost var written := sess.s;
    ok := InsertAndClose(sess, batch, path, w, h);
    LeadsOn(sess.cfg, start, written, sess.s);
    LogStays(first, log, sess.log);
  }

  lemma LogStays(first: Log, mid: Log, log: Log)
    requires first <= mid <= log
    ensures |mid| - |first| <= |log[|first|..]| && log[|first|..][..|mid| - |first|] == mid[|first|..]
  {
  }

  lemma WholeRows(cfg: Config, s: State, path: string, w: int, h: int)
    requires Reachable(cfg, s) && s.shared.media.batchClosed
    requires Begun(s.shared.media, BatchFor(path, w, h, LadderFor(h)))
    ensures RowsFor(s.shared.media.rends, path, w, h)
  {
    ReachableOk(cfg, s);
    var m := s.shared.media;
    assert m.batch[0] == BatchRow(path, w, h, LadderFor(h), 0) == BatchRow(s.shared.path, w, h, LadderFor(h), 0);
    RowsAreMeasured(m, s.shared.path);
  }

  method InsertAndClose(sess: Session, batch: seq<Rendition>, ghost path: string, ghost w: int, ghost h: int)
    returns (ok: bool)
    requires sess.Valid() && sess.At(Inserting(batch, 0)) && batch == BatchFor(path, w, h, LadderFor(h))
    modifies sess
    ensures sess.Valid() && Leads(sess.cfg, old(sess.s), sess.s) && sess.At(Returned(ok))
    ensures ok ==> Settled(sess.s.shared, Metadata) && RowsFor(sess.s.shared.media.rends, path, w, h)
    ensures (ok ==> sess.s.shared.media.batch == batch) && old(sess.log) <= sess.log
  {
    ok := InsertAll(sess, batch);
    if !ok { return false; }
    ghost var inserted := sess.s;
    ok := CloseAndReport(sess, Metadata);
    LeadsOn(sess.cfg, old(sess.s), inserted, sess.s);
    if ok {
      LeadsForward(sess.cfg, inserted, sess.s);
      WholeRows(sess.cfg, sess.s, path, w, h);
    }
  }

  method StoreMp4(sess: Session, pending: seq<Rendition>, k: nat) returns (ok: bool)
    requires sess.Valid() && k < |pending| && sess.At(PuttingMp4(pending, k))
    modifies sess
    ensures sess.Valid() && Leads(sess.cfg, old(sess.s), sess.s)
    ensures sess.At(if ok then Marking(pending, k) else Returned(false))
  {
    var r := sess.Make(PuttingMp4(pending, k), Put(Mp4Key(pending[k].resolution), Mp4(pending[k].height)));
    return !r.NotOk?;
  }

  method MarkRow(sess: Session, pending: seq<Rendition>, k: nat) returns (ok: bool)
    requires sess.Valid() && k < |pending| && sess.At(Marking(pending, k))
    modifies sess
    ensures sess.Valid() && Leads(sess.cfg, old(sess.s), sess.s)
    ensures sess.At(if !ok then Returned(false) else if k + 1 < |pending| then PuttingMp4(pending, k + 1)
              else Closing(Transcode))
  {
    var name := pending[k].resolution;
    var r := sess.Make(Marking(pending, k), MarkReady(name, KeyText(sess.vid, Mp4Key(name))));
    return !r.NotOk?;
  }

  /** One rendition: store the file, then mark the row. */
  method TranscodeOne(sess: Session, pending: seq<Rendition>, k: nat) returns (ok: bool)
    requires sess.Valid() && k < |pending| && sess.At(PuttingMp4(pending, k))
    modifies sess
    ensures sess.Valid() && Leads(sess.cfg, old(sess.s), sess.s)
    ensures sess.At(if !ok then Returned(false) else if k + 1 < |pending| then PuttingMp4(pending, k + 1)
              else Closing(Transcode))
  {
    ok := StoreMp4(sess, pending, k);
    if !ok { return false; }
    ghost var stored := sess.s;
    ok := MarkRow(sess, pending, k);
    LeadsOn(sess.cfg, old(sess.s), stored, sess.s);
  }

  /** The loop over the pending renditions. */
  method TranscodeAll(sess: Session, pending: seq<Rendition>) returns (ok: bool)
    requires sess.Valid() && pending != [] && sess.At(PuttingMp4(pending, 0))
    modifies sess
    ensures sess.Valid() && Leads(sess.cfg, old(sess.s), sess.s)
    ensures sess.At(if ok then Closing(Transcode) else Returned(false))
  {
    LeadsNowhere(sess.cfg, sess.s);
    var k := 0;
    while k < |pending|
      invariant 0 <= k <= |pending|
      invariant sess.Valid() && Leads(sess.cfg, old(sess.s), sess.s)
      invariant sess.At(if k < |pending| then PuttingMp4(pending, k) else Closing(Transcode))
    {
      ghost var before := sess.s;
      ok := TranscodeOne(sess, pending, k);
      LeadsOn(sess.cfg, old(sess.s), before, sess.s);
      if !ok { return false; }
      k := k + 1;
    }
    return true;
  }

  /** When it succeeds no rendition of the video is pending, and each but the source has its own file stored,
      encoded for the height it is named after. */
  method TranscodeVideo(sess: Session) returns (ok: bool)
    requires sess.Valid() && sess.At(Fetching(Transcode))
    modifies sess
    ensures sess.Valid() && Leads(sess.cfg, old(sess.s), sess.s) && sess.At(Returned(ok))
    ensures ok ==> Settled(sess.s.shared, Transcode) && PendingRows(sess.s.shared.media.rends) == {}
    ensures ok ==> FilesInPlace(sess.s.shared)
  {
    ghost var start := sess.s;
    var r := sess.Make(Fetching(Transcode), GetContext);
    if r.NotOk? { return false; }
    ghost var a := sess.s;
    r := sess.Make(ListingPending, ListRenditions(RendPending));
    LeadsOn(sess.cfg, start, a, sess.s);
    if r.NotOk? { return false; }
    if r.list != [] {
      ghost var b := sess.s;
      ok := TranscodeAll(sess, r.list);
      LeadsOn(sess.cfg, start, b, sess.s);
      if !ok { return false; }
    }
    ghost var c := sess.s;
    ok := CloseAndReport(sess, Transcode);
    LeadsOn(sess.cfg, start, c, sess.s);
    FilesAreStored(sess.cfg, sess.s);
  }

  /** Segment's loop passes over renditions without a path. */
  method SegmentAll(sess: Session, ready: seq<Rendition>) returns (ok: bool)
    requires sess.Valid() && ready != [] && sess.At(SegmentFrom(ready, 0))
    modifies sess
    ensures sess.Valid() && Leads(sess.cfg, old(sess.s), sess.s)
    ensures sess.At(if ok then Closing(Segment) else Returned(false))
  {
    LeadsNowhere(sess.cfg, sess.s);
    var k := 0;
    while k < |ready|
      invariant 0 <= k <= |ready|
      invariant sess.Valid() && Leads(sess.cfg, old(sess.s), sess.s)
      invariant sess.At(SegmentFrom(ready, k))
    {
      if ready[k].storagePath == None || ready[k].storagePath == Some("") {
        assert SegmentFrom(ready, k) == SegmentFrom(ready, k + 1);
        k := k + 1;
        continue;
      }
      assert SegmentFrom(ready, k) == Segmenting(ready, k);
      SegmentFromStays(ready, k + 1);
      ghost var before := sess.s;
      var r := sess.Make(Segmenting(ready, k), Put(VariantKey(ready[k].resolution),
          VariantPlaylist(ready[k].storagePath.value)));
      LeadsOn(sess.cfg, old(sess.s), before, sess.s);
      if r.NotOk? { return false; }
      k := k + 1;
    }
    return true;
  }

  /** When it succeeds every rendition of the video is ready and has its playlist, cut from its own file. */
  method SegmentVideo(sess: Session) returns (ok: bool)
    requires sess.Valid() && sess.At(Fetching(Segment))
    modifies sess
    ensures sess.Valid() && Leads(sess.cfg, old(sess.s), sess.s) && sess.At(Returned(ok))
    ensures ok ==> Settled(sess.s.shared, Segment) && PlaylistsInPlace(sess.s.shared)
  {
    ghost var start := sess.s;
    var r := sess.Make(Fetching(Segment), GetContext);
    if r.NotOk? { return false; }
    ghost var a := sess.s;
    r := sess.Make(ListingToSegment, ListRenditions(RendReady));
    LeadsOn(sess.cfg, start, a, sess.s);
    if r.NotOk? { return false; }
    if r.list != [] {
      SegmentFromStays(r.list, 0);
      ghost var b := sess.s;
      ok := SegmentAll(sess, r.list);
      LeadsOn(sess.cfg, start, b, sess.s);
      if !ok { return false; }
    }
    ghost var c := sess.s;
    ok := CloseAndReport(sess, Segment);
    LeadsOn(sess.cfg, start, c, sess.s);
    if ok { SegmentedMeansCut(sess.cfg, sess.s); }
  }

  lemma SegmentedMeansCut(cfg: Config, s: State)
    requires Reachable(cfg, s) && AllSegmented(s.shared.media)
    ensures PlaylistsInPlace(s.shared)
  {
    ReachableOk(cfg, s);
    PlaylistsFollow(s.shared);
  }

  /** When it succeeds reading the stored master gives one variant for every rendition of the video, each of them
      ready, and no other. The text it stored was built from the very listing it was given, and its last calls
      were the write of the playback path and then the close of its row. */
  method PublishVideo(sess: Session) returns (ok: bool)
    requires sess.Valid() && sess.At(Fetching(Publish))
    modifies sess
    ensures sess.Valid() && Leads(sess.cfg, old(sess.s), sess.s) && sess.At(Returned(ok))
    ensures ok ==> Settled(sess.s.shared, Publish) && MasterComplete(sess.s.shared.media)
    ensures ok ==> PublishLog(sess.Since(|old(sess.log)|), sess.vid)
  {
    ghost var start, first := sess.s, sess.log;
    var ready, text;
    ok, ready, text := ListAndBuild(sess);
    if !ok { return false; }
    ghost var built, log := sess.s, sess.log;
    ok := StoreAndPoint(sess, ready, text);
    LeadsOn(sess.cfg, start, built, sess.s);
    if ok {
      MasterBetween(first, log, sess.log);
    }
  }

  method StoreAndPoint(sess: Session, ready: seq<Rendition>, text: string) returns (ok: bool)
    requires sess.Valid() && sess.At(PuttingMaster(ready)) && text == MasterText(Names(ready))
    modifies sess
    ensures sess.Valid() && Leads(sess.cfg, old(sess.s), sess.s) && sess.At(Returned(ok))
    ensures ok ==> Settled(sess.s.shared, Publish) && MasterComplete(sess.s.shared.media) && old(sess.log) <= sess.log
    ensures ok ==> var log := sess.Since(|old(sess.log)|);
                |log| > 1 && log[0] == (PutMaster(text, ready), Fine) && Pointed(log[1..], sess.vid, true)
  {
    ok := UploadMaster(sess, ready, text);
    if !ok { return false; }
    ghost var stored := sess.s;
    ok := PointAndClose(sess);
    LeadsOn(sess.cfg, old(sess.s), stored, sess.s);
    if ok {
      PublishedSettles(sess.s.shared);
      FirstAndRest(old(sess.log), (PutMaster(text, ready), Fine), sess.log);
    }
  }

  lemma PublishedSettles(sh: Shared)
    requires Settled(sh, Publish)
    ensures MasterComplete(sh.media)
  {
    PublishedIsComplete(sh.media);
  }

  /** The calls of a publish that succeeds: the ready renditions listed, the text built from that listing stored,
      the video pointed to it, the row closed. */
  predicate PublishLog(log: Log, vid: string) {
    && |log| > 3 && log[0].0 == GetContext
    && log[1].0 == ListRenditions(RendReady) && log[1].1.Rows?
    && var ready := log[1].1.list;
       && ready != [] && log[2] == (PutMaster(MasterText(Names(ready)), ready), Fine)
       && Pointed(log[3..], vid, true)
  }

  lemma MasterBetween(first: Log, listed: Log, log: Log)
    requires first <= listed <= log && |listed| == |first| + 2
    ensures log[|first|..] == listed[|first|..] + log[|listed|..]
    ensures |log| > |listed| ==> log[|first|..][3..] == log[|listed|..][1..]
  {
  }

  method ListAndBuild(sess: Session) returns (ok: bool, ready: seq<Rendition>, text: string)
    requires sess.Valid() && sess.At(Fetching(Publish))
    modifies sess
    ensures sess.Valid() && Leads(sess.cfg, old(sess.s), sess.s)
    ensures sess.At(if ok then PuttingMaster(ready) else Returned(false)) && text == MasterText(Names(ready))
    ensures ok ==> var log := sess.Since(|old(sess.log)|);
              && ready != [] && |log| == 2 && log[0].0 == GetContext
              && log[1] == (ListRenditions(RendReady), Rows(ready))
    ensures old(sess.log) <= sess.log
  {
    ready := [];
    text := BuildMaster([]);
    assert Names(ready) == [];
    var r := sess.Make(Fetching(Publish), GetContext);
    if r.NotOk? { return false, ready, text; }
    ghost var fetched, first := sess.s, (GetContext, r);
    r := sess.Make(ListingToPublish, ListRenditions(RendReady));
    LeadsOn(sess.cfg, old(sess.s), fetched, sess.s);
    TwoCalls(old(sess.log), first, (ListRenditions(RendReady), r));
    if r.NotOk? || r.list == [] { return false, ready, text; }
    ready := r.list;
    text := BuildMaster(Names(ready));
    return true, ready, text;
  }

  /** The last calls of a publish that succeeds: the video read, the master's key written to it, and then the
      row closed. */
  predicate Pointed(log: Log, vid: string, ok: bool) {
    && |log| > 2 && log[0].0 == ReadVideo
    && log[1] == (WriteVideo(KeyText(vid, MasterKey)), Fine)
    && CloseLog(log[2..], Publish, ok)
  }

  method PointAndClose(sess: Session) returns (ok: bool)
    requires sess.Valid() && sess.At(ReadingForPlayback)
    modifies sess
    ensures sess.Valid() && Leads(sess.cfg, old(sess.s), sess.s) && sess.At(Returned(ok))
    ensures ok ==> Settled(sess.s.shared, Publish) && old(sess.log) <= sess.log
    ensures ok ==> Pointed(sess.Since(|old(sess.log)|), sess.vid, ok)
  {
    ok := PointPlayback(sess);
    if !ok { return false; }
    ghost var pointed, log := sess.s, sess.log;
    ok := CloseAndReport(sess, Publish);
    LeadsOn(sess.cfg, old(sess.s), pointed, sess.s);
    LaterCalls(old(sess.log), log, sess.log);
  }

  lemma LaterCalls(a: Log, b: Log, c: Log)
    requires a <= b <= c
    ensures c[|a|..] == b[|a|..] + c[|b|..]
    ensures c[|a|..][|b| - |a|..] == c[|b|..]
  {
  }

  /** UpdateVideoPlayback: the video is read, then written back with the master's key. */
  method PointPlayback(sess: Session) returns (ok: bool)
    requires sess.Valid() && sess.At(ReadingForPlayback)
    modifies sess
    ensures sess.Valid() && Leads(sess.cfg, old(sess.s), sess.s)
    ensures sess.At(if ok then Closing(Publish) else Returned(false)) && old(sess.log) <= sess.log
    ensures ok ==> var log := sess.Since(|old(sess.log)|);
              |log| == 2 && log[0].0 == ReadVideo && log[1] == (WriteVideo(KeyText(sess.vid, MasterKey)), Fine)
  {
    var r := sess.Make(ReadingForPlayback, ReadVideo);
    if r.NotOk? { return false; }
    ghost var read, first := sess.s, (ReadVideo, r);
    r := sess.Make(WritingPlayback, WriteVideo(KeyText(sess.vid, MasterKey)));
    TwoCalls(old(sess.log), first, (WriteVideo(KeyText(sess.vid, MasterKey)), r));
    LeadsOn(sess.cfg, old(sess.s), read, sess.s);
    return !r.NotOk?;
  }

  /** The store call takes the built text; the list it was built from goes along as history. */
  method UploadMaster(sess: Session, ready: seq<Rendition>, text: string) returns (ok: bool)
    requires sess.Valid() && sess.At(PuttingMaster(ready)) && text == MasterText(Names(ready))
    modifies sess
    ensures sess.Valid() && Leads(sess.cfg, old(sess.s), sess.s)
    ensures sess.At(if ok then ReadingForPlayback else Returned(false))
    ensures ok ==> sess.log == old(sess.log) + [(PutMaster(text, ready), Fine)]
  {
    var r := sess.Make(PuttingMaster(ready), PutMaster(text, ready));
    return !r.NotOk?;
  }

  /** The calls of a failure report: the row's update; for publish the upload marked failed, whatever became
      of the row; and the failed result exactly when the update applied. */
  predicate FailLog(log: Log, st: StepName, reported: bool) {
    && |log| == 1 + (if st.Publish? then 1 else 0) + (if reported then 1 else 0)
    && log[0].0 == UpdateStep(st, Failed) && (reported <==> log[0].1 == Outcome(true))
    && (st.Publish? ==> log[1].0 == SetUpload(UploadFailed))
    && (reported ==> log[|log| - 1].0 == SendResult(st, Failed))
  }

  /** ReportFailed of the workers: fail the row, and only if that applied publish the failed result; publish
      alone marks the upload failed in either case. Whenever a report goes out the row is failed; a row that was
      done when the report began is never reported. */
  method ReportFailed(sess: Session, st: StepName) returns (reported: bool)
    requires sess.Valid() && sess.At(Failing(st)) && PipelineStep(st)
    modifies sess
    ensures sess.Valid() && Leads(sess.cfg, old(sess.s), sess.s) && sess.Left()
    ensures reported ==> Is(sess.s.shared.rows, st, Failed)
    ensures Is(old(sess.s.shared.rows), st, Done) ==> !reported
    ensures FailLog(sess.Since(|old(sess.log)|), st, reported) && old(sess.log) <= sess.log
  {
    if st.Publish? {
      reported := ReportPublishFailed(sess);
    } else {
      reported := ReportOtherFailed(sess, st);
    }
  }

  lemma OtherFailLog(st: StepName, r: Resp)
    requires !st.Publish?
    ensures r != Outcome(true) ==> FailLog([(UpdateStep(st, Failed), r)], st, false)
    ensures r == Outcome(true) ==>
              forall sent :: FailLog([(UpdateStep(st, Failed), r), (SendResult(st, Failed), sent)], st, true)
  {
  }

  method ReportOtherFailed(sess: Session, st: StepName) returns (reported: bool)
    requires sess.Valid() && sess.At(Failing(st)) && PipelineStep(st) && !st.Publish?
    modifies sess
    ensures sess.Valid() && Leads(sess.cfg, old(sess.s), sess.s) && sess.Left()
    ensures reported ==> Is(sess.s.shared.rows, st, Failed)
    ensures Is(old(sess.s.shared.rows), st, Done) ==> !reported
    ensures FailLog(sess.Since(|old(sess.log)|), st, reported) && old(sess.log) <= sess.log
  {
    ghost var first, r1 := sess.log, Fine;
    reported, r1 := FailRow(sess, st);
    OneCall(first, (UpdateStep(st, Failed), r1));
    OtherFailLog(st, r1);
    if reported {
      ghost var marked := sess.s;
      ReportMarked(sess, st, first, r1);
      LeadsOn(sess.cfg, old(sess.s), marked, sess.s);
    }
  }

  method ReportMarked(sess: Session, st: StepName, ghost first: Log, ghost r: Resp)
    requires sess.Valid() && sess.At(ReportingFailed(st)) && PipelineStep(st) && !st.Publish?
    requires sess.log == first + [(UpdateStep(st, Failed), r)] && r == Outcome(true)
    modifies sess
    ensures sess.Valid() && Leads(sess.cfg, old(sess.s), sess.s) && sess.Left()
    ensures Is(sess.s.shared.rows, st, Failed)
    ensures FailLog(sess.Since(|first|), st, true) && first <= sess.log
  {
    ghost var sent := SendFailedResult(sess, st);
    TwoCalls(first, (UpdateStep(st, Failed), r), (SendResult(st, Failed), sent));
    OtherFailLog(st, r);
  }

  method ReportPublishFailed(sess: Session) returns (reported: bool)
    requires sess.Valid() && sess.At(Failing(Publish))
    modifies sess
    ensures sess.Valid() && Leads(sess.cfg, old(sess.s), sess.s) && sess.Left()
    ensures reported ==> Is(sess.s.shared.rows, Publish, Failed)
    ensures Is(old(sess.s.shared.rows), Publish, Done) ==> !reported
    ensures FailLog(sess.Since(|old(sess.log)|), Publish, reported) && old(sess.log) <= sess.log
  {
    ghost var r1, r2, r3;
    reported, r1, r2 := FailRowAndUpload(sess);
    TwoCalls(old(sess.log), (UpdateStep(Publish, Failed), r1), (SetUpload(UploadFailed), r2));
    if !reported {
      return;
    }
    ghost var marked := sess.s;
    r3 := SendFailedResult(sess, Publish);
    ThreeCalls(old(sess.log), (UpdateStep(Publish, Failed), r1), (SetUpload(UploadFailed), r2),
               (SendResult(Publish, Failed), r3));
    LeadsOn(sess.cfg, old(sess.s), marked, sess.s);
  }

  method FailRowAndUpload(sess: Session) returns (applied: bool, ghost r1: Resp, ghost r2: Resp)
    requires sess.Valid() && sess.At(Failing(Publish))
    modifies sess
    ensures sess.Valid() && Leads(sess.cfg, old(sess.s), sess.s)
    ensures if applied then sess.At(ReportingFailed(Publish)) else sess.Left()
    ensures Is(old(sess.s.shared.rows), Publish, Done) ==> !applied
    ensures sess.log == old(sess.log) + [(UpdateStep(Publish, Failed), r1)] + [(SetUpload(UploadFailed), r2)]
    ensures applied <==> r1 == Outcome(true)
  {
    applied, r1 := FailRow(sess, Publish);
    ghost var failed := sess.s;
    r2 := FailUpload(sess, applied);
    LeadsOn(sess.cfg, old(sess.s), failed, sess.s);
  }

  lemma ThreeCalls(log: Log, a: (Call, Resp), b: (Call, Resp), c: (Call, Resp))
    ensures (log + [a] + [b] + [c])[|log|..] == [a, b, c]
  {
  }

  /** Where a failure report goes on after the row update. */
  function AfterFailing(st: StepName, applied: bool): Pc {
    if st.Publish? then FailingUpload(applied) else if applied then ReportingFailed(st) else Gone
  }

  method FailRow(sess: Session, st: StepName) returns (applied: bool, ghost r: Resp)
    requires sess.Valid() && sess.At(Failing(st)) && PipelineStep(st)
    modifies sess
    ensures sess.Valid() && Leads(sess.cfg, old(sess.s), sess.s)
    ensures if AfterFailing(st, applied).Gone? then sess.Left() else sess.At(AfterFailing(st, applied))
    ensures Is(old(sess.s.shared.rows), st, Done) ==> !applied
    ensures sess.log == old(sess.log) + [(UpdateStep(st, Failed), r)] && (applied <==> r == Outcome(true))
  {
    var answer := sess.Make(Failing(st), UpdateStep(st, Failed));
    return answer == Outcome(true), answer;
  }

  method FailUpload(sess: Session, applied: bool) returns (ghost r: Resp)
    requires sess.Valid() && sess.At(FailingUpload(applied))
    modifies sess
    ensures sess.Valid() && Leads(sess.cfg, old(sess.s), sess.s)
    ensures if applied then sess.At(ReportingFailed(Publish)) else sess.Left()
    ensures sess.log == old(sess.log) + [(SetUpload(UploadFailed), r)]
  {
    r := sess.Make(FailingUpload(applied), SetUpload(UploadFailed));
  }

  method SendFailedResult(sess: Session, st: StepName) returns (ghost r: Resp)
    requires sess.Valid() && sess.At(ReportingFailed(st))
    modifies sess
    ensures sess.Valid() && Leads(sess.cfg, old(sess.s), sess.s) && sess.Left()
    ensures Is(sess.s.shared.rows, st, Failed)
    ensures sess.log == old(sess.log) + [(SendResult(st, Failed), r)]
  {
    ReportingMeansFailed(sess.cfg, sess.s, sess.me, st);
    r := sess.Make(ReportingFailed(st), SendResult(st, Failed));
  }

  lemma ReportingMeansFailed(cfg: Config, s: State, me: nat, st: StepName)
    requires Reachable(cfg, s) && me in s.items && s.items[me].Hand? && s.items[me].pc == ReportingFailed(st)
    ensures Is(s.shared.rows, st, Failed)
  {
    ReachableOk(cfg, s);
    assert ItemOk(cfg, s.shared, me, s.items[me]);
  }

  method RunStep(sess: Session, st: StepName) returns (ok: bool)
    requires sess.Valid() && PipelineStep(st) && sess.At(Fetching(st))
    modifies sess
    ensures sess.Valid() && Leads(sess.cfg, old(sess.s), sess.s) && sess.At(Returned(ok))
    ensures ok ==> Settled(sess.s.shared, st)
  {
    match st {
      case Thumbnail => ok := GenerateThumbnail(sess);
      case Metadata =>
        ghost var path, w, h;
        ok, path, w, h := ExtractMetadata(sess);
      case Transcode => ok := TranscodeVideo(sess);
      case Segment => ok := SegmentVideo(sess);
      case Publish => ok := PublishVideo(sess);
    }
  }

  /** One turn of a worker's consume loop on a readable message: work, then ack; or retry, and after the last
      retry report the failure. The trigger is acked as handled only with its work finished and its row
      terminal. From the `done`-th call on come the ack or the retry, from the `dead`-th on the report. */
  method ConsumeTrigger(sess: Session, st: StepName)
      returns (ok: bool, exhausted: bool, ghost done: nat, ghost dead: nat)
    requires sess.Valid() && PipelineStep(st) && sess.msg == TriggerMsg(st) && sess.At(InitialPc(sess.msg))
    modifies sess
    ensures sess.Valid() && Leads(sess.cfg, old(sess.s), sess.s) && sess.Left()
    ensures ok ==> !exhausted && Settled(sess.s.shared, st)
    ensures done <= dead <= |sess.log|
    ensures if ok then dead == |sess.log| && DisposalLog(sess.log[done..dead], true,
              RetriesLeft(sess.retries, sess.cfg))
            else RetryLog(sess.log[done..dead], RetriesLeft(sess.retries, sess.cfg), exhausted)
    ensures if exhausted then exists reported :: FailLog(sess.Since(dead), st, reported) else dead == |sess.log|
  {
    exhausted := false;
    ok := RunStep(sess, st);
    ghost var worked := sess.s;
    done := |sess.log|;
    if ok {
      dead := AcknowledgeWork(sess, st);
    } else {
      exhausted, dead := RetryOrReport(sess, st);
    }
    LeadsOn(sess.cfg, old(sess.s), worked, sess.s);
  }

  /** A failed attempt: retry it, and when its retries are used up report the failure. */
  method RetryOrReport(sess: Session, st: StepName) returns (exhausted: bool, ghost dead: nat)
    requires sess.Valid() && PipelineStep(st) && sess.msg == TriggerMsg(st) && sess.At(Returned(false))
    modifies sess
    ensures sess.Valid() && Leads(sess.cfg, old(sess.s), sess.s) && sess.Left()
    ensures |old(sess.log)| <= dead <= |sess.log|
    ensures RetryLog(sess.log[|old(sess.log)|..dead], RetriesLeft(sess.retries, sess.cfg), exhausted)
    ensures if exhausted then exists reported :: FailLog(sess.Since(dead), st, reported) else dead == |sess.log|
  {
    exhausted := HandleRetry(sess);
    dead := |sess.log|;
    ghost var buried, log := sess.s, sess.log;
    assert log[|old(sess.log)|..dead] == sess.Since(|old(sess.log)|);
    if exhausted {
      var reported := ReportFailed(sess, st);
      LeadsOn(sess.cfg, old(sess.s), buried, sess.s);
      SliceStays(log, sess.log, |old(sess.log)|);
      assert FailLog(sess.Since(dead), st, reported);
    }
  }

  lemma SliceStays(a: Log, b: Log, n: nat)
    requires a <= b && n <= |a|
    ensures b[n..|a|] == a[n..]
  {
  }

  method AcknowledgeWork(sess: Session, ghost st: StepName) returns (ghost dead: nat)
    requires sess.Valid() && sess.At(Returned(true)) && PipelineStep(st) && Settled(sess.s.shared, st)
    modifies sess
    ensures sess.Valid() && Leads(sess.cfg, old(sess.s), sess.s) && sess.Left()
    ensures Settled(sess.s.shared, st)
    ensures |old(sess.log)| <= dead == |sess.log|
    ensures DisposalLog(sess.log[|old(sess.log)|..dead], true, RetriesLeft(sess.retries, sess.cfg))
  {
    Acknowledge(sess, Returned(true));
    StaysSettled(sess.cfg, old(sess.s.shared), sess.s, st);
    dead := |sess.log|;
    assert sess.log[|old(sess.log)|..dead] == sess.Since(|old(sess.log)|);
  }

  lemma StaysSettled(cfg: Config, a: Shared, s: State, st: StepName)
    requires Reachable(cfg, s) && Settled(a, st) && Forward(a, s.shared) && PipelineStep(st)
    ensures Settled(s.shared, st)
  {
    ReachableOk(cfg, s);
    SettledStays(a, s.shared, st);
  }
}
