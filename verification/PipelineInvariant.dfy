/** What every reachable state of the pipeline keeps, in the style of Owicki and Gries: facts about the
    tables, a fact for every program counter, and the proof that no step of one hand disturbs another's. */
module PipelineInvariant {
  import opened Basics
  import opened StepTable
  import opened Renditions
  import opened Playlist
  import opened Pipeline

  // ---------------------------------------------------------------- facts about the tables

  type StepRows = map<StepName, Status>

  predicate AllRows(rows: StepRows) {
    Thumbnail in rows && Metadata in rows && Transcode in rows && Segment in rows && Publish in rows
  }

  predicate Is(rows: StepRows, st: StepName, status: Status) {
    st in rows && rows[st] == status
  }

  predicate PredecessorDone(rows: StepRows, st: StepName) {
    match st
    case Transcode => Is(rows, Metadata, Done)
    case Segment => Is(rows, Transcode, Done)
    case Publish => Is(rows, Segment, Done)
    case _ => true
  }

  predicate Started(rows: StepRows, st: StepName) {
    st in rows && (rows[st].Processing? || rows[st].Done? || rows[st].Failed?)
  }

  /** What holds once a trigger for `st` exists. */
  predicate Triggered(rows: StepRows, st: StepName) {
    AllRows(rows) && st in rows && !rows[st].Pending? && PredecessorDone(rows, st)
  }

  predicate RowsOk(rows: StepRows) {
    && (forall st <- rows :: !st.OtherStep? && !rows[st].OtherStatus?)
    && (forall st <- rows :: !rows[st].Pending? ==> AllRows(rows))
    && (forall st <- rows :: Started(rows, st) ==> PredecessorDone(rows, st))
  }

  /** No step row before finalize; the start event and the storage path appear together. */
  predicate StartOk(vid: string, path: string, startEvents: nat, rows: StepRows) {
    && startEvents <= 1
    && (path == "" <==> startEvents == 0)
    && (path != "" ==> path == KeyText(vid, OriginalKey))
    && (path == "" ==> rows == map[])
  }

  predicate CountsOk(rows: StepRows, upStatus: UploadStatus, h: History) {
    && (forall st <- h.moves :: st in rows && h.moves[st] <= Rank(rows[st]))
    && (forall st <- h.triggeredBy :: st in rows && !rows[st].Pending?)
    && (forall st <- h.triggerCalls :: st in h.triggeredBy && h.triggerCalls[st] <= 1)
    && (forall st <- h.closedBy :: Is(rows, st, Done))
    && h.finishedWrites <= 1
    && (h.finishedWrites > 0 ==> Publish in h.closedBy)
    && (upStatus.UploadFinished? ==> h.finishedWrites > 0)
    && (upStatus.UploadFailed? ==> h.failedWrites > 0)
  }

  /** Rows a batch may consist of: the source first, the others named after their heights, names pairwise
      different and fit for the playlist. */
  predicate FitBatch(batch: seq<Rendition>) {
    && batch != [] && batch[0].resolution == ORIGINAL && Distinct(Names(batch))
    && (forall n <- Names(batch) :: QualifiedName(n))
    && (forall k :: 0 < k < |batch| ==> Named(batch[k]))
  }

  predicate BatchOk(m: Media) {
    && (m.batchBy.None? <==> m.rends == [])
    && (m.batchBy.None? ==> !m.batchClosed)
    && (m.batchBy.Some? ==> FitBatch(m.batch) && |m.rends| <= |m.batch|)
    && (m.batchBy.Some? ==> forall k :: 0 <= k < |m.rends| ==> m.rends[k].resolution == m.batch[k].resolution)
    && (m.batchClosed ==> |m.rends| == |m.batch|)
  }

  /** The batch that belongs to the dimensions in its first row. */
  predicate MeasuredBatch(path: string, batch: seq<Rendition>) {
    && batch != [] && batch[0].width.Some? && batch[0].height.Some?
    && var w, h := batch[0].width.value, batch[0].height.value; batch == BatchFor(path, w, h, LadderFor(h))
  }

  /** The source's row, and every row that is still pending, are as they were inserted. */
  predicate AsInserted(rends: seq<Rendition>, batch: seq<Rendition>) {
    && |rends| <= |batch| && (rends != [] ==> rends[0] == batch[0])
    && (forall k :: 0 <= k < |rends| && rends[k].status == RendPending ==> rends[k] == batch[k])
  }

  predicate MeasuredOk(path: string, m: Media) {
    m.batchBy.Some? ==> MeasuredBatch(path, m.batch) && AsInserted(m.rends, m.batch)
  }

  /** The object a ready rendition's playlist is cut from. */
  function Source(vid: string, path: string, k: nat, resolution: string): string {
    if k == 0 then path else KeyText(vid, Mp4Key(resolution))
  }

  predicate RendsOk(vid: string, path: string, rends: seq<Rendition>) {
    && (rends != [] ==> path != "" && rends[0].status == RendReady)
    && (forall k :: 0 <= k < |rends| && rends[k].status == RendReady ==>
          rends[k].storagePath == Some(Source(vid, path, k, rends[k].resolution)))
  }

  predicate AllReady(rends: seq<Rendition>) {
    forall k :: 0 <= k < |rends| ==> rends[k].status == RendReady
  }

  predicate AllSegmented(m: Media) {
    forall k :: 0 <= k < |m.rends| ==> VariantKey(m.rends[k].resolution) in m.objects
  }

  /** The file of every ready rendition but the source is stored under its own name. */
  predicate FilesStored(rends: seq<Rendition>, objects: map<Key, Object>) {
    forall k :: 0 < k < |rends| && rends[k].status == RendReady ==> Mp4Key(rends[k].resolution) in objects
  }

  /** What belongs under a key; a rendition's file is encoded for the height it is named after. */
  predicate Belongs(key: Key, content: Object) {
    match key
    case OriginalKey => false
    case ThumbnailKey => content.Image?
    case Mp4Key(resolution) =>
      content.Mp4? && content.height.Some? && ResolutionName(content.height.value) == resolution
    case VariantKey(_) => content.VariantPlaylist?
    case MasterKey => content.MasterPlaylist?
  }

  predicate ObjectsOk(objects: map<Key, Object>) {
    forall key <- objects :: Belongs(key, objects[key])
  }

  /** Every rendition once and nothing else, highest first as listed, fit for the playlist and segmented. */
  predicate ListsAll(rends: seq<Rendition>, objects: map<Key, Object>, list: seq<Rendition>) {
    && list != [] && Ordered(list) && Distinct(Names(list))
    && (forall j :: 0 <= j < |list| ==>
          QualifiedName(list[j].resolution) && VariantKey(list[j].resolution) in objects
          && HasName(rends, list[j].resolution))
    && (forall i :: 0 <= i < |rends| ==> Mentions(list, 0, rends[i].resolution))
  }

  /** The stored master was built for the whole video. */
  predicate Published(m: Media) {
    && MasterKey in m.objects && m.batchClosed && AllReady(m.rends)
    && m.objects[MasterKey] == MasterPlaylist(MasterText(Names(m.master)))
    && ListsAll(m.rends, m.objects, m.master)
  }

  predicate MasterOk(m: Media) {
    MasterKey in m.objects ==> Published(m)
  }

  /** What the finished work of a step has left behind. */
  predicate WorkDone(m: Media, st: StepName) {
    match st
    case Thumbnail => ThumbnailKey in m.objects
    case Metadata => m.batchClosed
    case Transcode => m.batchClosed && AllReady(m.rends) && FilesStored(m.rends, m.objects)
    case Segment => m.batchClosed && AllReady(m.rends) && AllSegmented(m)
    case Publish => Published(m)
    case OtherStep(_) => true
  }

  predicate WorkOk(rows: StepRows, m: Media) {
    forall st <- rows :: rows[st].Done? ==> WorkDone(m, st)
  }

  /** A ready rendition of that name and path. */
  predicate ReadySource(rends: seq<Rendition>, resolution: string, source: string) {
    exists k :: 0 <= k < |rends| && rends[k].resolution == resolution
                && rends[k].status == RendReady && rends[k].storagePath == Some(source)
  }

  predicate VariantsOk(rends: seq<Rendition>, objects: map<Key, Object>) {
    forall key <- objects :: key.VariantKey? ==>
      objects[key].VariantPlaylist? && ReadySource(rends, key.resolution, objects[key].source)
  }

  predicate PlaybackOk(vid: string, objects: map<Key, Object>, hls: string) {
    hls == "" || (hls == KeyText(vid, MasterKey) && MasterKey in objects)
  }

  predicate ReportOk(cfg: Config, rows: StepRows, m: Media, st: StepName, status: Status) {
    && Triggered(rows, st)
    && (status.Done? || status.Failed?)
    && (status.Done? ==> WorkDone(m, st) && (cfg.shipped ==> Is(rows, st, Done)))
    && (status.Failed? ==> Is(rows, st, Failed))
  }

  predicate ReportsOk(cfg: Config, rows: StepRows, m: Media, reported: set<(StepName, Status)>) {
    forall r <- reported :: ReportOk(cfg, rows, m, r.0, r.1)
  }

  predicate MediaOk(vid: string, path: string, m: Media) {
    && BatchOk(m) && RendsOk(vid, path, m.rends) && MeasuredOk(path, m)
    && ObjectsOk(m.objects) && FilesStored(m.rends, m.objects) && VariantsOk(m.rends, m.objects) && MasterOk(m)
  }

  predicate SharedInv(cfg: Config, sh: Shared) {
    match sh
    case Shared(vid, path, upStatus, _, _, startEvents, rows, media, hls, hist) =>
      && RowsOk(rows)
      && StartOk(vid, path, startEvents, rows)
      && CountsOk(rows, upStatus, hist)
      && MediaOk(vid, path, media)
      && WorkOk(rows, media)
      && PlaybackOk(vid, media.objects, hls)
      && ReportsOk(cfg, rows, media, hist.reported)
  }

  // ---------------------------------------------------------------- facts about messages and hands

  predicate MsgOk(cfg: Config, sh: Shared, msg: Msg) {
    match msg
    case StartMsg => sh.path != ""
    case TriggerMsg(st) => Triggered(sh.rows, st)
    case ResultMsg(st, status) => ReportOk(cfg, sh.rows, sh.media, st, status)
  }

  predicate RowsUpTo(rows: StepRows, k: nat) {
    forall j :: 0 <= j < k && j < |PIPELINE_STEPS| ==> PIPELINE_STEPS[j] in rows
  }

  predicate TerminalUpTo(rows: StepRows, k: nat) {
    forall j :: 0 <= j < k && j < |PIPELINE_STEPS| ==> PIPELINE_STEPS[j] in rows && Terminal(rows[PIPELINE_STEPS[j]])
  }

  /** This hand applied the processing update and has not published the trigger yet. */
  predicate MayTrigger(h: History, me: nat, st: StepName) {
    st in h.triggeredBy && h.triggeredBy[st] == me && st !in h.triggerCalls
  }

  predicate MayFinish(h: History, me: nat) {
    Publish in h.closedBy && h.closedBy[Publish] == me && h.finishedWrites == 0
  }

  predicate GoodBatch(path: string, batch: seq<Rendition>) {
    && FitBatch(batch) && MeasuredBatch(path, batch)
    && batch[0].status == RendReady && batch[0].storagePath == Some(path)
    && (forall k :: 0 < k < |batch| ==> batch[k].status == RendPending)
  }

  /** The hand that inserted `original` is at row k. */
  predicate OwnsBatch(m: Media, me: nat, batch: seq<Rendition>, k: nat) {
    m.batchBy == Some(me) && !m.batchClosed && |m.rends| == k && m.batch == batch
  }

  predicate Mentions(list: seq<Rendition>, k: nat, resolution: string) {
    exists j :: k <= j < |list| && list[j].resolution == resolution
  }

  /** Every pending rendition is among the list from k on; no list entry is the source, and each is named after
      the height it asks for. */
  predicate CoversPending(rends: seq<Rendition>, list: seq<Rendition>, k: nat) {
    && (forall j :: 0 <= j < |list| ==>
          list[j].resolution != ORIGINAL && Named(list[j]) && HasName(rends, list[j].resolution))
    && (forall i :: 0 <= i < |rends| && rends[i].status == RendPending ==> Mentions(list, k, rends[i].resolution))
  }

  /** The list is the ready set, and its first k entries are segmented. */
  predicate CoversReady(m: Media, list: seq<Rendition>, k: nat) {
    && (forall j :: 0 <= j < |list| ==>
          list[j].storagePath.Some? && list[j].storagePath.value != ""
          && ReadySource(m.rends, list[j].resolution, list[j].storagePath.value))
    && (forall i :: 0 <= i < |m.rends| ==> Mentions(list, 0, m.rends[i].resolution))
    && (forall j :: 0 <= j < k && j < |list| ==> VariantKey(list[j].resolution) in m.objects)
  }

  predicate OrchestratorPc(pc: Pc) {
    pc.Creating? || pc.Triggering? || pc.Sending? || pc.MarkingFailed? || pc.Canceling? || pc.AllCanceled?
    || pc.Advancing? || pc.TriggeringNext? || pc.SendingNext? || pc.Finishing?
  }

  predicate OrchestratorPcOk(rows: StepRows, h: History, me: nat, msg: Msg, pc: Pc) {
    match pc
    case Creating(k) => msg.StartMsg? && RowsUpTo(rows, k) && k < |PIPELINE_STEPS|
    case Triggering(k) => msg.StartMsg? && AllRows(rows) && k < |INITIAL_STEPS|
    case Sending(k) =>
      && msg.StartMsg? && k < |INITIAL_STEPS|
      && Triggered(rows, INITIAL_STEPS[k]) && MayTrigger(h, me, INITIAL_STEPS[k])
    case MarkingFailed => msg.ResultMsg? && msg.status.Failed? && AllRows(rows)
    case Canceling(k, clean) =>
      && msg.ResultMsg? && msg.status.Failed? && AllRows(rows) && k < |PIPELINE_STEPS|
      && (clean ==> TerminalUpTo(rows, k)) && h.failedWrites > 0
    case AllCanceled(clean) =>
      && msg.ResultMsg? && msg.status.Failed? && AllRows(rows) && (clean ==> TerminalUpTo(rows, |PIPELINE_STEPS|))
      && h.failedWrites > 0
    case Advancing(st) => msg == ResultMsg(st, Done)
    case TriggeringNext(st) => msg.ResultMsg? && AllRows(rows) && !st.OtherStep? && PredecessorDone(rows, st)
    case SendingNext(st) => msg.ResultMsg? && Triggered(rows, st) && MayTrigger(h, me, st)
    case Finishing => msg.ResultMsg? && MayFinish(h, me)
    case _ => true
  }

  predicate WorkerPcOk(cfg: Config, sh: Shared, me: nat, msg: Msg, pc: Pc) {
    match pc
    case Fetching(st) => msg == TriggerMsg(st)
    case PuttingThumbnail => msg == TriggerMsg(Thumbnail)
    case ReadingForThumbnail => msg == TriggerMsg(Thumbnail) && ThumbnailKey in sh.media.objects
    case WritingThumbnail(hls) =>
      msg == TriggerMsg(Thumbnail) && ThumbnailKey in sh.media.objects && PlaybackOk(sh.vid, sh.media.objects, hls)
    case Extracting(path) => msg == TriggerMsg(Metadata) && path == sh.path
    case ReadingForMetadata(batch) => msg == TriggerMsg(Metadata) && GoodBatch(sh.path, batch)
    case WritingMetadata(batch, hls) =>
      msg == TriggerMsg(Metadata) && GoodBatch(sh.path, batch) && PlaybackOk(sh.vid, sh.media.objects, hls)
    case Inserting(batch, k) =>
      && msg == TriggerMsg(Metadata) && GoodBatch(sh.path, batch) && k < |batch|
      && (k > 0 ==> OwnsBatch(sh.media, me, batch, k))
    case ListingPending => msg == TriggerMsg(Transcode)
    case PuttingMp4(list, k) => msg == TriggerMsg(Transcode) && k < |list| && CoversPending(sh.media.rends, list, k)
    case Marking(list, k) =>
      && msg == TriggerMsg(Transcode) && k < |list| && CoversPending(sh.media.rends, list, k)
      && Mp4Key(list[k].resolution) in sh.media.objects
    case ListingToSegment => msg == TriggerMsg(Segment)
    case Segmenting(list, k) => msg == TriggerMsg(Segment) && k < |list| && CoversReady(sh.media, list, k)
    case ListingToPublish => msg == TriggerMsg(Publish)
    case PuttingMaster(list) =>
      && msg == TriggerMsg(Publish) && sh.media.batchClosed && AllReady(sh.media.rends)
      && ListsAll(sh.media.rends, sh.media.objects, list)
    case ReadingForPlayback => msg == TriggerMsg(Publish) && Published(sh.media)
    case WritingPlayback => msg == TriggerMsg(Publish) && Published(sh.media)
    case Closing(st) => msg == TriggerMsg(st) && WorkDone(sh.media, st)
    case Reporting(st) => msg == TriggerMsg(st) && WorkDone(sh.media, st) && (cfg.shipped ==> Is(sh.rows, st, Done))
    case Failing(st) => msg == TriggerMsg(st)
    case FailingUpload(applied) => msg == TriggerMsg(Publish) && (applied ==> Is(sh.rows, Publish, Failed))
    case ReportingFailed(st) => msg == TriggerMsg(st) && Is(sh.rows, st, Failed)
    case Gone => false
    case _ => true
  }

  predicate PcOk(cfg: Config, sh: Shared, me: nat, msg: Msg, pc: Pc) {
    OrchestratorPcOk(sh.rows, sh.hist, me, msg, pc) && WorkerPcOk(cfg, sh, me, msg, pc)
  }

  predicate ItemOk(cfg: Config, sh: Shared, i: nat, item: Item) {
    match item
    case Queued(_, msg, _) => MsgOk(cfg, sh, msg)
    case Hand(msg, _, _, pc) => MsgOk(cfg, sh, msg) && PcOk(cfg, sh, i, msg, pc)
    case Finalizer(_) => true
  }

  predicate Inv(cfg: Config, s: State) {
    && SharedInv(cfg, s.shared)
    && (forall i <- s.items :: i < s.next && ItemOk(cfg, s.shared, i, s.items[i]))
  }

  // ---------------------------------------------------------------- how one step may change the tables

  predicate StatusEvolves(a: Status, b: Status) {
    a == b || (a.Pending? && (b.Processing? || b.Canceled?)) || (a.Processing? && Terminal(b))
  }

  predicate RowsEvolve(a: StepRows, b: StepRows) {
    forall st <- a :: st in b && StatusEvolves(a[st], b[st])
  }

  predicate StartEvolves(a: Shared, b: Shared) {
    b.vid == a.vid && (a.path != "" ==> b.path == a.path) && a.startEvents <= b.startEvents
  }

  predicate RendsEvolve(a: seq<Rendition>, b: seq<Rendition>) {
    && |a| <= |b|
    && (forall k :: 0 <= k < |a| ==> b[k].resolution == a[k].resolution)
    && (forall k :: 0 <= k < |a| && a[k].status == RendReady ==>
          b[k].status == RendReady && b[k].storagePath == a[k].storagePath)
  }

  predicate MediaEvolves(me: nat, a: Media, b: Media) {
    && RendsEvolve(a.rends, b.rends)
    && a.objects.Keys <= b.objects.Keys
    && (Published(a) ==> Published(b))
    && (a.batchClosed ==> b.batchClosed && |b.rends| == |a.rends|)
    && (a.batchBy.Some? ==>
          && b.batchBy == a.batchBy && b.batch == a.batch
          && (a.batchBy != Some(me) ==> |b.rends| == |a.rends| && b.batchClosed == a.batchClosed))
  }

  predicate HistEvolves(me: nat, a: History, b: History) {
    && (forall st <- a.triggeredBy :: st in b.triggeredBy && b.triggeredBy[st] == a.triggeredBy[st])
    && (forall st <- b.triggerCalls :: st in a.triggerCalls || (st in a.triggeredBy && a.triggeredBy[st] == me))
    && (forall st <- a.closedBy :: st in b.closedBy && b.closedBy[st] == a.closedBy[st])
    && a.failedWrites <= b.failedWrites
    && (b.finishedWrites == a.finishedWrites || (Publish in a.closedBy && a.closedBy[Publish] == me))
  }

  /** A step of `me`: rows, renditions and objects only move forward, and what belongs to another hand
      stays as it is. */
  predicate Evolves(me: nat, a: Shared, b: Shared) {
    match (a, b)
    case (Shared(_, _, _, _, _, _, rowsA, mediaA, _, histA), Shared(_, _, _, _, _, _, rowsB, mediaB, _, histB)) =>
      RowsEvolve(rowsA, rowsB) && StartEvolves(a, b) && MediaEvolves(me, mediaA, mediaB)
          && HistEvolves(me, histA, histB)
  }

  // ---------------------------------------------------------------- facts survive the steps of others

  lemma TriggeredStays(a: StepRows, b: StepRows, st: StepName)
    requires RowsEvolve(a, b) && Triggered(a, st)
    ensures Triggered(b, st)
  {
  }

  lemma ReadySourceStays(a: seq<Rendition>, b: seq<Rendition>, resolution: string, source: string)
    requires RendsEvolve(a, b) && ReadySource(a, resolution, source)
    ensures ReadySource(b, resolution, source)
  {
    var k :| 0 <= k < |a| && a[k].resolution == resolution
             && a[k].status == RendReady && a[k].storagePath == Some(source);
    assert b[k].resolution == resolution;
  }

  lemma WorkDoneStays(me: nat, a: Media, b: Media, st: StepName)
    requires MediaEvolves(me, a, b) && WorkDone(a, st)
    ensures WorkDone(b, st)
  {
  }

  lemma ReportStays(cfg: Config, me: nat, a: Shared, b: Shared, st: StepName, status: Status)
    requires RowsEvolve(a.rows, b.rows) && MediaEvolves(me, a.media, b.media)
    requires ReportOk(cfg, a.rows, a.media, st, status)
    ensures ReportOk(cfg, b.rows, b.media, st, status)
  {
    TriggeredStays(a.rows, b.rows, st);
    if status.Done? { WorkDoneStays(me, a.media, b.media, st); }
  }

  lemma MsgStays(cfg: Config, me: nat, a: Shared, b: Shared, msg: Msg)
    requires Evolves(me, a, b) && MsgOk(cfg, a, msg)
    ensures MsgOk(cfg, b, msg)
  {
    match msg
    case StartMsg =>
    case TriggerMsg(st) => TriggeredStays(a.rows, b.rows, st);
    case ResultMsg(st, status) => ReportStays(cfg, me, a, b, st, status);
  }

  lemma NameStays(a: seq<Rendition>, b: seq<Rendition>, name: string)
    requires RendsEvolve(a, b) && HasName(a, name)
    ensures HasName(b, name)
  {
    var i :| 0 <= i < |a| && a[i].resolution == name;
    assert b[i].resolution == name;
  }

  lemma CoversPendingStays(a: seq<Rendition>, b: seq<Rendition>, list: seq<Rendition>, k: nat)
    requires RendsEvolve(a, b) && |b| == |a| && CoversPending(a, list, k)
    ensures CoversPending(b, list, k)
  {
    forall i | 0 <= i < |b| && b[i].status == RendPending ensures Mentions(list, k, b[i].resolution) {
      assert a[i].resolution == b[i].resolution;
      assert a[i].status == RendPending;
    }
    forall j | 0 <= j < |list| ensures HasName(b, list[j].resolution) {
      NameStays(a, b, list[j].resolution);
    }
  }

  lemma CoversReadyStays(me: nat, a: Media, b: Media, list: seq<Rendition>, k: nat)
    requires MediaEvolves(me, a, b) && a.batchClosed && CoversReady(a, list, k)
    ensures CoversReady(b, list, k)
  {
    forall j | 0 <= j < |list| ensures ReadySource(b.rends, list[j].resolution, list[j].storagePath.value) {
      ReadySourceStays(a.rends, b.rends, list[j].resolution, list[j].storagePath.value);
    }
    forall i | 0 <= i < |b.rends| ensures Mentions(list, 0, b.rends[i].resolution) {
      assert a.rends[i].resolution == b.rends[i].resolution;
    }
  }

  lemma ListsAllStays(me: nat, a: Media, b: Media, list: seq<Rendition>)
    requires MediaEvolves(me, a, b) && a.batchClosed && ListsAll(a.rends, a.objects, list)
    ensures ListsAll(b.rends, b.objects, list)
  {
    forall j | 0 <= j < |list|
      ensures VariantKey(list[j].resolution) in b.objects && HasName(b.rends, list[j].resolution)
    {
      NameStays(a.rends, b.rends, list[j].resolution);
      assert VariantKey(list[j].resolution) in a.objects.Keys;
    }
    forall i | 0 <= i < |b.rends| ensures Mentions(list, 0, b.rends[i].resolution) {
      assert a.rends[i].resolution == b.rends[i].resolution;
    }
  }

  /** The batch is complete whenever a transcode, segment or publish trigger exists. */
  lemma ChainWork(rows: StepRows, m: Media, st: StepName)
    requires RowsOk(rows) && WorkOk(rows, m) && BatchOk(m) && Triggered(rows, st)
    ensures (st.Transcode? || st.Segment? || st.Publish?) ==> m.batchClosed && m.batchBy.Some? && m.rends != []
    ensures (st.Segment? || st.Publish?) ==> AllReady(m.rends)
    ensures st.Publish? ==> AllSegmented(m)
  {
    if st.Transcode? || st.Segment? || st.Publish? {
      assert Is(rows, Metadata, Done) && WorkDone(m, Metadata);
    }
    if st.Segment? || st.Publish? {
      assert WorkDone(m, Transcode);
    }
    if st.Publish? {
      assert WorkDone(m, Segment);
    }
  }

  lemma SendStays(me: nat, a: Shared, b: Shared, j: nat, st: StepName)
    requires j != me && Evolves(me, a, b) && Triggered(a.rows, st) && MayTrigger(a.hist, j, st)
    ensures Triggered(b.rows, st) && MayTrigger(b.hist, j, st)
  {
    TriggeredStays(a.rows, b.rows, st);
  }

  lemma TerminalStays(a: StepRows, b: StepRows, k: nat)
    requires RowsEvolve(a, b)
    ensures TerminalUpTo(a, k) ==> TerminalUpTo(b, k)
  {
    if TerminalUpTo(a, k) {
      forall j | 0 <= j < k && j < |PIPELINE_STEPS|
        ensures PIPELINE_STEPS[j] in b && Terminal(b[PIPELINE_STEPS[j]])
      {
        assert PIPELINE_STEPS[j] in a;
      }
    }
  }

  lemma OrchestratorPcStays(me: nat, a: Shared, b: Shared, j: nat, msg: Msg, pc: Pc)
    requires j != me && Evolves(me, a, b) && OrchestratorPcOk(a.rows, a.hist, j, msg, pc)
    ensures OrchestratorPcOk(b.rows, b.hist, j, msg, pc)
  {
    match pc
    case Sending(k) => SendStays(me, a, b, j, INITIAL_STEPS[k]);
    case SendingNext(st) => SendStays(me, a, b, j, st);
    case Canceling(k, clean) => TerminalStays(a.rows, b.rows, k);
    case AllCanceled(clean) => TerminalStays(a.rows, b.rows, |PIPELINE_STEPS|);
    case _ =>
  }

  lemma LoopPcStays(cfg: Config, me: nat, a: Shared, b: Shared, j: nat, msg: Msg, pc: Pc)
    requires pc.PuttingMp4? || pc.Marking? || pc.Segmenting?
    requires RowsEvolve(a.rows, b.rows) && MediaEvolves(me, a.media, b.media)
    requires RowsOk(a.rows) && WorkOk(a.rows, a.media) && BatchOk(a.media)
    requires MsgOk(cfg, a, msg) && WorkerPcOk(cfg, a, j, msg, pc)
    ensures WorkerPcOk(cfg, b, j, msg, pc)
  {
    if pc.PuttingMp4? || pc.Marking? {
      ChainWork(a.rows, a.media, Transcode);
      CoversPendingStays(a.media.rends, b.media.rends, pc.list, pc.k);
    } else {
      ChainWork(a.rows, a.media, Segment);
      CoversReadyStays(me, a.media, b.media, pc.list, pc.k);
    }
  }

  lemma DonePcStays(cfg: Config, me: nat, a: Shared, b: Shared, j: nat, msg: Msg, pc: Pc)
    requires pc.PuttingMaster? || pc.Closing? || pc.Reporting?
    requires RowsEvolve(a.rows, b.rows) && MediaEvolves(me, a.media, b.media) && WorkerPcOk(cfg, a, j, msg, pc)
    ensures WorkerPcOk(cfg, b, j, msg, pc)
  {
    if pc.PuttingMaster? {
      ListsAllStays(me, a.media, b.media, pc.list);
    } else {
      WorkDoneStays(me, a.media, b.media, pc.step);
    }
  }

  lemma PlainPcStays(cfg: Config, me: nat, a: Shared, b: Shared, j: nat, msg: Msg, pc: Pc)
    requires !pc.PuttingMp4? && !pc.Marking? && !pc.Segmenting? && !pc.PuttingMaster? && !pc.Closing? && !pc.Reporting?
    requires j != me && Evolves(me, a, b) && StartOk(a.vid, a.path, a.startEvents, a.rows)
    requires MsgOk(cfg, a, msg) && WorkerPcOk(cfg, a, j, msg, pc)
    ensures WorkerPcOk(cfg, b, j, msg, pc)
  {
  }

  lemma WorkerPcStays(cfg: Config, me: nat, a: Shared, b: Shared, j: nat, msg: Msg, pc: Pc)
    requires j != me && Evolves(me, a, b)
    requires StartOk(a.vid, a.path, a.startEvents, a.rows) && RowsOk(a.rows) && WorkOk(a.rows, a.media)
               && BatchOk(a.media)
    requires MsgOk(cfg, a, msg) && WorkerPcOk(cfg, a, j, msg, pc)
    ensures WorkerPcOk(cfg, b, j, msg, pc)
  {
    if pc.PuttingMp4? || pc.Marking? || pc.Segmenting? {
      LoopPcStays(cfg, me, a, b, j, msg, pc);
    } else if pc.PuttingMaster? || pc.Closing? || pc.Reporting? {
      DonePcStays(cfg, me, a, b, j, msg, pc);
    } else {
      PlainPcStays(cfg, me, a, b, j, msg, pc);
    }
  }

  /** No step of one hand breaks the fact another hand relies on. */
  lemma ItemStays(cfg: Config, me: nat, a: Shared, b: Shared, j: nat, item: Item)
    requires j != me && Evolves(me, a, b) && SharedInv(cfg, a) && ItemOk(cfg, a, j, item)
    ensures ItemOk(cfg, b, j, item)
  {
    match item
    case Queued(_, msg, _) => MsgStays(cfg, me, a, b, msg);
    case Hand(msg, _, _, pc) =>
      MsgStays(cfg, me, a, b, msg);
      OrchestratorPcStays(me, a, b, j, msg, pc);
      WorkerPcStays(cfg, me, a, b, j, msg, pc);
    case Finalizer(_) =>
  }
}
