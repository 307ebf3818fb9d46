/** The upload pipeline of one upload as a state machine: the tables, the message copies, and every
    handler in flight with its program counter. One action is one SQL statement, one object-store or
    broker call, one delivery, one timer, or one crash. Actions of different uploads touch disjoint state
    (module System puts any number of uploads side by side). */
module Pipeline {
  import opened Basics
  import opened StepTable
  import opened Renditions
  import opened Playlist

  /** `shipped`: workers always try their own done update before they report, as the code does. With
      `shipped` false a worker may also report finished work without it. */
  datatype Config = Config(maxRetries: nat, shipped: bool)

  datatype UploadStatus = UploadPending | UploadProcessing | UploadFinished | UploadFailed | UploadExpired

  /** What is stored under a key: an encoded file by the height it was encoded for, a variant playlist by the
      file it was cut from, a master playlist by its text. */
  datatype Object = Image | Mp4(height: Option<int>) | VariantPlaylist(source: string) | MasterPlaylist(text: string)

  /** What happened so far; no handler reads it. Hands are named by their item number. */
  datatype History = History(
    triggeredBy: map<StepName, nat>,   // the hand whose processing update applied
    closedBy: map<StepName, nat>,      // the hand whose done update applied
    triggerCalls: map<StepName, nat>,  // PublishStep calls
    moves: map<StepName, nat>,         // applied updates after creation
    finishedWrites: nat,
    failedWrites: nat,
    reported: set<(StepName, Status)>) // results ever sent

  /** The rendition rows and the object store of the video. The last four fields are history: which
      hand inserted `original`, the rows it means to insert, whether all of them are in, and the renditions
      for which the stored master was built, as they were listed. */
  datatype Media = Media(
    rends: seq<Rendition>,
    objects: map<Key, Object>,
    batchBy: Option<nat>,
    batch: seq<Rendition>,
    batchClosed: bool,
    master: seq<Rendition>)

  datatype Shared = Shared(
    vid: string,
    path: string,                      // uploads.storage_path, "" for NULL
    upStatus: UploadStatus,
    deleted: bool,
    videoDeleted: bool,
    startEvents: nat,                  // outbox rows (upload_process_start, upload id)
    rows: map<StepName, Status>,
    media: Media,
    hls: string,                       // videos.hls_master_path, "" for NULL
    hist: History)

  datatype Msg = StartMsg | TriggerMsg(step: StepName) | ResultMsg(step: StepName, status: Status)

  datatype Place = Main | Delay(k: nat) | Dlq

  /** Where a handler stands: the name of the call it makes next. */
  datatype Pc =
    // ProcessUploadProcess
    | Creating(k: nat) | Triggering(k: nat) | Sending(k: nat)
    // HandleStepResult, failed
    | MarkingFailed | Canceling(k: nat, clean: bool) | AllCanceled(clean: bool)
    // HandleStepResult, done
    | Advancing(step: StepName) | TriggeringNext(step: StepName) | SendingNext(step: StepName) | Finishing
    // workers
    | Fetching(step: StepName)
    | PuttingThumbnail | ReadingForThumbnail | WritingThumbnail(hls: string)
    | Extracting(path: string) | ReadingForMetadata(batch: seq<Rendition>)
    | WritingMetadata(batch: seq<Rendition>, hls: string) | Inserting(batch: seq<Rendition>, k: nat)
    | ListingPending | PuttingMp4(list: seq<Rendition>, k: nat) | Marking(list: seq<Rendition>, k: nat)
    | ListingToSegment | Segmenting(list: seq<Rendition>, k: nat)
    | ListingToPublish | PuttingMaster(list: seq<Rendition>) | ReadingForPlayback | WritingPlayback
    | Closing(step: StepName) | Reporting(step: StepName)
    // the consume loop around a handler
    | Returned(ok: bool) | AckingRetry | AckingDlq
    | Failing(step: StepName) | FailingUpload(applied: bool) | ReportingFailed(step: StepName)
    | Gone

  datatype FinalizePc = LookingUp | CheckingFile | Committing

  datatype Item =
    | Queued(place: Place, msg: Msg, retries: nat)
    | Hand(msg: Msg, retries: nat, acked: bool, pc: Pc)
    | Finalizer(at: FinalizePc)

  type Items = map<nat, Item>

  datatype State = State(shared: Shared, items: Items, next: nat)

  // ---------------------------------------------------------------- calls and their effects

  datatype Call =
    | InsertStep(step: StepName) | UpdateStep(step: StepName, target: Status) | SetUpload(upload: UploadStatus)
    | SendTrigger(step: StepName) | SendResult(step: StepName, status: Status)
    | GetContext | Extract | ReadVideo | WriteVideo(hls: string)
    | InsertRendition(batch: seq<Rendition>, k: nat)
    | ListRenditions(wanted: RenditionStatus)
    | Put(key: Key, content: Object) | PutMaster(text: string, listed: seq<Rendition>)
    | MarkReady(resolution: string, path: string)
    | SendDelay | SendDlq | AckMessage
    | NoCall

  datatype Resp =
    | NotOk | Fine | Outcome(applied: bool) | Context(path: string) | Dimensions(width: int, height: int)
    | Playback(hls: string) | Rows(list: seq<Rendition>)

  /** `applied`: the call took effect although its caller sees an error. `work`: the worker's own work
      failed (fetch, ffmpeg, probe), not a store or the broker. */
  datatype Fault = NoFault | Fault(applied: bool, work: bool)

  /** What the world decides about one call: its fault, what ffprobe measures, and whether a worker that
      may leave its own done update out does so. */
  datatype Choice = Choice(fault: Fault, width: int, height: int, skipClose: bool)

  /** An untroubled call. */
  const FINE := Choice(NoFault, 0, 0, false)

  /** An upload just registered, with nothing in flight. */
  function Unborn(vid: string): State {
    State(Shared(vid, "", UploadPending, false, false, 0, map[], Media([], map[], None, [], false, []), "",
                 History(map[], map[], map[], map[], 0, 0, {})), map[], 0)
  }

  function Count(m: map<StepName, nat>, st: StepName): nat {
    if st in m then m[st] else 0
  }

  /** UpdateRendition: the row with that resolution becomes ready; width and height come from the probe,
      NULL when not positive. */
  function Marked(rends: seq<Rendition>, resolution: string, path: string, w: int, h: int): (r: seq<Rendition>)
    ensures |r| == |rends|
    ensures forall k :: 0 <= k < |rends| ==>
              r[k] == if rends[k].resolution == resolution
                      then Rendition(resolution, RendReady, Some(path), PositiveOnly(Some(w)), PositiveOnly(Some(h)))
                          else rends[k]
  {
    seq(|rends|, k requires 0 <= k < |rends| =>
      if rends[k].resolution == resolution
      then Rendition(resolution, RendReady, Some(path), PositiveOnly(Some(w)), PositiveOnly(Some(h))) else rends[k])
  }

  function RowUpdated(hist: History, me: nat, st: StepName, target: Status): History {
    hist.(
      moves := hist.moves[st := Count(hist.moves, st) + 1],
      triggeredBy := if target.Processing? then hist.triggeredBy[st := me] else hist.triggeredBy,
      closedBy := if target.Done? then hist.closedBy[st := me] else hist.closedBy)
  }

  function AfterUpdate(sh: Shared, me: nat, st: StepName, target: Status): Shared {
    sh.(rows := sh.rows[st := target], hist := RowUpdated(sh.hist, me, st, target))
  }

  function AfterInsert(m: Media, me: nat, batch: seq<Rendition>, k: nat): Media
    requires k < |batch|
  {
    m.(rends := m.rends + [batch[k]],
       batchBy := if k == 0 then Some(me) else m.batchBy,
       batch := if k == 0 then batch else m.batch,
       batchClosed := m.batchClosed || k == |batch| - 1)
  }

  function AfterPut(m: Media, key: Key, content: Object): Media {
    m.(objects := m.objects[key := content])
  }

  function AfterPutMaster(m: Media, text: string, listed: seq<Rendition>): Media {
    m.(objects := m.objects[MasterKey := MasterPlaylist(text)], master := listed)
  }

  function AfterSetUpload(sh: Shared, status: UploadStatus): Shared {
    sh.(upStatus := status,
        hist := sh.hist.(finishedWrites := sh.hist.finishedWrites + if status.UploadFinished? then 1 else 0,
                         failedWrites := sh.hist.failedWrites + if status.UploadFailed? then 1 else 0))
  }

  /** A call that the world lets through. Rows and the count of `finished` change only by their own calls. */
  function Apply(sh: Shared, me: nat, call: Call, ch: Choice): (r: (Shared, Resp))
    ensures !call.InsertStep? && !call.UpdateStep? ==> r.0.rows == sh.rows
    ensures call != SetUpload(UploadFinished) ==> r.0.hist.finishedWrites == sh.hist.finishedWrites
  {
    match call
    case InsertStep(st) => (if st in sh.rows then sh else sh.(rows := sh.rows[st := Pending]), Fine)
    case UpdateStep(st, target) =>
      if Applies(sh.rows, st, target) then (AfterUpdate(sh, me, st, target), Outcome(true)) else (sh, Outcome(false))
    case SetUpload(status) => (AfterSetUpload(sh, status), Fine)
    case SendTrigger(st) => (Attempt(sh, call), Fine)
    case SendResult(st, status) => (sh.(hist := sh.hist.(reported := sh.hist.reported + {(st, status)})), Fine)
    case GetContext => (sh, if sh.deleted then NotOk else Context(sh.path))
    case Extract => (sh, Dimensions(ch.width, ch.height))
    case ReadVideo => (sh, if sh.videoDeleted then NotOk else Playback(sh.hls))
    case WriteVideo(hls) => (sh.(hls := hls), Fine)
    case InsertRendition(batch, k) =>
      if k < |batch| && !HasName(sh.media.rends, batch[k].resolution)
      then (sh.(media := AfterInsert(sh.media, me, batch, k)), Fine)
      else (sh, NotOk)
    case ListRenditions(status) => (sh, Rows(Listing(sh.media.rends, status)))
    case Put(key, content) => (sh.(media := AfterPut(sh.media, key, content)), Fine)
    case PutMaster(text, listed) => (sh.(media := AfterPutMaster(sh.media, text, listed)), Fine)
    case MarkReady(resolution, path) =>
      (sh.(media := sh.media.(rends := Marked(sh.media.rends, resolution, path, ch.width, ch.height))), Fine)
    case SendDelay => (sh, Fine)
    case SendDlq => (sh, Fine)
    case AckMessage => (sh, Fine)
    case NoCall => (sh, Fine)
  }

  /** What a call leaves behind even when it fails: that it was made. */
  function Attempt(sh: Shared, call: Call): Shared {
    if call.SendTrigger? then
      sh.(hist := sh.hist.(triggerCalls := sh.hist.triggerCalls[call.step :=
          Count(sh.hist.triggerCalls, call.step) + 1]))
    else sh
  }

  predicate TakesEffect(fault: Fault) {
    fault.NoFault? || fault.applied
  }

  function Effect(sh: Shared, me: nat, call: Call, ch: Choice): (Shared, Resp) {
    if ch.fault.NoFault? then Apply(sh, me, call, ch)
    else ((if ch.fault.applied then Apply(sh, me, call, ch).0 else Attempt(sh, call)), NotOk)
  }

  /** Calls whose local preparation or follow-up is the worker's own work. */
  predicate IsWork(call: Call) {
    call.Put? || call.PutMaster? || call.Extract? || call.MarkReady?
  }

  // ---------------------------------------------------------------- the handlers

  function InitialPc(msg: Msg): Pc {
    match msg
    case StartMsg => Creating(0)
    case TriggerMsg(step) => Fetching(step)
    case ResultMsg(step, status) =>
      if status.Failed? then MarkingFailed else if status.Done? then Advancing(step) else Returned(true)
  }

  function NextCall(cfg: Config, vid: string, h: Item): Call
    requires h.Hand?
  {
    match h.pc
    case Creating(k) => if k < |PIPELINE_STEPS| then InsertStep(PIPELINE_STEPS[k]) else NoCall
    case Triggering(k) => if k < |INITIAL_STEPS| then UpdateStep(INITIAL_STEPS[k], Processing) else NoCall
    case Sending(k) => if k < |INITIAL_STEPS| then SendTrigger(INITIAL_STEPS[k]) else NoCall
    case MarkingFailed => SetUpload(UploadFailed)
    case Canceling(k, _) => if k < |PIPELINE_STEPS| then UpdateStep(PIPELINE_STEPS[k], Canceled) else NoCall
    case AllCanceled(_) => AckMessage
    case Advancing(st) => UpdateStep(st, Done)
    case TriggeringNext(st) => UpdateStep(st, Processing)
    case SendingNext(st) => SendTrigger(st)
    case Finishing => SetUpload(UploadFinished)
    case Fetching(_) => GetContext
    case PuttingThumbnail => Put(ThumbnailKey, Image)
    case ReadingForThumbnail => ReadVideo
    case WritingThumbnail(hls) => WriteVideo(hls)
    case Extracting(_) => Extract
    case ReadingForMetadata(_) => ReadVideo
    case WritingMetadata(_, hls) => WriteVideo(hls)
    case Inserting(batch, k) => InsertRendition(batch, k)
    case ListingPending => ListRenditions(RendPending)
    case PuttingMp4(list, k) =>
      if k < |list| then Put(Mp4Key(list[k].resolution), Mp4(list[k].height)) else NoCall
    case Marking(list, k) =>
      if k < |list| then MarkReady(list[k].resolution, KeyText(vid, Mp4Key(list[k].resolution))) else NoCall
    case ListingToSegment => ListRenditions(RendReady)
    case Segmenting(list, k) =>
      if k < |list| && list[k].storagePath.Some?
      then Put(VariantKey(list[k].resolution), VariantPlaylist(list[k].storagePath.value)) else NoCall
    case ListingToPublish => ListRenditions(RendReady)
    case PuttingMaster(list) => PutMaster(MasterText(Names(list)), list)
    case ReadingForPlayback => ReadVideo
    case WritingPlayback => WriteVideo(KeyText(vid, MasterKey))
    case Closing(st) => UpdateStep(st, Done)
    case Reporting(st) => SendResult(st, Done)
    case Returned(ok) => if ok then AckMessage else if h.retries + 1 <= cfg.maxRetries then SendDelay else SendDlq
    case AckingRetry => AckMessage
    case AckingDlq => AckMessage
    case Failing(st) => UpdateStep(st, Failed)
    case FailingUpload(_) => SetUpload(UploadFailed)
    case ReportingFailed(st) => SendResult(st, Failed)
    case Gone => NoCall
  }

  /** The step whose turn comes when `st` is done. */
  function Successor(st: StepName): Option<StepName> {
    match st
    case Metadata => Some(Transcode)
    case Transcode => Some(Segment)
    case Segment => Some(Publish)
    case _ => None
  }

  function AfterContext(st: StepName, path: string): Pc {
    match st
    case Thumbnail => PuttingThumbnail
    case Metadata => Extracting(path)
    case Transcode => ListingPending
    case Segment => ListingToSegment
    case Publish => ListingToPublish
    case OtherStep(_) => Returned(true)
  }

  function NextTrigger(k: nat): Pc {
    if k + 1 < |INITIAL_STEPS| then Triggering(k + 1) else Returned(true)
  }

  /** Segment's loop: renditions without a path are passed over. */
  function SegmentFrom(list: seq<Rendition>, k: nat): Pc
    requires k <= |list|
    decreases |list| - k
  {
    if k == |list| then Closing(Segment)
    else if list[k].storagePath == None || list[k].storagePath == Some("") then SegmentFrom(list, k + 1)
    else Segmenting(list, k)
  }

  /** Where a handler goes when its call answers. */
  function Resume(cfg: Config, h: Item, r: Resp): Pc
    requires h.Hand?
  {
    match h.pc
    case Creating(k) =>
      if r.NotOk? then Returned(false) else if k + 1 < |PIPELINE_STEPS| then Creating(k + 1) else Triggering(0)
    case Triggering(k) =>
      if r.NotOk? then Returned(false) else if r == Outcome(true) then Sending(k) else NextTrigger(k)
    case Sending(k) => if r.NotOk? then Returned(false) else NextTrigger(k)
    case MarkingFailed => if r.NotOk? then Returned(false) else Canceling(0, true)
    case Canceling(k, clean) =>
      var clean' := clean && !r.NotOk?;
      if k + 1 < |PIPELINE_STEPS| then Canceling(k + 1, clean') else AllCanceled(clean')
    case AllCanceled(_) => Gone
    case Advancing(st) =>
      if r.NotOk? then Returned(false)
      else if r != Outcome(true) then Returned(true)
      else if st.Publish? then Finishing
      else (match Successor(st) case Some(next) => TriggeringNext(next) case None => Returned(true))
    case TriggeringNext(st) =>
      if r.NotOk? then Returned(false) else if r == Outcome(true) then SendingNext(st) else Returned(true)
    case SendingNext(_) => Returned(!r.NotOk?)
    case Finishing => Returned(!r.NotOk?)
    case Fetching(st) => if r.Context? then AfterContext(st, r.path) else Returned(false)
    case PuttingThumbnail => if r.NotOk? then Returned(false) else ReadingForThumbnail
    case ReadingForThumbnail => if r.Playback? then WritingThumbnail(r.hls) else Returned(false)
    case WritingThumbnail(_) => if r.NotOk? then Returned(false) else Closing(Thumbnail)
    case Extracting(path) =>
      if r.Dimensions? then ReadingForMetadata(BatchFor(path, r.width, r.height, LadderFor(r.height)))
          else Returned(false)
    case ReadingForMetadata(batch) => if r.Playback? then WritingMetadata(batch, r.hls) else Returned(false)
    case WritingMetadata(batch, _) => if r.NotOk? then Returned(false) else Inserting(batch, 0)
    case Inserting(batch, k) =>
      if r.NotOk? then Returned(false) else if k + 1 < |batch| then Inserting(batch, k + 1) else Closing(Metadata)
    case ListingPending =>
      if !r.Rows? then Returned(false) else if r.list == [] then Closing(Transcode) else PuttingMp4(r.list, 0)
    case PuttingMp4(list, k) => if r.NotOk? then Returned(false) else Marking(list, k)
    case Marking(list, k) =>
      if r.NotOk? then Returned(false) else if k + 1 < |list| then PuttingMp4(list, k + 1) else Closing(Transcode)
    case ListingToSegment =>
      if !r.Rows? then Returned(false) else if r.list == [] then Closing(Segment) else SegmentFrom(r.list, 0)
    case Segmenting(list, k) => if r.NotOk? || k >= |list| then Returned(false) else SegmentFrom(list, k + 1)
    case ListingToPublish => if !r.Rows? || r.list == [] then Returned(false) else PuttingMaster(r.list)
    case PuttingMaster(_) => if r.NotOk? then Returned(false) else ReadingForPlayback
    case ReadingForPlayback => if r.Playback? then WritingPlayback else Returned(false)
    case WritingPlayback => if r.NotOk? then Returned(false) else Closing(Publish)
    case Closing(st) =>
      if r.NotOk? then Returned(false) else if r == Outcome(true) then Reporting(st) else Returned(true)
    case Reporting(_) => Returned(!r.NotOk?)
    case Returned(ok) =>
      if ok then Gone
      else if r.NotOk? then Gone
      else if h.retries + 1 <= cfg.maxRetries then AckingRetry else AckingDlq
    case AckingRetry => Gone
    case AckingDlq => if h.msg.TriggerMsg? then Failing(h.msg.step) else Gone
    case Failing(st) =>
      if st.Publish? then FailingUpload(r == Outcome(true))
      else if r == Outcome(true) then ReportingFailed(st) else Gone
    case FailingUpload(applied) => if applied then ReportingFailed(Publish) else Gone
    case ReportingFailed(_) => Gone
    case Gone => Gone
  }

  // ---------------------------------------------------------------- actions

  datatype Action =
    | NewClient                         // somebody calls FinalizeUpload
    | Client(i: nat, ch: Choice)        // that call goes on
    | Expire                            // the expirer's guarded update runs
    | Dispatch                          // a dispatcher publishes the start event
    | Deliver(i: nat)
    | Elapse(i: nat)                    // a delay queue hands a message back
    | Run(i: nat, ch: Choice)           // a handler makes its next call
    | Crash(i: nat)                     // or its process dies

  function Actor(a: Action): Option<nat> {
    match a
    case Client(i, _) => Some(i)
    case Deliver(i) => Some(i)
    case Elapse(i) => Some(i)
    case Run(i, _) => Some(i)
    case Crash(i) => Some(i)
    case _ => None
  }

  predicate Enabled(cfg: Config, s: State, a: Action) {
    match a
    case NewClient => true
    case Client(i, _) => i in s.items && s.items[i].Finalizer?
    case Expire => true
    case Dispatch => s.shared.startEvents > 0
    case Deliver(i) => i in s.items && s.items[i].Queued? && s.items[i].place.Main?
    case Elapse(i) => i in s.items && s.items[i].Queued? && s.items[i].place.Delay?
    case Run(i, ch) =>
      && i in s.items && s.items[i].Hand?
      && (ch.skipClose ==> !cfg.shipped && s.items[i].pc.Closing?)
      && (ch.fault.Fault? && ch.fault.work ==> IsWork(NextCall(cfg, s.shared.vid, s.items[i])))
    case Crash(i) => i in s.items && !s.items[i].Queued?
  }

  /** The copy a call puts on a queue. */
  function SentCopy(call: Call, msg: Msg, retries: nat): Option<Item> {
    match call
    case SendTrigger(st) => Some(Queued(Main, TriggerMsg(st), 0))
    case SendResult(st, status) => Some(Queued(Main, ResultMsg(st, status), 0))
    case SendDelay => Some(Queued(Delay(retries + 1), msg, retries + 1))
    case SendDlq => Some(Queued(Dlq, msg, retries))
    case _ => None
  }

  function Add(s: State, copy: Option<Item>): State {
    if copy.None? then s else s.(items := s.items[s.next := copy.value], next := s.next + 1)
  }

  /** A hand that is through: its message is gone if it was acked, else the broker requeues it. */
  function Release(items: map<nat, Item>, i: nat, h: Item): map<nat, Item>
    requires h.Hand?
  {
    if h.acked then items - {i} else items[i := Queued(Main, h.msg, h.retries)]
  }

  function Settle(items: map<nat, Item>, i: nat, h: Item): map<nat, Item>
    requires h.Hand?
  {
    if h.pc.Gone? then Release(items, i, h) else items[i := h]
  }

  /** The shared state a hand's next call leaves and the hand it becomes. */
  function StepHand(cfg: Config, sh: Shared, i: nat, h: Item, ch: Choice): (r: (Shared, Item))
    requires h.Hand?
    ensures r.1.Hand? && r.1.msg == h.msg && r.1.retries == h.retries
  {
    if ch.skipClose && h.pc.Closing? then (sh, h.(pc := Reporting(h.pc.step)))
    else
      var call := NextCall(cfg, sh.vid, h);
      var (sh', resp) := Effect(sh, i, call, ch);
      (sh', h.(pc := Resume(cfg, h, resp), acked := h.acked || (call.AckMessage? && TakesEffect(ch.fault))))
  }

  function StepCopy(cfg: Config, sh: Shared, h: Item, ch: Choice): Option<Item>
    requires h.Hand?
  {
    if (ch.skipClose && h.pc.Closing?) || !TakesEffect(ch.fault) then None
    else SentCopy(NextCall(cfg, sh.vid, h), h.msg, h.retries)
  }

  function Committed(sh: Shared): Shared {
    sh.(path := KeyText(sh.vid, OriginalKey), upStatus := UploadProcessing,
        startEvents := if sh.startEvents == 0 then 1 else sh.startEvents)
  }

  function StepClient(s: State, i: nat, ch: Choice): State
    requires i in s.items && s.items[i].Finalizer?
  {
    match s.items[i].at
    case LookingUp =>
      if ch.fault.Fault? || s.shared.deleted || !s.shared.upStatus.UploadPending? then s.(items := s.items - {i})
      else s.(items := s.items[i := Finalizer(CheckingFile)])
    case CheckingFile =>
      if ch.fault.Fault? then s.(items := s.items - {i}) else s.(items := s.items[i := Finalizer(Committing)])
    case Committing =>
      s.(shared := if TakesEffect(ch.fault) then Committed(s.shared) else s.shared, items := s.items - {i})
  }

  function Do(cfg: Config, s: State, a: Action): State
    requires Enabled(cfg, s, a)
  {
    match a
    case NewClient => Add(s, Some(Finalizer(LookingUp)))
    case Client(i, ch) => StepClient(s, i, ch)
    case Expire =>
      if s.shared.deleted || !s.shared.upStatus.UploadPending? then s
      else s.(shared := s.shared.(upStatus := UploadExpired, deleted := true, videoDeleted := true))
    case Dispatch => Add(s, Some(Queued(Main, StartMsg, 0)))
    case Deliver(i) =>
      var q := s.items[i];
      s.(items := s.items[i := Hand(q.msg, q.retries, false, InitialPc(q.msg))])
    case Elapse(i) => s.(items := s.items[i := s.items[i].(place := Main)])
    case Run(i, ch) =>
      var h := s.items[i];
      var (sh', h') := StepHand(cfg, s.shared, i, h, ch);
      Add(State(sh', Settle(s.items, i, h'), s.next), StepCopy(cfg, s.shared, h, ch))
    case Crash(i) =>
      if s.items[i].Hand? then s.(items := Release(s.items, i, s.items[i])) else s.(items := s.items - {i})
  }

  // ---------------------------------------------------------------- runs

  predicate Init(s: State) {
    && s.shared.path == "" && s.shared.upStatus == UploadPending && !s.shared.deleted && !s.shared.videoDeleted
    && s.shared.startEvents == 0 && s.shared.rows == map[] && s.shared.hls == ""
    && s.shared.media == Media([], map[], None, [], false, [])
    && s.shared.hist == History(map[], map[], map[], map[], 0, 0, {})
    && s.items == map[] && s.next == 0
  }

  ghost predicate Legal(cfg: Config, s: State, acts: seq<Action>)
    decreases |acts|
  {
    acts == [] || (Enabled(cfg, s, acts[0]) && Legal(cfg, Do(cfg, s, acts[0]), acts[1..]))
  }

  ghost function Exec(cfg: Config, s: State, acts: seq<Action>): State
    requires Legal(cfg, s, acts)
    decreases |acts|
  {
    if acts == [] then s else Exec(cfg, Do(cfg, s, acts[0]), acts[1..])
  }

  ghost predicate Reachable(cfg: Config, s: State) {
    exists s0, acts :: Init(s0) && Legal(cfg, s0, acts) && s == Exec(cfg, s0, acts)
  }
}
