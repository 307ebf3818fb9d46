/** Exactly when an upload can finish: some run reaches `finished`, with a playback path, if and only if workers
    may leave their own done update out. The run is built here call by call, with anything else lying around,
    which also shows that the promises of module PipelineTheorems are not empty for such workers. */
module Finishing {
  import opened Basics
  import opened StepTable
  import opened Renditions
  import opened Playlist
  import opened Pipeline
  import opened PipelineInvariant
  import opened PipelineEffects
  import opened PipelineTheorems
  import opened Runs

  // ---------------------------------------------------------------- the stages of the run

  /** The source is the only rendition, ready and with a path. */
  predicate OnlySource(m: Media) {
    && |m.rends| == 1 && m.rends[0].status == RendReady
    && m.rends[0].storagePath.Some? && m.rends[0].storagePath.value != ""
  }

  /** A live upload with these rows, the batch inserted, and a playback path or not. */
  predicate Scene(sh: Shared, rows: StepRows, shown: bool) {
    sh.rows == rows && !sh.deleted && !sh.videoDeleted && OnlySource(sh.media) && (shown <==> sh.hls != "")
  }

  /** The run can get to a message on its queue, with these rows, and with `parked` still lying around. */
  ghost predicate Stage(cfg: Config, msg: Msg, rows: StepRows, shown: bool, parked: Items) {
    exists sh, rest :: Held(cfg, sh, Queued(Main, msg, 0), rest) && Scene(sh, rows, shown) && StillThere(parked, rest)
  }

  lemma ListingOne(r: Rendition, status: RenditionStatus)
    ensures Listing([r], status) == if Listed(r, status) then [r] else []
  {
    var one, none: seq<Rendition> := [r], [];
    assert one[1..] == none;
    assert Select(one, status) == if Listed(r, status) then one else none;
    assert ByHeight(none) == none && ByHeight(one) == one;
    assert Listing(one, status) == ByHeight(Select(one, status));
  }

  /** Finished work is reported with the row still processing. */
  lemma Reports(cfg: Config, sh: Shared, st: StepName, rows: StepRows, shown: bool, rest: Items)
    requires !cfg.shipped && Held(cfg, sh, Hand(TriggerMsg(st), 0, false, Closing(st)), rest) && Scene(sh, rows, shown)
    ensures Stage(cfg, ResultMsg(st, Done), rows, shown, rest)
  {
    Skips(cfg, sh, TriggerMsg(st), st, rest);
    var sh', rest' := Publishes(cfg, sh, TriggerMsg(st), Reporting(st), rest, SendResult(st, Done));
  }

  // ---------------------------------------------------------------- the orchestrator

  /** The done update of a processing row applies. */
  lemma Closes(cfg: Config, sh: Shared, st: StepName, rest: Items) returns (sh': Shared)
    requires Held(cfg, sh, Hand(ResultMsg(st, Done), 0, false, Advancing(st)), rest) && Is(sh.rows, st, Processing)
    ensures var pc := Resume(cfg, Hand(ResultMsg(st, Done), 0, false, Advancing(st)), Outcome(true));
            !pc.Gone? ==> Held(cfg, sh', Hand(ResultMsg(st, Done), 0, false, pc), rest)
    ensures SameTables(sh.(rows := sh.rows[st := Done]), sh')
  {
    var me, r;
    me, sh', r := Turn(cfg, sh, ResultMsg(st, Done), Advancing(st), rest, UpdateStep(st, Done), FINE);
    assert (sh', r) == (AfterUpdate(sh, me, st, Done), Outcome(true));
  }

  lemma ResultDelivered(cfg: Config, sh: Shared, st: StepName, rest: Items)
    requires Held(cfg, sh, Queued(Main, ResultMsg(st, Done), 0), rest)
    ensures Held(cfg, sh, Hand(ResultMsg(st, Done), 0, false, Advancing(st)), rest)
  {
    Delivered(cfg, sh, ResultMsg(st, Done), rest);
  }

  lemma AdvancedGoesOn(cfg: Config, st: StepName, next: StepName)
    requires Successor(st) == Some(next)
    ensures Resume(cfg, Hand(ResultMsg(st, Done), 0, false, Advancing(st)), Outcome(true)) == TriggeringNext(next)
  {
  }

  lemma PassesOn(cfg: Config, sh: Shared, msg: Msg, next: StepName, rows: StepRows, rest: Items)
    requires Held(cfg, sh, Hand(msg, 0, false, TriggeringNext(next)), rest) && Scene(sh, rows, false)
               && Is(rows, next, Pending)
    ensures Stage(cfg, TriggerMsg(next), rows[next := Processing], false, rest)
  {
    var sh1 := Claims(cfg, sh, msg, TriggeringNext(next), SendingNext(next), next, rest);
    var sh2, rest' := Publishes(cfg, sh1, msg, SendingNext(next), rest, SendTrigger(next));
  }

  lemma AdvancesFrom(cfg: Config, sh: Shared, st: StepName, next: StepName, rows: StepRows, rest: Items)
    requires Held(cfg, sh, Queued(Main, ResultMsg(st, Done), 0), rest) && Scene(sh, rows, false)
    requires Is(rows, st, Processing) && Successor(st) == Some(next) && Is(rows, next, Pending)
    ensures Stage(cfg, TriggerMsg(next), rows[st := Done][next := Processing], false, rest)
  {
    ResultDelivered(cfg, sh, st, rest);
    AdvancedGoesOn(cfg, st, next);
    var sh1 := Closes(cfg, sh, st, rest);
    PassesOn(cfg, sh1, ResultMsg(st, Done), next, rows[st := Done], rest);
  }

  /** A done result moves the chain on. */
  lemma Advances(cfg: Config, st: StepName, next: StepName, rows: StepRows, parked: Items)
    requires Stage(cfg, ResultMsg(st, Done), rows, false, parked) && Is(rows, st, Processing)
    requires Successor(st) == Some(next) && Is(rows, next, Pending)
    ensures Stage(cfg, TriggerMsg(next), rows[st := Done][next := Processing], false, parked)
  {
    var sh, rest :|
      Held(cfg, sh, Queued(Main, ResultMsg(st, Done), 0), rest) && Scene(sh, rows, false) && StillThere(parked, rest);
    AdvancesFrom(cfg, sh, st, next, rows, rest);
    StageKeeps(cfg, TriggerMsg(next), rows[st := Done][next := Processing], false, rest, parked);
  }

  /** What lies around less strictly. */
  lemma StageKeeps(cfg: Config, msg: Msg, rows: StepRows, shown: bool, rest: Items, parked: Items)
    requires Stage(cfg, msg, rows, shown, rest) && StillThere(parked, rest)
    ensures Stage(cfg, msg, rows, shown, parked)
  {
    var sh, rest' :| Held(cfg, sh, Queued(Main, msg, 0), rest') && Scene(sh, rows, shown) && StillThere(rest, rest');
    assert StillThere(parked, rest');
  }

  // ---------------------------------------------------------------- the workers

  lemma NoLadder()
    ensures LadderFor(0) == []
  {
    assert RungsBelow(0, 0) == [];
    assert RungsBelow(1, 0) == [];
    assert RungsBelow(2, 0) == [];
    assert RungsBelow(3, 0) == [];
  }

  lemma MetadataWorks(cfg: Config, sh: Shared, rows: StepRows, rest: Items)
    requires !cfg.shipped && Held(cfg, sh, Queued(Main, TriggerMsg(Metadata), 0), rest) && Early(sh, rows)
    ensures Stage(cfg, ResultMsg(Metadata, Done), rows, false, rest)
  {
    NoLadder();
    var batch := Measures(cfg, sh, rest, 0, 0);
    WritesMetadata(cfg, sh, batch, rest);
    InsertsSource(cfg, sh, batch, rows, rest);
  }

  lemma InsertsSource(cfg: Config, sh: Shared, batch: seq<Rendition>, rows: StepRows, rest: Items)
    requires !cfg.shipped && Held(cfg, sh, Hand(TriggerMsg(Metadata), 0, false, Inserting(batch, 0)), rest)
    requires Early(sh, rows) && batch == BatchFor(sh.path, 0, 0, [])
    ensures Stage(cfg, ResultMsg(Metadata, Done), rows, false, rest)
  {
    var msg := TriggerMsg(Metadata);
    ReachablePath(cfg, sh, Hand(msg, 0, false, Inserting(batch, 0)), rest);
    assert |batch| == 1 && batch[0] == BatchRow(sh.path, 0, 0, [], 0);
    var me, sh', r := Turn(cfg, sh, msg, Inserting(batch, 0), rest, InsertRendition(batch, 0), FINE);
    assert r == Fine && sh'.media.rends == [batch[0]] && Scene(sh', rows, false);
    assert Resume(cfg, Hand(msg, 0, false, Inserting(batch, 0)), Fine) == Closing(Metadata);
    Reports(cfg, sh', Metadata, rows, false, rest);
  }

  /** A worker has its trigger in hand and its video looked up. */
  lemma StageFetches(cfg: Config, st: StepName, rows: StepRows, parked: Items) returns (sh: Shared, rest: Items)
    requires Stage(cfg, TriggerMsg(st), rows, false, parked)
    ensures Held(cfg, sh, Hand(TriggerMsg(st), 0, false, AfterContext(st, sh.path)), rest)
    ensures Scene(sh, rows, false) && StillThere(parked, rest)
  {
    var s: Shared, r: Items :| Held(cfg, s, Queued(Main, TriggerMsg(st), 0), r) && Scene(s, rows, false)
        && StillThere(parked, r);
    sh, rest := s, r;
    Fetches(cfg, sh, st, rest);
  }

  /** A listing of a video with the one rendition, which is ready. */
  lemma ListsSource(cfg: Config, sh: Shared, msg: Msg, pc: Pc, rest: Items, status: RenditionStatus)
    requires Held(cfg, sh, Hand(msg, 0, false, pc), rest) && OnlySource(sh.media)
    requires NextCall(cfg, sh.vid, Hand(msg, 0, false, pc)) == ListRenditions(status)
    ensures var list := if status.RendReady? then [sh.media.rends[0]] else [];
            var next := Resume(cfg, Hand(msg, 0, false, pc), Rows(list));
            !next.Gone? ==> Held(cfg, sh, Hand(msg, 0, false, next), rest)
  {
    assert sh.media.rends == [sh.media.rends[0]];
    ListingOne(sh.media.rends[0], status);
    var me, sh', r := Turn(cfg, sh, msg, pc, rest, ListRenditions(status), FINE);
    assert sh' == sh && r == Rows(Listing(sh.media.rends, status));
  }

  lemma TranscodeWorks(cfg: Config, rows: StepRows, parked: Items)
    requires !cfg.shipped && Stage(cfg, TriggerMsg(Transcode), rows, false, parked)
    ensures Stage(cfg, ResultMsg(Transcode, Done), rows, false, parked)
  {
    var sh, rest := StageFetches(cfg, Transcode, rows, parked);
    ListsNonePending(cfg, sh, rows, rest);
    Reports(cfg, sh, Transcode, rows, false, rest);
    StageKeeps(cfg, ResultMsg(Transcode, Done), rows, false, rest, parked);
  }

  lemma ListsNonePending(cfg: Config, sh: Shared, rows: StepRows, rest: Items)
    requires Held(cfg, sh, Hand(TriggerMsg(Transcode), 0, false, ListingPending), rest) && Scene(sh, rows, false)
    ensures Held(cfg, sh, Hand(TriggerMsg(Transcode), 0, false, Closing(Transcode)), rest)
  {
    ListsSource(cfg, sh, TriggerMsg(Transcode), ListingPending, rest, RendPending);
    assert Resume(cfg, Hand(TriggerMsg(Transcode), 0, false, ListingPending), Rows([])) == Closing(Transcode);
  }

  lemma SegmentWorks(cfg: Config, rows: StepRows, parked: Items)
    requires !cfg.shipped && Stage(cfg, TriggerMsg(Segment), rows, false, parked)
    ensures Stage(cfg, ResultMsg(Segment, Done), rows, false, parked)
  {
    var sh, rest := StageFetches(cfg, Segment, rows, parked);
    ListsToSegment(cfg, sh, rows, rest);
    SegmentsSource(cfg, sh, sh.media.rends[0], rows, rest);
    StageKeeps(cfg, ResultMsg(Segment, Done), rows, false, rest, parked);
  }

  lemma ListsToSegment(cfg: Config, sh: Shared, rows: StepRows, rest: Items)
    requires Held(cfg, sh, Hand(TriggerMsg(Segment), 0, false, ListingToSegment), rest) && Scene(sh, rows, false)
    ensures Held(cfg, sh, Hand(TriggerMsg(Segment), 0, false, Segmenting([sh.media.rends[0]], 0)), rest)
  {
    BeginsWithSource(cfg, TriggerMsg(Segment), sh.media.rends[0]);
    ListsSource(cfg, sh, TriggerMsg(Segment), ListingToSegment, rest, RendReady);
  }

  lemma BeginsWithSource(cfg: Config, msg: Msg, source: Rendition)
    requires source.storagePath.Some? && source.storagePath.value != ""
    ensures Resume(cfg, Hand(msg, 0, false, ListingToSegment), Rows([source])) == Segmenting([source], 0)
  {
    assert SegmentFrom([source], 0) == Segmenting([source], 0);
  }

  lemma SegmentsSource(cfg: Config, sh: Shared, source: Rendition, rows: StepRows, rest: Items)
    requires !cfg.shipped && Held(cfg, sh, Hand(TriggerMsg(Segment), 0, false, Segmenting([source], 0)), rest)
    requires Scene(sh, rows, false) && source == sh.media.rends[0]
    ensures Stage(cfg, ResultMsg(Segment, Done), rows, false, rest)
  {
    var h := Hand(TriggerMsg(Segment), 0, false, Segmenting([source], 0));
    var call := Put(VariantKey(source.resolution), VariantPlaylist(source.storagePath.value));
    assert NextCall(cfg, sh.vid, h) == call;
    var me, sh', r := Turn(cfg, sh, TriggerMsg(Segment), Segmenting([source], 0), rest, call, FINE);
    assert r == Fine && sh'.media.rends == sh.media.rends;
    EndsWithSource(cfg, TriggerMsg(Segment), source);
    Reports(cfg, sh', Segment, rows, false, rest);
  }

  lemma EndsWithSource(cfg: Config, msg: Msg, source: Rendition)
    ensures Resume(cfg, Hand(msg, 0, false, Segmenting([source], 0)), Fine) == Closing(Segment)
  {
    assert SegmentFrom([source], 1) == Closing(Segment);
  }

  lemma PublishWorks(cfg: Config, rows: StepRows, parked: Items)
    requires !cfg.shipped && Stage(cfg, TriggerMsg(Publish), rows, false, parked)
    ensures Stage(cfg, ResultMsg(Publish, Done), rows, true, parked)
  {
    var sh, rest := StageFetches(cfg, Publish, rows, parked);
    ListsToPublish(cfg, sh, rows, rest);
    PutsMaster(cfg, sh, [sh.media.rends[0]], rows, rest);
    StageKeeps(cfg, ResultMsg(Publish, Done), rows, true, rest, parked);
  }

  lemma ListsToPublish(cfg: Config, sh: Shared, rows: StepRows, rest: Items)
    requires Held(cfg, sh, Hand(TriggerMsg(Publish), 0, false, ListingToPublish), rest) && Scene(sh, rows, false)
    ensures Held(cfg, sh, Hand(TriggerMsg(Publish), 0, false, PuttingMaster([sh.media.rends[0]])), rest)
  {
    MastersList(cfg, TriggerMsg(Publish), [sh.media.rends[0]]);
    ListsSource(cfg, sh, TriggerMsg(Publish), ListingToPublish, rest, RendReady);
  }

  lemma MastersList(cfg: Config, msg: Msg, list: seq<Rendition>)
    requires list != []
    ensures Resume(cfg, Hand(msg, 0, false, ListingToPublish), Rows(list)) == PuttingMaster(list)
  {
  }

  lemma PutsMaster(cfg: Config, sh: Shared, list: seq<Rendition>, rows: StepRows, rest: Items)
    requires !cfg.shipped && Held(cfg, sh, Hand(TriggerMsg(Publish), 0, false, PuttingMaster(list)), rest)
    requires Scene(sh, rows, false)
    ensures Stage(cfg, ResultMsg(Publish, Done), rows, true, rest)
  {
    var msg := TriggerMsg(Publish);
    var me, sh', r := Turn(cfg, sh, msg, PuttingMaster(list), rest, PutMaster(MasterText(Names(list)), list), FINE);
    assert r == Fine && Scene(sh', rows, false);
    assert Resume(cfg, Hand(msg, 0, false, PuttingMaster(list)), Fine) == ReadingForPlayback;
    ReadsForPlayback(cfg, sh', rest);
    PointsPlayback(cfg, sh', rows, rest);
  }

  lemma ReadsForPlayback(cfg: Config, sh: Shared, rest: Items)
    requires Held(cfg, sh, Hand(TriggerMsg(Publish), 0, false, ReadingForPlayback), rest) && !sh.videoDeleted
    ensures Held(cfg, sh, Hand(TriggerMsg(Publish), 0, false, WritingPlayback), rest)
  {
    ReadsVideo(cfg, sh, TriggerMsg(Publish), ReadingForPlayback, rest);
    assert Resume(cfg, Hand(TriggerMsg(Publish), 0, false, ReadingForPlayback), Playback(sh.hls)) == WritingPlayback;
  }

  lemma PointsPlayback(cfg: Config, sh: Shared, rows: StepRows, rest: Items)
    requires !cfg.shipped && Held(cfg, sh, Hand(TriggerMsg(Publish), 0, false, WritingPlayback), rest)
    requires Scene(sh, rows, false)
    ensures Stage(cfg, ResultMsg(Publish, Done), rows, true, rest)
  {
    var msg := TriggerMsg(Publish);
    KeyTextNotEmpty(sh.vid, MasterKey);
    var me, sh', r := Turn(cfg, sh, msg, WritingPlayback, rest, WriteVideo(KeyText(sh.vid, MasterKey)), FINE);
    assert r == Fine && Scene(sh', rows, true);
    assert Resume(cfg, Hand(msg, 0, false, WritingPlayback), Fine) == Closing(Publish);
    Reports(cfg, sh', Publish, rows, true, rest);
  }

  // ---------------------------------------------------------------- the whole run

  /** A finished upload that can be watched, with `parked` still lying around. */
  ghost predicate FinishedWith(cfg: Config, s: State, parked: Items) {
    Reachable(cfg, s) && s.shared.upStatus.UploadFinished? && s.shared.hls != "" && StillThere(parked, s.items)
  }

  lemma Finishes(cfg: Config, rows: StepRows, parked: Items) returns (s: State)
    requires Stage(cfg, ResultMsg(Publish, Done), rows, true, parked) && Is(rows, Publish, Processing)
    ensures FinishedWith(cfg, s, parked)
  {
    var msg := ResultMsg(Publish, Done);
    var sh, rest :| Held(cfg, sh, Queued(Main, msg, 0), rest) && Scene(sh, rows, true) && StillThere(parked, rest);
    ResultDelivered(cfg, sh, Publish, rest);
    PublishedFinishes(cfg);
    sh := Closes(cfg, sh, Publish, rest);
    s := MarksFinished(cfg, sh, msg, rest);
  }

  lemma PublishedFinishes(cfg: Config)
    ensures Resume(cfg, Hand(ResultMsg(Publish, Done), 0, false, Advancing(Publish)), Outcome(true)) == Pc.Finishing
  {
  }

  lemma MarksFinished(cfg: Config, sh: Shared, msg: Msg, rest: Items) returns (s: State)
    requires Held(cfg, sh, Hand(msg, 0, false, Pc.Finishing), rest) && sh.hls != ""
    ensures FinishedWith(cfg, s, rest)
  {
    var me, sh', r := Turn(cfg, sh, msg, Pc.Finishing, rest, SetUpload(UploadFinished), FINE);
    assert r == Fine && sh'.upStatus == UploadFinished && sh'.hls == sh.hls;
    var h := Hand(msg, 0, false, Returned(true));
    assert Resume(cfg, Hand(msg, 0, false, Pc.Finishing), Fine) == Returned(true);
    var i;
    s, i := Seen(cfg, sh', h, rest);
  }

  /** From the metadata trigger on, whatever else lies around. */
  lemma ChainRuns(cfg: Config, sh: Shared, rows: StepRows, rest: Items) returns (s: State)
    requires !cfg.shipped && Held(cfg, sh, Queued(Main, TriggerMsg(Metadata), 0), rest) && Early(sh, rows)
    requires Is(rows, Metadata, Processing)
    requires Is(rows, Transcode, Pending) && Is(rows, Segment, Pending) && Is(rows, Publish, Pending)
    ensures FinishedWith(cfg, s, rest)
  {
    MetadataWorks(cfg, sh, rows, rest);
    Advances(cfg, Metadata, Transcode, rows, rest);
    var rows1 := rows[Metadata := Done][Transcode := Processing];
    TranscodeWorks(cfg, rows1, rest);
    Advances(cfg, Transcode, Segment, rows1, rest);
    var rows2 := rows1[Transcode := Done][Segment := Processing];
    SegmentWorks(cfg, rows2, rest);
    Advances(cfg, Segment, Publish, rows2, rest);
    var rows3 := rows2[Segment := Done][Publish := Processing];
    PublishWorks(cfg, rows3, rest);
    s := Finishes(cfg, rows3, rest);
  }

  /** From the start message on, whatever else lies around. */
  lemma StartRuns(cfg: Config, sh: Shared, rest: Items) returns (s: State)
    requires !cfg.shipped && Held(cfg, sh, Queued(Main, StartMsg, 0), rest) && Early(sh, map[])
    ensures FinishedWith(cfg, s, rest)
  {
    AllCreated();
    var sh1 := Starts(cfg, sh, rest);
    var sh2, rest' := Publishes(cfg, sh1, StartMsg, Sending(0), rest, SendTrigger(Metadata));
    s := ChainRuns(cfg, sh2, sh1.rows, rest');
  }

  ghost predicate CanFinish(cfg: Config) {
    exists s :: Reachable(cfg, s) && s.shared.upStatus.UploadFinished? && s.shared.hls != ""
  }

  /** An upload can finish and be watched if and only if workers need not close their own row before they
      report. */
  lemma FinishesExactlyWhen(cfg: Config)
    ensures CanFinish(cfg) <==> !cfg.shipped
  {
    if cfg.shipped {
      forall s | Reachable(cfg, s) ensures !s.shared.upStatus.UploadFinished? {
        ShippedPipelineStalls(cfg, s);
      }
    } else {
      var sh := Registered(cfg, "");
      var s := StartRuns(cfg, sh, map[]);
    }
  }
}
