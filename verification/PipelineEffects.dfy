/** Every effect a handler can have keeps the table facts and only moves the tables forward. */
module PipelineEffects {
  import opened Basics
  import opened StepTable
  import opened Renditions
  import opened Playlist
  import opened Pipeline
  import opened PipelineInvariant

  ghost predicate Keeps(cfg: Config, me: nat, sh: Shared, sh': Shared) {
    SharedInv(cfg, sh') && Evolves(me, sh, sh')
  }

  lemma SameMediaEvolves(me: nat, m: Media)
    ensures MediaEvolves(me, m, m)
  {
  }

  lemma SameRowsEvolve(rows: StepRows)
    ensures RowsEvolve(rows, rows)
  {
  }

  lemma NothingKeeps(cfg: Config, me: nat, sh: Shared)
    requires SharedInv(cfg, sh)
    ensures Keeps(cfg, me, sh, sh)
  {
    SameMediaEvolves(me, sh.media);
    SameRowsEvolve(sh.rows);
  }

  /** Reports stay true when rows, renditions and objects move forward. */
  lemma ReportsStay(cfg: Config, me: nat, a: Shared, b: Shared)
    requires RowsEvolve(a.rows, b.rows) && MediaEvolves(me, a.media, b.media)
    requires ReportsOk(cfg, a.rows, a.media, a.hist.reported) && b.hist.reported == a.hist.reported
    ensures ReportsOk(cfg, b.rows, b.media, b.hist.reported)
  {
    forall r <- b.hist.reported ensures ReportOk(cfg, b.rows, b.media, r.0, r.1) {
      ReportStays(cfg, me, a, b, r.0, r.1);
    }
  }

  // ---------------------------------------------------------------- rows

  function StepInserted(sh: Shared, st: StepName): Shared {
    if st in sh.rows then sh else sh.(rows := sh.rows[st := Pending])
  }

  lemma InsertStepKeeps(cfg: Config, me: nat, sh: Shared, st: StepName)
    requires SharedInv(cfg, sh) && sh.path != "" && !st.OtherStep?
    ensures Keeps(cfg, me, sh, StepInserted(sh, st))
  {
    if st in sh.rows {
      NothingKeeps(cfg, me, sh);
    } else {
      var sh' := StepInserted(sh, st);
      NewRowOk(sh.rows, sh.upStatus, sh.hist, st);
      SameMediaEvolves(me, sh.media);
      ReportsStay(cfg, me, sh, sh');
      NewRowWorkOk(sh.rows, sh.media, st);
    }
  }

  lemma NewRowOk(rows: StepRows, up: UploadStatus, h: History, st: StepName)
    requires RowsOk(rows) && CountsOk(rows, up, h) && st !in rows && !st.OtherStep?
    ensures RowsOk(rows[st := Pending]) && RowsEvolve(rows, rows[st := Pending])
    ensures CountsOk(rows[st := Pending], up, h)
  {
  }

  lemma NewRowWorkOk(rows: StepRows, m: Media, st: StepName)
    requires WorkOk(rows, m) && st !in rows
    ensures WorkOk(rows[st := Pending], m)
  {
  }

  /** What a hand must know before it may apply an update. */
  predicate Justified(rows: StepRows, m: Media, st: StepName, target: Status) {
    match target
    case Processing => AllRows(rows) && PredecessorDone(rows, st)
    case Done => WorkDone(m, st)
    case Failed => true
    case Canceled => AllRows(rows)
    case _ => false
  }

  lemma UpdateRowsOk(rows: StepRows, m: Media, st: StepName, target: Status)
    requires RowsOk(rows) && Applies(rows, st, target) && Justified(rows, m, st, target)
    ensures RowsOk(rows[st := target]) && RowsEvolve(rows, rows[st := target])
  {
    assert AllRows(rows) && AllRows(rows[st := target]);
  }

  lemma UpdateCountsOk(rows: StepRows, up: UploadStatus, h: History, me: nat, st: StepName, target: Status)
    requires CountsOk(rows, up, h) && Applies(rows, st, target)
    ensures CountsOk(rows[st := target], up, RowUpdated(h, me, st, target))
  {
    MovesStayBounded(rows, h.moves, st, target);
    ClosedStayDone(rows, h.closedBy, me, st, target);
  }

  lemma MovesStayBounded(rows: StepRows, moves: map<StepName, nat>, st: StepName, target: Status)
    requires Applies(rows, st, target) && forall x <- moves :: x in rows && moves[x] <= Rank(rows[x])
    ensures var moves' := moves[st := Count(moves, st) + 1];
            forall x <- moves' :: x in rows[st := target] && moves'[x] <= Rank(rows[st := target][x])
  {
    assert Rank(target) > Rank(rows[st]);
    assert Count(moves, st) <= Rank(rows[st]);
  }

  lemma ClosedStayDone(rows: StepRows, closedBy: map<StepName, nat>, me: nat, st: StepName, target: Status)
    requires Applies(rows, st, target) && forall x <- closedBy :: Is(rows, x, Done)
    ensures var closedBy' := if target.Done? then closedBy[st := me] else closedBy;
            forall x <- closedBy' :: Is(rows[st := target], x, Done)
  {
    var rows' := rows[st := target];
    forall x <- closedBy ensures Is(rows', x, Done) {
      assert Is(rows, x, Done);
    }
  }

  lemma UpdateHistEvolves(rows: StepRows, up: UploadStatus, h: History, me: nat, st: StepName, target: Status)
    requires CountsOk(rows, up, h) && Applies(rows, st, target)
    ensures HistEvolves(me, h, RowUpdated(h, me, st, target))
  {
    if target.Processing? { assert st !in h.triggeredBy; }
    if target.Done? { assert st !in h.closedBy; }
  }

  lemma UpdateWorkOk(rows: StepRows, m: Media, st: StepName, target: Status)
    requires WorkOk(rows, m) && Applies(rows, st, target) && Justified(rows, m, st, target)
    ensures WorkOk(rows[st := target], m)
  {
  }

  lemma UpdateStepKeeps(cfg: Config, me: nat, sh: Shared, st: StepName, target: Status)
    requires SharedInv(cfg, sh) && Applies(sh.rows, st, target) && Justified(sh.rows, sh.media, st, target)
    ensures Keeps(cfg, me, sh, AfterUpdate(sh, me, st, target))
  {
    UpdateRowsOk(sh.rows, sh.media, st, target);
    UpdateCountsOk(sh.rows, sh.upStatus, sh.hist, me, st, target);
    UpdateHistEvolves(sh.rows, sh.upStatus, sh.hist, me, st, target);
    UpdateWorkOk(sh.rows, sh.media, st, target);
    SameMediaEvolves(me, sh.media);
    ReportsStay(cfg, me, sh, AfterUpdate(sh, me, st, target));
  }

  // ---------------------------------------------------------------- upload status, triggers, results

  lemma SetUploadKeeps(cfg: Config, me: nat, sh: Shared, status: UploadStatus)
    requires SharedInv(cfg, sh)
    requires status.UploadFinished? ==> MayFinish(sh.hist, me)
    ensures Keeps(cfg, me, sh, AfterSetUpload(sh, status))
  {
    SameMediaEvolves(me, sh.media);
    SameRowsEvolve(sh.rows);
    ReportsStay(cfg, me, sh, AfterSetUpload(sh, status));
  }

  lemma TriggerCountsOk(rows: StepRows, up: UploadStatus, h: History, me: nat, st: StepName)
    requires CountsOk(rows, up, h) && MayTrigger(h, me, st)
    ensures var h' := h.(triggerCalls := h.triggerCalls[st := Count(h.triggerCalls, st) + 1]);
            CountsOk(rows, up, h') && HistEvolves(me, h, h')
  {
  }

  lemma SendTriggerKeeps(cfg: Config, me: nat, sh: Shared, st: StepName)
    requires SharedInv(cfg, sh) && MayTrigger(sh.hist, me, st)
    ensures Keeps(cfg, me, sh, Attempt(sh, SendTrigger(st)))
  {
    TriggerCountsOk(sh.rows, sh.upStatus, sh.hist, me, st);
    SameMediaEvolves(me, sh.media);
    SameRowsEvolve(sh.rows);
    ReportsStay(cfg, me, sh, Attempt(sh, SendTrigger(st)));
  }

  function Reported(sh: Shared, st: StepName, status: Status): Shared {
    sh.(hist := sh.hist.(reported := sh.hist.reported + {(st, status)}))
  }

  lemma ReportAdded(cfg: Config, rows: StepRows, m: Media, reported: set<(StepName, Status)>, st: StepName,
      status: Status)
    requires ReportsOk(cfg, rows, m, reported) && ReportOk(cfg, rows, m, st, status)
    ensures ReportsOk(cfg, rows, m, reported + {(st, status)})
  {
  }

  lemma SendResultKeeps(cfg: Config, me: nat, sh: Shared, st: StepName, status: Status)
    requires SharedInv(cfg, sh) && ReportOk(cfg, sh.rows, sh.media, st, status)
    ensures Keeps(cfg, me, sh, Reported(sh, st, status))
  {
    ReportAdded(cfg, sh.rows, sh.media, sh.hist.reported, st, status);
    SameMediaEvolves(me, sh.media);
    SameRowsEvolve(sh.rows);
  }

  lemma WriteVideoKeeps(cfg: Config, me: nat, sh: Shared, hls: string)
    requires SharedInv(cfg, sh) && PlaybackOk(sh.vid, sh.media.objects, hls)
    ensures Keeps(cfg, me, sh, sh.(hls := hls))
  {
    SameMediaEvolves(me, sh.media);
    SameRowsEvolve(sh.rows);
  }

  // ---------------------------------------------------------------- renditions and objects

  /** A media step that moves forward keeps everything that is said about rows and reports. */
  lemma MediaStepKeeps(cfg: Config, me: nat, sh: Shared, m: Media)
    requires SharedInv(cfg, sh) && MediaEvolves(me, sh.media, m) && MediaOk(sh.vid, sh.path, m)
    ensures Keeps(cfg, me, sh, sh.(media := m))
  {
    SameRowsEvolve(sh.rows);
    ReportsStay(cfg, me, sh, sh.(media := m));
    forall st <- sh.rows | sh.rows[st].Done? ensures WorkDone(m, st) {
      WorkDoneStays(me, sh.media, m, st);
    }
  }

  lemma VariantsStay(a: seq<Rendition>, b: seq<Rendition>, objects: map<Key, Object>)
    requires RendsEvolve(a, b) && VariantsOk(a, objects)
    ensures VariantsOk(b, objects)
  {
    forall key <- objects | key.VariantKey?
      ensures objects[key].VariantPlaylist? && ReadySource(b, key.resolution, objects[key].source)
    {
      ReadySourceStays(a, b, key.resolution, objects[key].source);
    }
  }

  /** `original` is always the first row, so only an empty table takes the first row of a batch. */
  lemma FirstRowNeedsEmptyTable(m: Media, batch: seq<Rendition>)
    requires BatchOk(m) && batch != [] && batch[0].resolution == ORIGINAL && !HasName(m.rends, batch[0].resolution)
    ensures m.rends == [] && m.batchBy.None?
  {
    if m.rends != [] {
      FirstRowIsOriginal(m);
      assert false;
    }
  }

  lemma FirstRowIsOriginal(m: Media)
    requires BatchOk(m) && m.rends != []
    ensures HasName(m.rends, ORIGINAL)
  {
    assert m.rends[0].resolution == ORIGINAL;
  }

  lemma InsertBatchOk(m: Media, me: nat, vid: string, path: string, batch: seq<Rendition>, k: nat)
    requires BatchOk(m) && RendsOk(vid, path, m.rends) && GoodBatch(path, batch) && k < |batch| && path != ""
    requires if k == 0 then m.rends == [] else OwnsBatch(m, me, batch, k)
    ensures BatchOk(AfterInsert(m, me, batch, k)) && RendsOk(vid, path, AfterInsert(m, me, batch, k).rends)
  {
    InsertFits(m, me, batch, k);
    InsertRendsOk(m.rends, vid, path, batch, k);
  }

  lemma InsertFits(m: Media, me: nat, batch: seq<Rendition>, k: nat)
    requires BatchOk(m) && FitBatch(batch) && k < |batch|
    requires if k == 0 then m.rends == [] else OwnsBatch(m, me, batch, k)
    ensures BatchOk(AfterInsert(m, me, batch, k))
  {
    assert AfterInsert(m, me, batch, k).batch == batch;
  }

  lemma InsertRendsOk(rends: seq<Rendition>, vid: string, path: string, batch: seq<Rendition>, k: nat)
    requires RendsOk(vid, path, rends) && GoodBatch(path, batch) && k == |rends| < |batch| && path != ""
    ensures RendsOk(vid, path, rends + [batch[k]])
  {
  }

  /** Only a batch that is not whole takes a row, and nothing is published then. */
  lemma InsertEvolves(m: Media, me: nat, batch: seq<Rendition>, k: nat)
    requires BatchOk(m) && k < |batch|
    requires if k == 0 then m.rends == [] else OwnsBatch(m, me, batch, k)
    ensures !m.batchClosed && MediaEvolves(me, m, AfterInsert(m, me, batch, k))
  {
  }

  lemma InsertMeasuredOk(m: Media, me: nat, path: string, batch: seq<Rendition>, k: nat)
    requires MeasuredOk(path, m) && GoodBatch(path, batch) && k < |batch|
    requires if k == 0 then m.rends == [] else OwnsBatch(m, me, batch, k)
    ensures MeasuredOk(path, AfterInsert(m, me, batch, k))
  {
    if k == 0 {
      FirstAsInserted(batch);
      assert [] + [batch[0]] == [batch[0]];
    } else {
      NextAsInserted(m.rends, batch, k);
    }
  }

  lemma FirstAsInserted(batch: seq<Rendition>)
    requires batch != []
    ensures AsInserted([batch[0]], batch)
  {
  }

  lemma NextAsInserted(rends: seq<Rendition>, batch: seq<Rendition>, k: nat)
    requires AsInserted(rends, batch) && 0 < k == |rends| < |batch|
    ensures AsInserted(rends + [batch[k]], batch)
  {
    assert (rends + [batch[k]])[0] == rends[0];
  }

  lemma InsertRenditionKeeps(cfg: Config, me: nat, sh: Shared, batch: seq<Rendition>, k: nat)
    requires SharedInv(cfg, sh) && GoodBatch(sh.path, batch) && k < |batch| && sh.path != ""
    requires k > 0 ==> OwnsBatch(sh.media, me, batch, k)
    requires !HasName(sh.media.rends, batch[k].resolution)
    ensures Keeps(cfg, me, sh, sh.(media := AfterInsert(sh.media, me, batch, k)))
    ensures var m := AfterInsert(sh.media, me, batch, k);
            if k + 1 < |batch| then OwnsBatch(m, me, batch, k + 1) else m.batchClosed
  {
    var m := AfterInsert(sh.media, me, batch, k);
    if k == 0 {
      FirstRowNeedsEmptyTable(sh.media, batch);
    }
    InsertBatchOk(sh.media, me, sh.vid, sh.path, batch, k);
    InsertEvolves(sh.media, me, batch, k);
    InsertMeasuredOk(sh.media, me, sh.path, batch, k);
    VariantsStay(sh.media.rends, m.rends, sh.media.objects);
    MediaStepKeeps(cfg, me, sh, m);
  }

  /** The owner's next name is never taken: only its own rows are in the table. */
  lemma OwnerMeetsNoTakenName(m: Media, me: nat, batch: seq<Rendition>, k: nat)
    requires BatchOk(m) && OwnsBatch(m, me, batch, k) && k < |batch| && Distinct(Names(batch))
    ensures !HasName(m.rends, batch[k].resolution)
  {
    forall j | 0 <= j < |m.rends| ensures m.rends[j].resolution != batch[k].resolution {
      assert Names(batch)[j] != Names(batch)[k];
    }
  }

  /** More objects beside the master take nothing away from what it was built for. */
  lemma PublishedStays(m: Media, key: Key, content: Object)
    requires Published(m) && !key.MasterKey?
    ensures Published(AfterPut(m, key, content))
  {
    forall j | 0 <= j < |m.master| ensures VariantKey(m.master[j].resolution) in AfterPut(m, key, content).objects {}
  }

  lemma PutEvolves(me: nat, m: Media, key: Key, content: Object)
    requires MasterOk(m) && !key.MasterKey?
    ensures MediaEvolves(me, m, AfterPut(m, key, content)) && MasterOk(AfterPut(m, key, content))
  {
    if Published(m) { PublishedStays(m, key, content); }
  }

  lemma PutFileKeeps(cfg: Config, me: nat, sh: Shared, key: Key, content: Object)
    requires SharedInv(cfg, sh) && !key.VariantKey? && !key.MasterKey? && Belongs(key, content)
    ensures Keeps(cfg, me, sh, sh.(media := AfterPut(sh.media, key, content)))
  {
    PutEvolves(me, sh.media, key, content);
    MediaStepKeeps(cfg, me, sh, AfterPut(sh.media, key, content));
  }

  lemma PutVariantKeeps(cfg: Config, me: nat, sh: Shared, resolution: string, source: string)
    requires SharedInv(cfg, sh) && ReadySource(sh.media.rends, resolution, source)
    ensures Keeps(cfg, me, sh, sh.(media := AfterPut(sh.media, VariantKey(resolution), VariantPlaylist(source))))
  {
    PutEvolves(me, sh.media, VariantKey(resolution), VariantPlaylist(source));
    MediaStepKeeps(cfg, me, sh, AfterPut(sh.media, VariantKey(resolution), VariantPlaylist(source)));
  }

  lemma PutMasterEvolves(me: nat, m: Media, listed: seq<Rendition>)
    requires m.batchClosed && AllReady(m.rends) && ListsAll(m.rends, m.objects, listed)
    ensures var m' := AfterPutMaster(m, MasterText(Names(listed)), listed); Published(m') && MediaEvolves(me, m, m')
  {
  }

  lemma PutMasterOk(m: Media, vid: string, path: string, text: string, listed: seq<Rendition>)
    requires MediaOk(vid, path, m) && Published(AfterPutMaster(m, text, listed))
    ensures MediaOk(vid, path, AfterPutMaster(m, text, listed))
  {
    var m' := AfterPutMaster(m, text, listed);
    assert forall key <- m'.objects :: !key.MasterKey? ==> key in m.objects && m'.objects[key] == m.objects[key];
  }

  lemma PutMasterKeeps(cfg: Config, me: nat, sh: Shared, text: string, listed: seq<Rendition>)
    requires SharedInv(cfg, sh) && text == MasterText(Names(listed))
    requires sh.media.batchClosed && AllReady(sh.media.rends) && ListsAll(sh.media.rends, sh.media.objects, listed)
    ensures Keeps(cfg, me, sh, sh.(media := AfterPutMaster(sh.media, text, listed)))
    ensures Published(AfterPutMaster(sh.media, text, listed))
  {
    var m := AfterPutMaster(sh.media, text, listed);
    PutMasterEvolves(me, sh.media, listed);
    PutMasterOk(sh.media, sh.vid, sh.path, text, listed);
    MediaStepKeeps(cfg, me, sh, m);
  }

  lemma MarkedOk(m: Media, vid: string, path: string, resolution: string, w: int, h: int)
    requires BatchOk(m) && RendsOk(vid, path, m.rends) && resolution != ORIGINAL
    ensures var rends := Marked(m.rends, resolution, KeyText(vid, Mp4Key(resolution)), w, h);
            && RendsOk(vid, path, rends) && RendsEvolve(m.rends, rends) && BatchOk(m.(rends := rends))
  {
    var rends := Marked(m.rends, resolution, KeyText(vid, Mp4Key(resolution)), w, h);
    if m.rends != [] {
      assert m.rends[0].resolution == ORIGINAL;
    }
    forall k | 0 <= k < |rends| ensures rends[k].resolution == m.rends[k].resolution {}
    forall k | 0 <= k < |rends| && m.rends[k].status == RendReady
      ensures rends[k].status == RendReady && rends[k].storagePath == m.rends[k].storagePath
    {
      assert m.rends[k].storagePath == Some(Source(vid, path, k, m.rends[k].resolution));
    }
  }

  /** A marked row is ready with its file stored; the source and the rows left pending are not touched. */
  lemma MarkedKeepsRows(m: Media, file: string, path: string, resolution: string, w: int, h: int)
    requires BatchOk(m) && MeasuredOk(path, m) && FilesStored(m.rends, m.objects)
    requires resolution != ORIGINAL && Mp4Key(resolution) in m.objects
    ensures var rends := Marked(m.rends, resolution, file, w, h);
            MeasuredOk(path, m.(rends := rends)) && FilesStored(rends, m.objects)
  {
    var rends := Marked(m.rends, resolution, file, w, h);
    if m.rends != [] {
      assert m.rends[0].resolution == ORIGINAL;
      assert rends[0] == m.rends[0];
    }
  }

  lemma MarkedEvolves(me: nat, m: Media, rends: seq<Rendition>)
    requires RendsEvolve(m.rends, rends) && |rends| == |m.rends| && MasterOk(m)
    ensures MediaEvolves(me, m, m.(rends := rends)) && MasterOk(m.(rends := rends))
  {
    if MasterKey in m.objects {
      MarkedPublished(m, rends);
    }
  }

  lemma MarkedPublished(m: Media, rends: seq<Rendition>)
    requires RendsEvolve(m.rends, rends) && |rends| == |m.rends| && Published(m)
    ensures Published(m.(rends := rends))
  {
    forall j | 0 <= j < |m.master| ensures HasName(rends, m.master[j].resolution) {
      NameStays(m.rends, rends, m.master[j].resolution);
    }
    forall i | 0 <= i < |rends| ensures Mentions(m.master, 0, rends[i].resolution) {
      assert m.rends[i].resolution == rends[i].resolution;
    }
  }

  lemma MarkReadyKeeps(cfg: Config, me: nat, sh: Shared, resolution: string, w: int, h: int)
    requires SharedInv(cfg, sh) && resolution != ORIGINAL && Mp4Key(resolution) in sh.media.objects
    ensures var rends := Marked(sh.media.rends, resolution, KeyText(sh.vid, Mp4Key(resolution)), w, h);
            Keeps(cfg, me, sh, sh.(media := sh.media.(rends := rends)))
  {
    var file := KeyText(sh.vid, Mp4Key(resolution));
    var rends := Marked(sh.media.rends, resolution, file, w, h);
    MarkedOk(sh.media, sh.vid, sh.path, resolution, w, h);
    MarkedKeepsRows(sh.media, file, sh.path, resolution, w, h);
    VariantsStay(sh.media.rends, rends, sh.media.objects);
    MarkedEvolves(me, sh.media, rends);
    MediaStepKeeps(cfg, me, sh, sh.media.(rends := rends));
  }

  // ---------------------------------------------------------------- finalize and expire

  lemma KeyTextNotEmpty(vid: string, key: Key)
    ensures KeyText(vid, key) != ""
  {
    assert |KeyText(vid, key)| >= 7;
  }

  lemma CommitKeeps(cfg: Config, me: nat, sh: Shared)
    requires SharedInv(cfg, sh)
    ensures Keeps(cfg, me, sh, Committed(sh))
  {
    var sh' := Committed(sh);
    KeyTextNotEmpty(sh.vid, OriginalKey);
    SameMediaEvolves(me, sh.media);
    SameRowsEvolve(sh.rows);
    ReportsStay(cfg, me, sh, sh');
    if sh.path == "" {
      assert sh.media.rends == [];
    } else {
      assert sh'.path == sh.path;
    }
  }

  lemma ExpireKeeps(cfg: Config, me: nat, sh: Shared)
    requires SharedInv(cfg, sh)
    ensures Keeps(cfg, me, sh, sh.(upStatus := UploadExpired, deleted := true, videoDeleted := true))
  {
    SameMediaEvolves(me, sh.media);
    SameRowsEvolve(sh.rows);
  }
}
