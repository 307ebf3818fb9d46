/** What the invariant means: the promises of the pipeline, over every reachable state and every run. */
module PipelineTheorems {
  import opened Basics
  import opened Decimal
  import opened StepTable
  import opened Renditions
  import opened Playlist
  import opened Pipeline
  import opened PipelineInvariant
  import opened PipelineEffects
  import opened PipelineSteps

  // ---------------------------------------------------------------- runs

  lemma {:induction false} OneMoreAction(cfg: Config, s: State, acts: seq<Action>, a: Action)
    requires Legal(cfg, s, acts) && Enabled(cfg, Exec(cfg, s, acts), a)
    ensures Legal(cfg, s, acts + [a]) && Exec(cfg, s, acts + [a]) == Do(cfg, Exec(cfg, s, acts), a)
    decreases |acts|
  {
    if acts == [] {
      assert [] + [a] == [a];
      assert [a][1..] == [];
    } else {
      OneMoreAction(cfg, Do(cfg, s, acts[0]), acts[1..], a);
      assert (acts + [a])[1..] == acts[1..] + [a];
    }
  }

  lemma ReachableStep(cfg: Config, s: State, a: Action)
    requires Reachable(cfg, s) && Enabled(cfg, s, a)
    ensures Reachable(cfg, Do(cfg, s, a))
  {
    var s0, acts :| Init(s0) && Legal(cfg, s0, acts) && s == Exec(cfg, s0, acts);
    OneMoreAction(cfg, s0, acts, a);
  }

  // ---------------------------------------------------------------- order of the steps

  /** Chain: over all interleavings, duplicates, reorderings and crashes, with any number of
      orchestrators and workers, a step that is processing, done or failed has its predecessors done. */
  lemma ChainInvariant(cfg: Config, s: State)
    requires Reachable(cfg, s)
    ensures var rows := s.shared.rows;
            && (Started(rows, Transcode) ==> Is(rows, Metadata, Done))
            && (Started(rows, Segment) ==> Is(rows, Metadata, Done) && Is(rows, Transcode, Done))
            && (Started(rows, Publish) ==>
                Is(rows, Metadata, Done) && Is(rows, Transcode, Done) && Is(rows, Segment, Done))
  {
    ReachableOk(cfg, s);
  }

  /** Rows only move forward along a run, and a terminal row never changes again. */
  lemma {:induction false} TerminalForever(cfg: Config, s: State, acts: seq<Action>)
    requires Inv(cfg, s) && Legal(cfg, s, acts)
    ensures var after := Exec(cfg, s, acts).shared.rows;
            && (forall st <- s.shared.rows :: st in after && Rank(s.shared.rows[st]) <= Rank(after[st]))
            && (forall st <- s.shared.rows :: Terminal(s.shared.rows[st]) ==> after[st] == s.shared.rows[st])
    decreases |acts|
  {
    if acts != [] {
      RowsGoForward(cfg, s, acts[0]);
      TerminalForever(cfg, Do(cfg, s, acts[0]), acts[1..]);
    }
  }

  lemma RowsGoForward(cfg: Config, s: State, a: Action)
    requires Inv(cfg, s) && Enabled(cfg, s, a)
    ensures Inv(cfg, Do(cfg, s, a))
    ensures var after := Do(cfg, s, a).shared.rows;
            && (forall st <- s.shared.rows :: st in after && Rank(s.shared.rows[st]) <= Rank(after[st]))
            && (forall st <- s.shared.rows :: Terminal(s.shared.rows[st]) ==> after[st] == s.shared.rows[st])
  {
    StepKeeps(cfg, s, a);
  }

  /** At most once: PublishStep is called at most once per step, `finished` is written at most once, and
      no row takes more than two updates after its creation. */
  lemma AtMostOnceEffects(cfg: Config, s: State)
    requires Reachable(cfg, s)
    ensures forall st :: Count(s.shared.hist.triggerCalls, st) <= 1
    ensures s.shared.hist.finishedWrites <= 1
    ensures forall st :: Count(s.shared.hist.moves, st) <= 2
  {
    ReachableOk(cfg, s);
  }

  /** A finished upload has its four chain steps done, whatever else writes the upload status. */
  lemma FinishedIsJustified(cfg: Config, s: State)
    requires Reachable(cfg, s) && s.shared.upStatus.UploadFinished?
    ensures var rows := s.shared.rows;
            Is(rows, Metadata, Done) && Is(rows, Transcode, Done) && Is(rows, Segment, Done) && Is(rows, Publish, Done)
  {
    ReachableOk(cfg, s);
  }

  // ---------------------------------------------------------------- start

  /** An upload has a storage path exactly when it has exactly one start event; a start message, a step
      row or a trigger implies the path, so no pipeline work precedes finalize. */
  lemma TransactionalStart(cfg: Config, s: State)
    requires Reachable(cfg, s)
    ensures s.shared.startEvents <= 1
    ensures s.shared.path != "" <==> s.shared.startEvents == 1
    ensures s.shared.rows != map[] ==> s.shared.path != ""
    ensures forall i <- s.items :: !s.items[i].Finalizer? && !s.items[i].msg.ResultMsg? ==> s.shared.path != ""
    ensures forall i <- s.items :: !s.items[i].Finalizer? && s.items[i].msg.ResultMsg? ==> s.shared.path != ""
  {
    ReachableOk(cfg, s);
    forall i <- s.items | !s.items[i].Finalizer? ensures s.shared.path != "" {
      assert ItemOk(cfg, s.shared, i, s.items[i]);
    }
  }

  // ---------------------------------------------------------------- playback

  /** Reading the stored master gives one variant for every rendition of the video, each of them ready, and no
      other: no rendition twice, those without a height first and then the highest, as they were listed. */
  ghost predicate MasterComplete(m: Media) {
    && MasterKey in m.objects && m.objects[MasterKey].MasterPlaylist?
    && var read := ParseMaster(m.objects[MasterKey].text);
       && read.Some? && |read.value| == |m.master|
       && (forall j :: 0 <= j < |m.master| ==>
             read.value[j] == Variant(Bandwidth(m.master[j].resolution), m.master[j].resolution + "/playlist.m3u8"))
       && HighestFirst(m.master) && SameNames(m.rends, m.master)
  }

  predicate HighestFirst(list: seq<Rendition>) {
    forall i, j :: 0 <= i < j < |list| ==>
        && list[i].resolution != list[j].resolution
        && (list[i].height.None? || (list[j].height.Some? && list[i].height.value >= list[j].height.value))
  }

  predicate SameNames(rends: seq<Rendition>, list: seq<Rendition>) {
    && (forall i :: 0 <= i < |rends| ==> rends[i].status.RendReady? && HasName(list, rends[i].resolution))
    && (forall j :: 0 <= j < |list| ==> HasName(rends, list[j].resolution))
  }

  lemma PublishedIsComplete(m: Media)
    requires Published(m)
    ensures MasterComplete(m)
  {
    var names := Names(m.master);
    forall n <- names ensures FitsOneLine(n) {
      var j :| 0 <= j < |names| && names[j] == n;
      assert QualifiedName(m.master[j].resolution);
    }
    MasterRoundTrip(names);
    assert VARIANT_FILE == "/playlist.m3u8";
    MasterNames(m);
  }

  lemma MasterNames(m: Media)
    requires Published(m)
    ensures HighestFirst(m.master) && SameNames(m.rends, m.master)
  {
    var names := Names(m.master);
    forall i, j | 0 <= i < j < |m.master|
      ensures m.master[i].resolution != m.master[j].resolution && NotAfter(m.master[i], m.master[j])
    {
      assert names[i] != names[j];
    }
    forall i | 0 <= i < |m.rends| ensures HasName(m.master, m.rends[i].resolution) {
      assert Mentions(m.master, 0, m.rends[i].resolution);
    }
  }

  /** What a viewer finds behind a stored playback path: the whole master, and behind each of its URIs a
      playlist that can be played. */
  ghost predicate Playable(sh: Shared) {
    && sh.hls == KeyText(sh.vid, MasterKey)
    && MasterComplete(sh.media)
    && forall v <- ParseMaster(sh.media.objects[MasterKey].text).value :: VariantPlayable(sh, v)
  }

  /** The file a rendition's playlist may be cut from: the upload's own file for the source, and for any other
      one the file stored under that rendition's key, encoded for the height it is named after. */
  predicate PlayableSource(sh: Shared, resolution: string, source: string) {
    if resolution == "original" then source == sh.path
    else
      && source == KeyText(sh.vid, Mp4Key(resolution)) && Mp4Key(resolution) in sh.media.objects
      && var file := sh.media.objects[Mp4Key(resolution)];
         file.Mp4? && file.height.Some? && resolution == PrintInt(file.height.value) + "p"
  }

  /** The URI, resolved against the master's key, is the key of a playlist cut from the file of a ready
      rendition. */
  ghost predicate VariantPlayable(sh: Shared, v: Variant) {
    exists resolution ::
      && Resolve(sh.hls, v.uri) == KeyText(sh.vid, VariantKey(resolution))
      && VariantKey(resolution) in sh.media.objects
      && sh.media.objects[VariantKey(resolution)].VariantPlaylist?
      && ReadySource(sh.media.rends, resolution, sh.media.objects[VariantKey(resolution)].source)
      && PlayableSource(sh, resolution, sh.media.objects[VariantKey(resolution)].source)
      && v.bandwidth > 0
  }

  lemma SourceIsStored(sh: Shared, resolution: string, source: string)
    requires MediaOk(sh.vid, sh.path, sh.media) && ReadySource(sh.media.rends, resolution, source)
    ensures PlayableSource(sh, resolution, source)
  {
    var m := sh.media;
    var k :| 0 <= k < |m.rends| && m.rends[k].resolution == resolution
             && m.rends[k].status == RendReady && m.rends[k].storagePath == Some(source);
    assert m.rends[0].resolution == ORIGINAL;
    if k > 0 {
      assert Names(m.batch)[0] != Names(m.batch)[k];
      assert Mp4Key(resolution) in m.objects;
      assert Belongs(Mp4Key(resolution), m.objects[Mp4Key(resolution)]);
    }
  }

  lemma ListedIsPlayable(sh: Shared, j: nat)
    requires MediaOk(sh.vid, sh.path, sh.media) && Published(sh.media) && sh.hls == KeyText(sh.vid, MasterKey)
    requires j < |sh.media.master|
    ensures var n := sh.media.master[j].resolution; VariantPlayable(sh, Variant(Bandwidth(n), n + VARIANT_FILE))
  {
    var m := sh.media;
    var n := m.master[j].resolution;
    VariantUriResolves(sh.vid, n);
    assert VariantKey(n) in m.objects;
    SourceIsStored(sh, n, m.objects[VariantKey(n)].source);
  }

  lemma PlayableWhenShown(cfg: Config, s: State)
    requires Inv(cfg, s) && s.shared.hls != ""
    ensures Playable(s.shared)
  {
    var sh := s.shared;
    assert Published(sh.media);
    PublishedIsComplete(sh.media);
    var vs := ParseMaster(sh.media.objects[MasterKey].text).value;
    forall v <- vs ensures VariantPlayable(sh, v) {
      var j :| 0 <= j < |vs| && vs[j] == v;
      ListedIsPlayable(sh, j);
    }
  }

  /** End to end: in every reachable state a video whose playback path is set is playable. */
  lemma PlaybackSoundness(cfg: Config, s: State)
    requires Reachable(cfg, s) && s.shared.hls != ""
    ensures Playable(s.shared)
  {
    ReachableOk(cfg, s);
    PlayableWhenShown(cfg, s);
  }

  /** Nothing is left out: once publish is done, or the playback path is set, the stored master lists every
      rendition of the video. */
  lemma MasterListsEveryRendition(cfg: Config, s: State)
    requires Reachable(cfg, s) && (Is(s.shared.rows, Publish, Done) || s.shared.hls != "")
    ensures MasterComplete(s.shared.media) && s.shared.media.rends != []
  {
    ReachableOk(cfg, s);
    assert Is(s.shared.rows, Publish, Done) ==> WorkDone(s.shared.media, Publish);
    PublishedIsComplete(s.shared.media);
  }

  // ---------------------------------------------------------------- renditions

  /** The rows of a video whose source measures w times h: the source, ready at its path, and one row for every
      rung of the ladder below that height, named after it; while a row is pending it is as it was inserted. */
  predicate RowsFor(rends: seq<Rendition>, path: string, w: int, h: int) {
    var ladder := LadderFor(h);
    && |rends| == |ladder| + 1
    && rends[0] == Rendition("original", RendReady, Some(path), Some(w), Some(h))
    && forall k :: 0 < k < |rends| ==>
         && rends[k].resolution == PrintInt(ladder[k - 1]) + "p"
         && (rends[k].status.RendPending? ==>
               && rends[k].height == Some(ladder[k - 1]) && rends[k].storagePath.None?
               && rends[k].width == Some(ScaleWidthToEven(w, h, ladder[k - 1])))
  }

  /** Once metadata is done the rows are exactly the batch of one run for the dimensions it measured, under
      distinct names fit for the playlist. */
  lemma BatchIsWhole(cfg: Config, s: State)
    requires Reachable(cfg, s) && Is(s.shared.rows, Metadata, Done)
    ensures var rends := s.shared.media.rends;
            && s.shared.path != "" && rends != [] && rends[0].width.Some? && rends[0].height.Some?
            && RowsFor(rends, s.shared.path, rends[0].width.value, rends[0].height.value)
            && Distinct(Names(rends)) && (forall n <- Names(rends) :: QualifiedName(n))
  {
    ReachableOk(cfg, s);
    var m := s.shared.media;
    assert WorkDone(m, Metadata);
    assert Names(m.rends) == Names(m.batch);
    RowsAreMeasured(m, s.shared.path);
  }

  lemma RowsAreMeasured(m: Media, path: string)
    requires m.batchBy.Some? && BatchOk(m) && MeasuredOk(path, m) && |m.rends| == |m.batch|
    ensures RowsFor(m.rends, path, m.batch[0].width.value, m.batch[0].height.value) && m.rends[0] == m.batch[0]
  {
    var w, h := m.batch[0].width.value, m.batch[0].height.value;
    forall k | 0 <= k < |m.rends| ensures m.batch[k] == BatchRow(path, w, h, LadderFor(h), k) {}
  }

  /** A ready rendition other than the source has its own file stored, encoded for the height it is named after,
      and its path is that file's key. */
  predicate FileInPlace(sh: Shared, r: Rendition) {
    var key := Mp4Key(r.resolution);
    && r.storagePath == Some(KeyText(sh.vid, key))
    && key in sh.media.objects && sh.media.objects[key].Mp4? && sh.media.objects[key].height.Some?
    && r.resolution == PrintInt(sh.media.objects[key].height.value) + "p"
  }

  predicate FilesInPlace(sh: Shared) {
    forall k :: 0 < k < |sh.media.rends| && sh.media.rends[k].status.RendReady? ==> FileInPlace(sh, sh.media.rends[k])
  }

  /** In every reachable state all ready renditions have their files, a done thumbnail its image, and every
      rendition of a done segment step a playlist cut from its own file. */
  lemma FilesAreStored(cfg: Config, s: State)
    requires Reachable(cfg, s)
    ensures FilesInPlace(s.shared)
    ensures Is(s.shared.rows, Thumbnail, Done) ==>
              ThumbnailKey in s.shared.media.objects && s.shared.media.objects[ThumbnailKey].Image?
    ensures Is(s.shared.rows, Segment, Done) ==> PlaylistsInPlace(s.shared)
  {
    ReachableOk(cfg, s);
    FilesFollow(s.shared);
    if Is(s.shared.rows, Thumbnail, Done) {
      assert WorkDone(s.shared.media, Thumbnail);
      assert Belongs(ThumbnailKey, s.shared.media.objects[ThumbnailKey]);
    }
    if Is(s.shared.rows, Segment, Done) {
      assert WorkDone(s.shared.media, Segment);
      PlaylistsFollow(s.shared);
    }
  }

  lemma FilesFollow(sh: Shared)
    requires MediaOk(sh.vid, sh.path, sh.media)
    ensures FilesInPlace(sh)
  {
    var m := sh.media;
    forall k | 0 < k < |m.rends| && m.rends[k].status.RendReady? ensures FileInPlace(sh, m.rends[k]) {
      var key := Mp4Key(m.rends[k].resolution);
      assert key in m.objects;
      assert Belongs(key, m.objects[key]);
    }
  }

  /** Every rendition has a stored playlist, cut from the file that is its own. */
  predicate PlaylistsInPlace(sh: Shared) {
    forall k :: 0 <= k < |sh.media.rends| ==>
        var key := VariantKey(sh.media.rends[k].resolution);
        && key in sh.media.objects && sh.media.objects[key].VariantPlaylist?
        && PlayableSource(sh, sh.media.rends[k].resolution, sh.media.objects[key].source)
  }

  lemma PlaylistsFollow(sh: Shared)
    requires MediaOk(sh.vid, sh.path, sh.media) && AllSegmented(sh.media)
    ensures PlaylistsInPlace(sh)
  {
    var m := sh.media;
    forall k | 0 <= k < |m.rends|
      ensures var key := VariantKey(m.rends[k].resolution);
              key in m.objects && m.objects[key].VariantPlaylist?
              && PlayableSource(sh, m.rends[k].resolution, m.objects[key].source)
    {
      var key := VariantKey(m.rends[k].resolution);
      assert key in m.objects;
      SourceIsStored(sh, m.rends[k].resolution, m.objects[key].source);
    }
  }

  function PendingRows(rends: seq<Rendition>): set<nat> {
    set k: nat | k < |rends| && rends[k].status == RendPending
  }

  /** Resumable: while transcode may run, whatever attempts fail, are retried or overlap, the set of
      pending renditions only shrinks and no rendition row comes or goes. */
  lemma {:induction false} PendingOnlyShrinks(cfg: Config, s: State, acts: seq<Action>)
    requires Inv(cfg, s) && Legal(cfg, s, acts) && Is(s.shared.rows, Metadata, Done)
    ensures var after := Exec(cfg, s, acts).shared.media.rends;
            PendingRows(after) <= PendingRows(s.shared.media.rends) && |after| == |s.shared.media.rends|
    decreases |acts|
  {
    if acts != [] {
      PendingShrinksByStep(cfg, s, acts[0]);
      PendingOnlyShrinks(cfg, Do(cfg, s, acts[0]), acts[1..]);
    }
  }

  lemma PendingShrinksByStep(cfg: Config, s: State, a: Action)
    requires Inv(cfg, s) && Enabled(cfg, s, a) && Is(s.shared.rows, Metadata, Done)
    ensures var after := Do(cfg, s, a);
            && Inv(cfg, after) && Is(after.shared.rows, Metadata, Done)
            && PendingRows(after.shared.media.rends) <= PendingRows(s.shared.media.rends)
            && |after.shared.media.rends| == |s.shared.media.rends|
  {
    StepKeeps(cfg, s, a);
    assert WorkDone(s.shared.media, Metadata);
    PendingFollows(s.shared.media.rends, Do(cfg, s, a).shared.media.rends);
  }

  lemma PendingFollows(a: seq<Rendition>, b: seq<Rendition>)
    requires RendsEvolve(a, b) && |a| == |b|
    ensures PendingRows(b) <= PendingRows(a)
  {
    forall k | k in PendingRows(b) ensures k in PendingRows(a) {
      assert a[k].status == RendReady || a[k].status == RendPending;
    }
  }

  lemma ListingTellsPending(rends: seq<Rendition>)
    ensures Listing(rends, RendPending) == [] <==> PendingRows(rends) == {}
    ensures forall r :: r in Listing(rends, RendPending) <==> r in rends && r.status == RendPending
  {
    var list := Listing(rends, RendPending);
    ListingHoldsExactly(rends, RendPending);
    if PendingRows(rends) != {} {
      var k :| k in PendingRows(rends);
      assert rends[k] in list;
    }
    if list != [] {
      assert list[0] in list;
      var k :| 0 <= k < |rends| && rends[k] == list[0];
      assert k in PendingRows(rends);
    }
  }

  /** A retry lists exactly what is left: its list holds the pending rows and nothing else. */
  lemma RetryTakesWhatIsLeft(cfg: Config, s: State, i: nat, ch: Choice)
    requires Enabled(cfg, s, Run(i, ch)) && s.items[i].pc.ListingPending? && ch.fault.NoFault?
    ensures i in Do(cfg, s, Run(i, ch)).items
    ensures var h' := Do(cfg, s, Run(i, ch)).items[i];
            && h'.Hand?
            && (PendingRows(s.shared.media.rends) == {} <==> h'.pc == Closing(Transcode))
            && (PendingRows(s.shared.media.rends) != {} ==>
                  h'.pc.PuttingMp4? && h'.pc.k == 0
                  && forall r :: r in h'.pc.list <==> r in s.shared.media.rends && r.status == RendPending)
  {
    ListingTellsPending(s.shared.media.rends);
    ListingPendingRuns(cfg, s.shared, i, s.items[i], ch);
  }

  lemma ListingPendingRuns(cfg: Config, sh: Shared, me: nat, h: Item, ch: Choice)
    requires h.Hand? && h.pc.ListingPending? && ch.fault.NoFault?
    ensures var list := Listing(sh.media.rends, RendPending);
            StepHand(cfg, sh, me, h, ch).1 == h.(pc := if list == [] then Closing(Transcode) else PuttingMp4(list, 0))
    ensures StepCopy(cfg, sh, h, ch) == None
  {
    ListingAnswers(sh, me, ch);
    ListedGoesOn(cfg, sh, me, h, ch, Listing(sh.media.rends, RendPending));
  }

  lemma ListingAnswers(sh: Shared, me: nat, ch: Choice)
    requires ch.fault.NoFault?
    ensures Effect(sh, me, ListRenditions(RendPending), ch) == (sh, Rows(Listing(sh.media.rends, RendPending)))
  {
  }

  lemma ListedGoesOn(cfg: Config, sh: Shared, me: nat, h: Item, ch: Choice, list: seq<Rendition>)
    requires h.Hand? && h.pc.ListingPending? && Effect(sh, me, ListRenditions(RendPending), ch) == (sh, Rows(list))
    ensures StepHand(cfg, sh, me, h, ch).1 == h.(pc := if list == [] then Closing(Transcode) else PuttingMp4(list, 0))
    ensures StepCopy(cfg, sh, h, ch) == None
  {
    var call := NextCall(cfg, sh.vid, h);
    assert call == ListRenditions(RendPending) && !call.AckMessage?;
    assert SentCopy(call, h.msg, h.retries) == None;
    var pc := Resume(cfg, h, Rows(list));
    assert pc == if list == [] then Closing(Transcode) else PuttingMp4(list, 0);
  }

  /** Only the row `name`, which is not the source, changes; it becomes ready with a non-empty path and the
      measured dimensions, as far as they are positive. */
  predicate MovesOnly(rends: seq<Rendition>, rends': seq<Rendition>, name: string, path: string, w: int, h: int) {
    exists k :: 0 < k < |rends| && rends[k].resolution == name && |rends'| == |rends|
      && rends'[k].resolution == name && rends'[k].status == RendReady
      && rends'[k].storagePath == Some(path) && path != ""
      && rends'[k].width == (if w > 0 then Some(w) else None) && rends'[k].height == (if h > 0 then Some(h) else None)
      && forall j :: 0 <= j < |rends| && j != k ==> rends'[j] == rends[j]
  }

  /** Each UpdateRendition of the loop moves exactly its own row to ready, with the path of the file that was
      stored just before, and the dimensions probed from it. */
  lemma MarkMovesExactlyItsRow(cfg: Config, s: State, i: nat, ch: Choice)
    requires Reachable(cfg, s) && Enabled(cfg, s, Run(i, ch)) && s.items[i].Hand? && s.items[i].pc.Marking?
    requires s.items[i].pc.k < |s.items[i].pc.list| && TakesEffect(ch.fault)
    ensures var name := s.items[i].pc.list[s.items[i].pc.k].resolution;
            MovesOnly(s.shared.media.rends, Do(cfg, s, Run(i, ch)).shared.media.rends, name,
                KeyText(s.shared.vid, Mp4Key(name)), ch.width, ch.height)
  {
    ReachableOk(cfg, s);
    assert ItemOk(cfg, s.shared, i, s.items[i]);
    var name := s.items[i].pc.list[s.items[i].pc.k].resolution;
    MarkOne(s.shared, name, ch.width, ch.height);
    MarkRuns(cfg, s, i, ch, name);
  }

  lemma MarkRuns(cfg: Config, s: State, i: nat, ch: Choice, name: string)
    requires Enabled(cfg, s, Run(i, ch)) && s.items[i].Hand? && s.items[i].pc.Marking? && TakesEffect(ch.fault)
    requires s.items[i].pc.k < |s.items[i].pc.list| && name == s.items[i].pc.list[s.items[i].pc.k].resolution
    ensures Do(cfg, s, Run(i, ch)).shared.media.rends
         == Marked(s.shared.media.rends, name, KeyText(s.shared.vid, Mp4Key(name)), ch.width, ch.height)
  {
  }

  lemma MarkOne(sh: Shared, name: string, w: int, h: int)
    requires BatchOk(sh.media) && name != ORIGINAL && HasName(sh.media.rends, name)
    ensures var path := KeyText(sh.vid, Mp4Key(name));
            MovesOnly(sh.media.rends, Marked(sh.media.rends, name, path, w, h), name, path, w, h)
  {
    var rends := sh.media.rends;
    var k :| 0 <= k < |rends| && rends[k].resolution == name;
    KeyTextNotEmpty(sh.vid, Mp4Key(name));
    assert sh.media.batch[0].resolution == ORIGINAL && k != 0;
    forall j | 0 <= j < |rends| && j != k ensures rends[j].resolution != name {
      var a, b := if j < k then j else k, if j < k then k else j;
      assert Names(sh.media.batch)[a] != Names(sh.media.batch)[b];
    }
  }

  /** A transcode row that is done leaves no pending rendition, then or ever after. */
  lemma TranscodeDoneMeansNonePending(cfg: Config, s: State)
    requires Reachable(cfg, s) && Is(s.shared.rows, Transcode, Done)
    ensures PendingRows(s.shared.media.rends) == {} && s.shared.media.rends != []
  {
    ReachableOk(cfg, s);
    assert WorkDone(s.shared.media, Transcode);
  }

  // ---------------------------------------------------------------- all in one

  /** The order of the steps, a justified `finished`, and effects at most once. */
  ghost predicate Orderly(rows: StepRows, upStatus: UploadStatus, h: History) {
    && (forall st <- rows :: Started(rows, st) ==> PredecessorDone(rows, st))
    && (upStatus.UploadFinished? ==>
          Is(rows, Metadata, Done) && Is(rows, Transcode, Done) && Is(rows, Segment, Done) && Is(rows, Publish, Done))
    && (forall st :: Count(h.triggerCalls, st) <= 1 && Count(h.moves, st) <= 2)
    && h.finishedWrites <= 1
  }

  /** What an upload is promised: the order of its steps, a justified `finished`, effects at most once, a
      playable playback path, a whole master after publish, the transactional start, and nothing pending after
      transcode. */
  ghost predicate Promises(sh: Shared) {
    && Orderly(sh.rows, sh.upStatus, sh.hist)
    && (sh.hls != "" ==> Playable(sh))
    && (sh.path != "" <==> sh.startEvents == 1)
    && (Is(sh.rows, Publish, Done) ==> MasterComplete(sh.media))
    && (Is(sh.rows, Transcode, Done) ==> PendingRows(sh.media.rends) == {})
  }

  lemma RowsAreOrderly(rows: StepRows, upStatus: UploadStatus, h: History)
    requires RowsOk(rows) && CountsOk(rows, upStatus, h)
    ensures Orderly(rows, upStatus, h)
  {
    if upStatus.UploadFinished? {
      assert Is(rows, Publish, Done);
      assert Is(rows, Segment, Done);
      assert Is(rows, Transcode, Done);
    }
  }

  lemma DoneMeans(rows: StepRows, m: Media)
    requires WorkOk(rows, m)
    ensures Is(rows, Publish, Done) ==> Published(m)
    ensures Is(rows, Transcode, Done) ==> PendingRows(m.rends) == {}
  {
    assert Is(rows, Publish, Done) ==> WorkDone(m, Publish);
    assert Is(rows, Transcode, Done) ==> WorkDone(m, Transcode);
  }

  lemma InvPromises(cfg: Config, s: State)
    requires Inv(cfg, s)
    ensures Promises(s.shared)
  {
    var sh := s.shared;
    RowsAreOrderly(sh.rows, sh.upStatus, sh.hist);
    DoneMeans(sh.rows, sh.media);
    if sh.hls != "" { PlayableWhenShown(cfg, s); }
    if Published(sh.media) { PublishedIsComplete(sh.media); }
  }

  // ---------------------------------------------------------------- failures

  /** A step that is done has no failed result, ever. */
  lemma {:induction false} NoFailedResultAfterDone(cfg: Config, s: State, acts: seq<Action>, st: StepName)
    requires Inv(cfg, s) && Legal(cfg, s, acts) && Is(s.shared.rows, st, Done)
    ensures (st, Failed) !in Exec(cfg, s, acts).shared.hist.reported
    ensures forall i <- Exec(cfg, s, acts).items ::
              var item := Exec(cfg, s, acts).items[i]; !item.Finalizer? ==> item.msg != ResultMsg(st, Failed)
  {
    RunsKeep(cfg, s, acts);
    TerminalForever(cfg, s, acts);
    var after := Exec(cfg, s, acts);
    assert Is(after.shared.rows, st, Done);
    forall i <- after.items | !after.items[i].Finalizer? ensures after.items[i].msg != ResultMsg(st, Failed) {
      assert ItemOk(cfg, after.shared, i, after.items[i]);
    }
  }

  /** A failed result can exist only when all five rows do, so the cancel loop misses none. */
  lemma FailedResultMeansAllRows(cfg: Config, s: State, i: nat)
    requires Reachable(cfg, s) && i in s.items && !s.items[i].Finalizer?
    requires s.items[i].msg.ResultMsg? && s.items[i].msg.status.Failed?
    ensures AllRows(s.shared.rows) && Is(s.shared.rows, s.items[i].msg.step, Failed)
  {
    ReachableOk(cfg, s);
    assert ItemOk(cfg, s.shared, i, s.items[i]);
  }

  predicate AllTerminal(rows: StepRows) {
    AllRows(rows) && forall st <- rows :: Terminal(rows[st])
  }

  predicate NobodyFinishes(items: map<nat, Item>) {
    forall i <- items :: items[i].Hand? ==> !items[i].pc.Finishing?
  }

  /** One serial consumer of step results: at most one result message is in a handler. */
  predicate SerialResults(s: State) {
    forall i, j :: i in s.items && j in s.items && i != j ==>
      !(s.items[i].Hand? && s.items[i].msg.ResultMsg? && s.items[j].Hand? && s.items[j].msg.ResultMsg?)
  }

  lemma TerminalEverywhere(rows: StepRows)
    requires RowsOk(rows) && TerminalUpTo(rows, |PIPELINE_STEPS|)
    ensures AllTerminal(rows)
  {
    assert forall j :: 0 <= j < |PIPELINE_STEPS| ==> PIPELINE_STEPS[j] in rows && Terminal(rows[PIPELINE_STEPS[j]]);
    assert PIPELINE_STEPS[0] == Thumbnail && PIPELINE_STEPS[1] == Metadata && PIPELINE_STEPS[2] == Transcode
        && PIPELINE_STEPS[3] == Segment && PIPELINE_STEPS[4] == Publish;
    forall st <- rows ensures Terminal(rows[st]) {
      assert !st.OtherStep?;
    }
  }

  /** Nothing that counts has changed. */
  predicate Unmoved(a: Shared, b: Shared) {
    b.rows == a.rows && b.hist.moves == a.hist.moves && b.hist.finishedWrites == a.hist.finishedWrites
  }

  lemma FrozenStep(cfg: Config, s: State, a: Action)
    requires Inv(cfg, s) && Enabled(cfg, s, a) && AllTerminal(s.shared.rows) && NobodyFinishes(s.items)
    ensures Unmoved(s.shared, Do(cfg, s, a).shared) && NobodyFinishes(Do(cfg, s, a).items)
  {
    if a.Run? {
      FrozenRun(cfg, s, a.i, a.ch);
    } else if a.Client? {
      FrozenClient(s, a.i, a.ch);
    } else {
      FrozenOther(cfg, s, a);
    }
  }

  lemma FrozenOther(cfg: Config, s: State, a: Action)
    requires Enabled(cfg, s, a) && !a.Run? && !a.Client? && NobodyFinishes(s.items)
    ensures Unmoved(s.shared, Do(cfg, s, a).shared) && NobodyFinishes(Do(cfg, s, a).items)
  {
  }

  lemma FrozenClient(s: State, i: nat, ch: Choice)
    requires i in s.items && s.items[i].Finalizer? && NobodyFinishes(s.items)
    ensures Unmoved(s.shared, StepClient(s, i, ch).shared) && NobodyFinishes(StepClient(s, i, ch).items)
  {
  }

  lemma FrozenSettle(cfg: Config, s: State, i: nat, ch: Choice, h': Item)
    requires Enabled(cfg, s, Run(i, ch)) && NobodyFinishes(s.items) && h'.Hand? && !h'.pc.Finishing?
    requires h' == StepHand(cfg, s.shared, i, s.items[i], ch).1
    ensures NobodyFinishes(Do(cfg, s, Run(i, ch)).items)
    ensures Do(cfg, s, Run(i, ch)).shared == StepHand(cfg, s.shared, i, s.items[i], ch).0
  {
  }

  lemma FrozenRun(cfg: Config, s: State, i: nat, ch: Choice)
    requires Inv(cfg, s) && Enabled(cfg, s, Run(i, ch)) && AllTerminal(s.shared.rows) && NobodyFinishes(s.items)
    ensures Unmoved(s.shared, Do(cfg, s, Run(i, ch)).shared) && NobodyFinishes(Do(cfg, s, Run(i, ch)).items)
  {
    assert ItemOk(cfg, s.shared, i, s.items[i]);
    FrozenCall(cfg, s.shared, i, s.items[i], ch);
    FrozenSettle(cfg, s, i, ch, StepHand(cfg, s.shared, i, s.items[i], ch).1);
  }

  lemma FrozenCall(cfg: Config, sh: Shared, me: nat, h: Item, ch: Choice)
    requires h.Hand? && AllTerminal(sh.rows) && !h.pc.Finishing? && PcOk(cfg, sh, me, h.msg, h.pc)
    ensures var (sh', h') := StepHand(cfg, sh, me, h, ch); Unmoved(sh, sh') && !h'.pc.Finishing?
  {
    var call := NextCall(cfg, sh.vid, h);
    OnlyCreatingInserts(cfg, sh, me, h);
    FrozenEffect(sh, me, call, ch);
    OnlyAdvancingFinishes(cfg, sh, h, Effect(sh, me, call, ch).1);
  }

  lemma OnlyAdvancingFinishes(cfg: Config, sh: Shared, h: Item, r: Resp)
    requires h.Hand? && (NextCall(cfg, sh.vid, h).UpdateStep? ==> r != Outcome(true))
    ensures !Resume(cfg, h, r).Finishing?
  {
    HandlersStayApart(cfg, h, r);
  }

  /** With every row terminal no call changes a row or counts as an applied update. */
  lemma FrozenEffect(sh: Shared, me: nat, call: Call, ch: Choice)
    requires AllTerminal(sh.rows) && (call.InsertStep? ==> call.step in sh.rows)
    requires call != SetUpload(UploadFinished)
    ensures var (sh', r) := Effect(sh, me, call, ch); Unmoved(sh, sh') && (call.UpdateStep? ==> r != Outcome(true))
  {
    if call.UpdateStep? {
      FrozenUpdate(sh, me, call.step, call.target, ch);
    }
  }

  lemma FrozenUpdate(sh: Shared, me: nat, st: StepName, target: Status, ch: Choice)
    requires AllTerminal(sh.rows)
    ensures var (sh', r) := Effect(sh, me, UpdateStep(st, target), ch); Unmoved(sh, sh') && r != Outcome(true)
  {
    assert !Applies(sh.rows, st, target);
  }

  lemma OnlyCreatingInserts(cfg: Config, sh: Shared, me: nat, h: Item)
    requires h.Hand? && AllRows(sh.rows) && PcOk(cfg, sh, me, h.msg, h.pc)
    ensures var call := NextCall(cfg, sh.vid, h);
            (call.InsertStep? ==> call.step in sh.rows) && (call == SetUpload(UploadFinished) ==> h.pc.Finishing?)
  {
  }

  lemma {:induction false} FrozenForever(cfg: Config, s: State, acts: seq<Action>)
    requires Inv(cfg, s) && Legal(cfg, s, acts) && AllTerminal(s.shared.rows) && NobodyFinishes(s.items)
    ensures Unmoved(s.shared, Exec(cfg, s, acts).shared)
    decreases |acts|
  {
    if acts != [] {
      FrozenStep(cfg, s, acts[0]);
      StepKeeps(cfg, s, acts[0]);
      FrozenForever(cfg, Do(cfg, s, acts[0]), acts[1..]);
    }
  }

  /** A handled failure freezes the upload: when the serial result consumer has worked through the cancel
      loop of a failed result without a store error, all five rows exist and are terminal, and in no
      continuation of the run does a row change, an update apply, or `finished` get written. */
  lemma FailureFreezes(cfg: Config, s: State, i: nat, acts: seq<Action>)
    requires Reachable(cfg, s) && SerialResults(s) && Legal(cfg, s, acts)
    requires i in s.items && s.items[i].Hand? && s.items[i].pc == AllCanceled(true) && s.items[i].msg.ResultMsg?
    ensures AllTerminal(s.shared.rows)
    ensures Unmoved(s.shared, Exec(cfg, s, acts).shared)
  {
    ReachableOk(cfg, s);
    assert ItemOk(cfg, s.shared, i, s.items[i]);
    TerminalEverywhere(s.shared.rows);
    forall j <- s.items | s.items[j].Hand? ensures !s.items[j].pc.Finishing? {
      assert ItemOk(cfg, s.shared, j, s.items[j]);
    }
    FrozenForever(cfg, s, acts);
  }

  // ---------------------------------------------------------------- the stall of the shipped workers

  predicate StalledPc(pc: Pc) {
    pc.TriggeringNext? || pc.SendingNext? || pc.Finishing?
  }

  /** Nothing past the initial steps has begun. */
  predicate Stalled(s: State) {
    && !Started(s.shared.rows, Transcode) && !Started(s.shared.rows, Segment) && !Started(s.shared.rows, Publish)
    && s.shared.hist.finishedWrites == 0
    && (forall i <- s.items :: s.items[i].Hand? ==> !StalledPc(s.items[i].pc))
  }

  predicate ChainStep(st: StepName) {
    st.Transcode? || st.Segment? || st.Publish?
  }

  predicate Unstarted(rows: StepRows) {
    !Started(rows, Transcode) && !Started(rows, Segment) && !Started(rows, Publish)
  }

  /** With the workers as shipped a done result never finds its row in processing. */
  lemma DoneResultMeetsDoneRow(cfg: Config, sh: Shared, me: nat, h: Item)
    requires cfg.shipped && h.Hand? && h.pc.Advancing? && MsgOk(cfg, sh, h.msg) && PcOk(cfg, sh, me, h.msg, h.pc)
    ensures Is(sh.rows, h.pc.step, Done) && !Applies(sh.rows, h.pc.step, Done)
  {
  }

  lemma StalledUpdate(rows: StepRows, st: StepName, target: Status)
    requires Unstarted(rows) && Applies(rows, st, target) && (target.Processing? ==> !ChainStep(st))
    ensures Unstarted(rows[st := target])
  {
  }

  lemma StalledCall(sh: Shared, me: nat, st: StepName, target: Status, ch: Choice)
    requires Unstarted(sh.rows) && (target.Processing? ==> !ChainStep(st))
    ensures var sh' := Effect(sh, me, UpdateStep(st, target), ch).0;
            Unstarted(sh'.rows) && sh'.hist.finishedWrites == sh.hist.finishedWrites
  {
    if Applies(sh.rows, st, target) {
      StalledUpdate(sh.rows, st, target);
    }
  }

  lemma StalledInsert(sh: Shared, me: nat, st: StepName, ch: Choice)
    requires Unstarted(sh.rows)
    ensures var sh' := Effect(sh, me, InsertStep(st), ch).0;
            Unstarted(sh'.rows) && sh'.hist.finishedWrites == sh.hist.finishedWrites
  {
  }

  lemma StalledEffect(sh: Shared, me: nat, call: Call, ch: Choice)
    requires Unstarted(sh.rows) && sh.hist.finishedWrites == 0 && call != SetUpload(UploadFinished)
    requires call.UpdateStep? && call.target.Processing? ==> !ChainStep(call.step)
    ensures var sh' := Effect(sh, me, call, ch).0; Unstarted(sh'.rows) && sh'.hist.finishedWrites == 0
  {
    if call.UpdateStep? {
      StalledCall(sh, me, call.step, call.target, ch);
    } else if call.InsertStep? {
      StalledInsert(sh, me, call.step, ch);
    } else {
      OtherCallsKeepRows(sh, me, call, ch);
    }
  }

  lemma StalledNextCall(cfg: Config, sh: Shared, h: Item)
    requires h.Hand? && !StalledPc(h.pc)
    ensures var call := NextCall(cfg, sh.vid, h);
            call != SetUpload(UploadFinished) && (call.UpdateStep? && call.target.Processing? ==> !ChainStep(call.step))
  {
    if h.pc.Triggering? && h.pc.k < |INITIAL_STEPS| {
      assert INITIAL_STEPS[h.pc.k] == Metadata || INITIAL_STEPS[h.pc.k] == Thumbnail;
    }
  }

  lemma StalledResume(cfg: Config, h: Item, r: Resp)
    requires h.Hand? && !StalledPc(h.pc) && (h.pc.Advancing? ==> r != Outcome(true))
    ensures !StalledPc(Resume(cfg, h, r))
  {
    HandlersStayApart(cfg, h, r);
  }

  lemma StalledSettle(cfg: Config, s: State, i: nat, ch: Choice, sh': Shared, h': Item)
    requires Enabled(cfg, s, Run(i, ch)) && Stalled(s) && h'.Hand? && !StalledPc(h'.pc)
    requires (sh', h') == StepHand(cfg, s.shared, i, s.items[i], ch)
    requires Unstarted(sh'.rows) && sh'.hist.finishedWrites == 0
    ensures Stalled(Do(cfg, s, Run(i, ch)))
  {
  }

  lemma StalledRun(cfg: Config, s: State, i: nat, ch: Choice)
    requires cfg.shipped && Inv(cfg, s) && Stalled(s) && Enabled(cfg, s, Run(i, ch))
    ensures Stalled(Do(cfg, s, Run(i, ch)))
  {
    var h := s.items[i];
    assert ItemOk(cfg, s.shared, i, h);
    StalledHand(cfg, s.shared, i, h, ch);
    var (sh', h') := StepHand(cfg, s.shared, i, h, ch);
    StalledSettle(cfg, s, i, ch, sh', h');
  }

  lemma StalledHand(cfg: Config, sh: Shared, me: nat, h: Item, ch: Choice)
    requires cfg.shipped && h.Hand? && !StalledPc(h.pc) && MsgOk(cfg, sh, h.msg) && PcOk(cfg, sh, me, h.msg, h.pc)
    requires Unstarted(sh.rows) && sh.hist.finishedWrites == 0 && !ch.skipClose
    ensures var (sh', h') := StepHand(cfg, sh, me, h, ch);
            Unstarted(sh'.rows) && sh'.hist.finishedWrites == 0 && !StalledPc(h'.pc)
  {
    var call := NextCall(cfg, sh.vid, h);
    if h.pc.Advancing? { DoneResultMeetsDoneRow(cfg, sh, me, h); }
    StalledNextCall(cfg, sh, h);
    StalledEffect(sh, me, call, ch);
    StalledResume(cfg, h, Effect(sh, me, call, ch).1);
  }

  lemma StalledStep(cfg: Config, s: State, a: Action)
    requires cfg.shipped && Inv(cfg, s) && Stalled(s) && Enabled(cfg, s, a)
    ensures Stalled(Do(cfg, s, a))
  {
    if a.Run? {
      StalledRun(cfg, s, a.i, a.ch);
    } else {
      StalledOther(cfg, s, a);
    }
  }

  lemma StalledOther(cfg: Config, s: State, a: Action)
    requires Enabled(cfg, s, a) && !a.Run? && Stalled(s)
    ensures Stalled(Do(cfg, s, a))
  {
  }

  lemma {:induction false} StalledRuns(cfg: Config, s: State, acts: seq<Action>)
    requires cfg.shipped && Inv(cfg, s) && Stalled(s) && Legal(cfg, s, acts)
    ensures Stalled(Exec(cfg, s, acts))
    decreases |acts|
  {
    if acts != [] {
      StepKeeps(cfg, s, acts[0]);
      StalledStep(cfg, s, acts[0]);
      StalledRuns(cfg, Do(cfg, s, acts[0]), acts[1..]);
    }
  }

  /** The composed stall: with the workers as shipped, in every reachable state every done result that was
      ever sent meets a row that is done already, no orchestrator handler can apply its done update,
      `transcode`, `segment` and `publish` are absent, pending or canceled, and `finished` was never written. */
  lemma ShippedPipelineStalls(cfg: Config, s: State)
    requires cfg.shipped && Reachable(cfg, s)
    ensures forall st :: (st, Done) in s.shared.hist.reported ==> Is(s.shared.rows, st, Done)
    ensures forall i <- s.items :: s.items[i].Hand? && s.items[i].pc.Advancing? ==>
              !Applies(s.shared.rows, s.items[i].pc.step, Done)
    ensures forall st :: ChainStep(st) && st in s.shared.rows ==>
              s.shared.rows[st].Pending? || s.shared.rows[st].Canceled?
    ensures s.shared.hist.finishedWrites == 0 && !s.shared.upStatus.UploadFinished?
  {
    ReachableOk(cfg, s);
    var s0, acts :| Init(s0) && Legal(cfg, s0, acts) && s == Exec(cfg, s0, acts);
    InitOk(cfg, s0);
    StalledRuns(cfg, s0, acts);
    forall i <- s.items | s.items[i].Hand? && s.items[i].pc.Advancing?
      ensures !Applies(s.shared.rows, s.items[i].pc.step, Done)
    {
      assert ItemOk(cfg, s.shared, i, s.items[i]);
      DoneResultMeetsDoneRow(cfg, s.shared, i, s.items[i]);
    }
    forall st | (st, Done) in s.shared.hist.reported ensures Is(s.shared.rows, st, Done) {
      assert ReportOk(cfg, s.shared.rows, s.shared.media, (st, Done).0, (st, Done).1);
    }
  }
}
