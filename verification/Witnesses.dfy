/** Runs that show the limits of module Limits and the stuck steps of module Recovery to be real, call by
    call from a newly registered upload. */
module Witnesses {
  import opened Basics
  import opened StepTable
  import opened Renditions
  import opened Playlist
  import opened Pipeline
  import opened PipelineInvariant
  import opened PipelineSteps
  import opened PipelineTheorems
  import opened Limits
  import opened Sessions
  import opened Recovery
  import opened Runs
  import opened Finishing

  // ---------------------------------------------------------------- `finished` is lost

  /** Two clients look at the upload and its file before the first of them commits. */
  lemma TwoClients(cfg: Config, vid: string) returns (s: State)
    ensures Reachable(cfg, s) && s.shared == Unborn(vid).shared && s.next == 2
    ensures s.items == map[0 := Finalizer(Committing), 1 := Finalizer(Committing)]
  {
    var s0 := Unborn(vid);
    assert Init(s0) && Legal(cfg, s0, []) && Exec(cfg, s0, []) == s0;
    ReachableStep(cfg, s0, NewClient);
    var s1 := Do(cfg, s0, NewClient);
    ReachableStep(cfg, s1, NewClient);
    var s2 := Do(cfg, s1, NewClient);
    ReachableStep(cfg, s2, Client(0, FINE));
    var s3 := Do(cfg, s2, Client(0, FINE));
    ReachableStep(cfg, s3, Client(1, FINE));
    var s4 := Do(cfg, s3, Client(1, FINE));
    ReachableStep(cfg, s4, Client(0, FINE));
    var s5 := Do(cfg, s4, Client(0, FINE));
    ReachableStep(cfg, s5, Client(1, FINE));
    s := Do(cfg, s5, Client(1, FINE));
  }

  /** The first commits, and its start message is published. */
  lemma OneCommits(cfg: Config, vid: string) returns (sh: Shared)
    ensures Held(cfg, sh, Queued(Main, StartMsg, 0), map[1 := Finalizer(Committing)]) && Early(sh, map[])
  {
    var s0 := TwoClients(cfg, vid);
    ReachableStep(cfg, s0, Client(0, FINE));
    var s1 := Do(cfg, s0, Client(0, FINE));
    ReachableStep(cfg, s1, Dispatch);
    var s2 := Do(cfg, s1, Dispatch);
    var rest: Items := map[1 := Finalizer(Committing)];
    sh := Committed(s0.shared);
    assert s1.items == rest;
    assert s2 == State(sh, rest[2 := Queued(Main, StartMsg, 0)], 3);
    assert Somewhere(cfg, sh, Queued(Main, StartMsg, 0), rest, 3, 2);
  }

  /** When the second client commits after the upload has finished, `finished` is gone. */
  lemma FinishedIsOverwritten(cfg: Config)
    requires !cfg.shipped
    ensures exists s, a :: Reachable(cfg, s) && s.shared.upStatus.UploadFinished? && Enabled(cfg, s, a)
                           && Do(cfg, s, a).shared.upStatus.UploadProcessing?
  {
    var sh := OneCommits(cfg, "");
    var rest: Items := map[1 := Finalizer(Committing)];
    var s := StartRuns(cfg, sh, rest);
    assert rest[1] == s.items[1];
    assert Enabled(cfg, s, Client(1, FINE)) && Do(cfg, s, Client(1, FINE)).shared == Committed(s.shared);
  }

  // ---------------------------------------------------------------- a playback path is lost

  /** The thumbnail worker has read the video before it has a playback path, and metadata is still to come. */
  lemma ThumbnailHasRead(cfg: Config) returns (sh: Shared, rest: Items, p: nat)
    ensures Held(cfg, sh, Hand(TriggerMsg(Thumbnail), 0, false, WritingThumbnail("")), rest)
    ensures p in rest && rest[p] == Queued(Main, TriggerMsg(Metadata), 0)
    ensures Early(sh, Created(|PIPELINE_STEPS|)[Metadata := Processing][Thumbnail := Processing])
  {
    AllCreated();
    sh, rest, p := TwoTriggers(cfg);
    Fetches(cfg, sh, Thumbnail, rest);
    sh := PutsThumbnail(cfg, sh, rest);
    var msg := TriggerMsg(Thumbnail);
    ReadsVideo(cfg, sh, msg, ReadingForThumbnail, rest);
    assert Resume(cfg, Hand(msg, 0, false, ReadingForThumbnail), Playback("")) == WritingThumbnail("");
  }

  lemma PutsThumbnail(cfg: Config, sh: Shared, rest: Items) returns (sh': Shared)
    requires Held(cfg, sh, Hand(TriggerMsg(Thumbnail), 0, false, PuttingThumbnail), rest) && Early(sh, sh.rows)
    ensures Held(cfg, sh', Hand(TriggerMsg(Thumbnail), 0, false, ReadingForThumbnail), rest) && Early(sh', sh.rows)
  {
    var msg := TriggerMsg(Thumbnail);
    var me, r;
    me, sh', r := Turn(cfg, sh, msg, PuttingThumbnail, rest, Put(ThumbnailKey, Image), FINE);
    assert r == Fine && Resume(cfg, Hand(msg, 0, false, PuttingThumbnail), Fine) == ReadingForThumbnail;
  }

  /** Both initial steps are triggered. */
  lemma TwoTriggers(cfg: Config) returns (sh: Shared, rest: Items, p: nat)
    ensures Held(cfg, sh, Queued(Main, TriggerMsg(Thumbnail), 0), rest)
    ensures p in rest && rest[p] == Queued(Main, TriggerMsg(Metadata), 0)
    ensures Early(sh, Created(|PIPELINE_STEPS|)[Metadata := Processing][Thumbnail := Processing])
  {
    AllCreated();
    sh := Registered(cfg, "");
    sh := Starts(cfg, sh, map[]);
    sh, rest, p := PublishesAndGoesOn(cfg, sh, StartMsg, Sending(0), map[], SendTrigger(Metadata));
    assert Resume(cfg, Hand(StartMsg, 0, false, Sending(0)), Fine) == Triggering(1);
    sh := Claims(cfg, sh, StartMsg, Triggering(1), Sending(1), Thumbnail, rest);
    sh, rest := Publishes(cfg, sh, StartMsg, Sending(1), rest, SendTrigger(Thumbnail));
  }

  /** The thumbnail worker read the video, publish set its playback path, and the thumbnail worker writes the
      video back as it was. */
  lemma PlaybackIsLost(cfg: Config)
    requires !cfg.shipped
    ensures exists s, a :: Reachable(cfg, s) && s.shared.hls != "" && Enabled(cfg, s, a)
              && Do(cfg, s, a).shared.hls == ""
  {
    var sh, rest, p := ThumbnailHasRead(cfg);
    var thumb := Hand(TriggerMsg(Thumbnail), 0, false, WritingThumbnail(""));
    var rest', q := Turns(cfg, sh, thumb, rest, p);
    AllCreated();
    var s := ChainRuns(cfg, sh, sh.rows, rest');
    assert rest'[q] == s.items[q];
    assert Enabled(cfg, s, Run(q, FINE)) && WritesStale(s.items[q]);
    PlaybackLostExactlyBy(cfg, s, Run(q, FINE));
  }

  // ---------------------------------------------------------------- a step gets stuck

  /** Processing, and for good: no continuation makes the row done or failed. */
  ghost predicate StuckForGood(cfg: Config, s: State, st: StepName) {
    Reachable(cfg, s) && Is(s.shared.rows, st, Processing) && !CanBeSettled(cfg, s, st)
  }

  /** One refused publish of the trigger: the row is processing, and nothing carries it. */
  lemma TriggerIsLost(cfg: Config)
    ensures exists s :: StuckForGood(cfg, s, Metadata)
  {
    AllCreated();
    var sh := Registered(cfg, "");
    sh := Starts(cfg, sh, map[]);
    var s, me := Seen(cfg, sh, Hand(StartMsg, 0, false, Sending(0)), map[]);
    ReachableStep(cfg, s, Run(me, REFUSED));
    var after := Do(cfg, s, Run(me, REFUSED));
    RefusedPublish(cfg, s, me);
    StuckExactlyWhen(cfg, after, Metadata);
    assert StuckForGood(cfg, after, Metadata);
  }

  lemma RefusedPublish(cfg: Config, s: State, me: nat)
    requires s.items == map[me := Hand(StartMsg, 0, false, Sending(0))]
    ensures var after := Do(cfg, s, Run(me, REFUSED));
            after.shared.rows == s.shared.rows && !SomeoneCarries(after.items, Metadata)
  {
    assert NextCall(cfg, s.shared.vid, s.items[me]) == SendTrigger(Metadata);
    assert Do(cfg, s, Run(me, REFUSED)).items == map[me := Hand(StartMsg, 0, false, Returned(false))];
  }

  /** The metadata trigger is on its queue, and beside it only the hand that sent it. */
  lemma OneTrigger(cfg: Config) returns (s: State, me: nat, next: nat)
    ensures Reachable(cfg, s) && Is(s.shared.rows, Metadata, Processing) && me < next && s.next == next + 1
    ensures s.items == map[me := Hand(StartMsg, 0, false, Triggering(1)), next := Queued(Main, TriggerMsg(Metadata), 0)]
  {
    AllCreated();
    var sh := Registered(cfg, "");
    sh := Starts(cfg, sh, map[]);
    var h := Hand(StartMsg, 0, false, Sending(0));
    var sh';
    sh', me, next := PublishedBeside(cfg, sh, h, map[], SendTrigger(Metadata));
    assert Resume(cfg, h, Fine) == Triggering(1);
    var none: Items := map[];
    s := State(sh', none[me := h.(pc := Triggering(1))][next := Queued(Main, TriggerMsg(Metadata), 0)], next + 1);
    OlderIsBelow(cfg, s, me, next);
  }

  lemma OlderIsBelow(cfg: Config, s: State, me: nat, next: nat)
    requires Reachable(cfg, s) && me in s.items && me != next && s.next == next + 1
    ensures me < next
  {
    IdsBelowNext(cfg, s);
  }

  lemma StaysReachable(cfg: Config, s: State, t: State)
    requires Reachable(cfg, s) && Leads(cfg, s, t)
    ensures Reachable(cfg, t)
  {
    var s0, before :| Init(s0) && Legal(cfg, s0, before) && s == Exec(cfg, s0, before);
    var acts :| Legal(cfg, s, acts) && t == Exec(cfg, s, acts);
    ExecAppend(cfg, s0, before, acts);
  }

  /** The trigger fails until it is in the dead letters, and the failure report's own update of the row is
      refused: the row is processing, and nothing carries it. */
  lemma FailureIsLost(cfg: Config)
    ensures exists s :: StuckForGood(cfg, s, Metadata)
  {
    var s, me, next := OneTrigger(cfg);
    var rest: Items := map[me := Hand(StartMsg, 0, false, Triggering(1))];
    var trigger := Queued(Main, TriggerMsg(Metadata), 0);
    assert s.items == rest[next := trigger];
    LeadsNowhere(cfg, s);
    assert Comes(cfg, s, s.shared, rest, s.next, next, trigger);
    var n, i, d, r := FailsToDeath(cfg, s, s.shared, rest, s.next, next, Metadata, 0);
    var rest' := rest[d := Queued(Dlq, TriggerMsg(Metadata), r)];
    var h := Hand(TriggerMsg(Metadata), r, true, Failing(Metadata));
    var dying := State(s.shared, rest'[i := h], n);
    StaysReachable(cfg, s, dying);
    ReachableStep(cfg, dying, Run(i, REFUSED));
    RefusedReport(cfg, s.shared, rest', n, i, h);
    var after := Do(cfg, dying, Run(i, REFUSED));
    StuckExactlyWhen(cfg, after, Metadata);
    assert StuckForGood(cfg, after, Metadata);
  }

  lemma RefusedReport(cfg: Config, sh: Shared, rest: Items, next: nat, i: nat, h: Item)
    requires h.Hand? && h.acked && h.pc == Failing(Metadata) && i !in rest && !SomeoneCarries(rest, Metadata)
    ensures var after := Do(cfg, State(sh, rest[i := h], next), Run(i, REFUSED));
            after.shared == sh && !SomeoneCarries(after.items, Metadata)
  {
    assert NextCall(cfg, sh.vid, h) == UpdateStep(Metadata, Failed);
    assert StepHand(cfg, sh, i, h, REFUSED) == (sh, h.(pc := Gone)) && StepCopy(cfg, sh, h, REFUSED) == None;
    assert rest[i := h] - {i} == rest;
    assert Do(cfg, State(sh, rest[i := h], next), Run(i, REFUSED)) == State(sh, rest, next);
  }

  // ---------------------------------------------------------------- a batch is abandoned

  lemma TwoRows(path: string)
    ensures |BatchFor(path, 640, 480, LadderFor(480))| > 1
  {
    LadderDescends(480);
    assert DEFAULT_LADDER[3] == 360;
    assert 360 in LadderFor(480);
  }

  /** The metadata worker has inserted the source and is about to insert the first target. */
  lemma BatchIsBegun(cfg: Config) returns (s: State, me: nat)
    ensures Reachable(cfg, s) && me in s.items && InsertGoesOn(s.items[me])
    ensures s.shared.media.rends != [] && !s.shared.media.batchClosed && s.shared.media.batchBy == Some(me)
  {
    AllCreated();
    var sh := Registered(cfg, "");
    sh := Starts(cfg, sh, map[]);
    var rest;
    sh, rest := Publishes(cfg, sh, StartMsg, Sending(0), map[], SendTrigger(Metadata));
    var batch := Measures(cfg, sh, rest, 640, 480);
    WritesMetadata(cfg, sh, batch, rest);
    TwoRows(sh.path);
    s, me := InsertsFirst(cfg, sh, batch, rest);
  }

  lemma InsertsFirst(cfg: Config, sh: Shared, batch: seq<Rendition>, rest: Items) returns (s: State, me: nat)
    requires Held(cfg, sh, Hand(TriggerMsg(Metadata), 0, false, Inserting(batch, 0)), rest)
    requires |batch| > 1 && sh.media.rends == []
    ensures Reachable(cfg, s) && me in s.items && InsertGoesOn(s.items[me])
    ensures s.shared.media.rends != [] && !s.shared.media.batchClosed && s.shared.media.batchBy == Some(me)
  {
    var msg := TriggerMsg(Metadata);
    var me', sh', r := Turn(cfg, sh, msg, Inserting(batch, 0), rest, InsertRendition(batch, 0), FINE);
    assert r == Fine && sh'.media == AfterInsert(sh.media, me', batch, 0);
    GoesOnInserting(cfg, msg, batch);
    s, me := Seen(cfg, sh', Hand(msg, 0, false, Inserting(batch, 1)), rest);
    OwnerIsNotThrough(cfg, s, me);
  }

  lemma GoesOnInserting(cfg: Config, msg: Msg, batch: seq<Rendition>)
    requires |batch| > 1
    ensures Resume(cfg, Hand(msg, 0, false, Inserting(batch, 0)), Fine) == Inserting(batch, 1)
  {
  }

  lemma OwnerIsNotThrough(cfg: Config, s: State, me: nat)
    requires Reachable(cfg, s) && me in s.items && InsertGoesOn(s.items[me])
    ensures s.shared.media.rends != [] && !s.shared.media.batchClosed && s.shared.media.batchBy == Some(me)
  {
    ReachableOk(cfg, s);
    assert ItemOk(cfg, s.shared, me, s.items[me]);
  }

  /** Its process dies between two inserts. */
  lemma BatchIsAbandoned(cfg: Config)
    ensures exists s :: Reachable(cfg, s) && Abandoned(s)
  {
    var s, me := BatchIsBegun(cfg);
    ReachableStep(cfg, s, Crash(me));
    var after := Do(cfg, s, Crash(me));
    ReachableOk(cfg, after);
    forall i | i in after.items ensures !InsertGoesOn(after.items[i]) {
      if i != me { assert ItemOk(cfg, after.shared, i, after.items[i]); }
    }
  }
}
