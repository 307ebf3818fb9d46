/** Many uploads side by side, and how the tables that hold all of them project to the machine of one. */
module System {
  import opened Basics
  import opened StepTable
  import opened Renditions
  import opened Playlist
  import opened Pipeline
  import opened PipelineInvariant
  import opened PipelineTheorems
  import PipelineSteps
  import Uploads
  import Outbox

  // ---------------------------------------------------------------- any number of uploads

  datatype Everything = Everything(uploads: map<string, State>)

  datatype Event = Register(id: string, vid: string) | At(id: string, act: Action)

  const UUID_LENGTH := 36

  ghost predicate Possible(cfg: Config, all: Everything, e: Event) {
    match e
    case Register(id, vid) =>
      id !in all.uploads && |vid| == UUID_LENGTH && forall u <- all.uploads :: all.uploads[u].shared.vid != vid
    case At(id, act) => id in all.uploads && Enabled(cfg, all.uploads[id], act)
  }

  ghost function Happen(cfg: Config, all: Everything, e: Event): Everything
    requires Possible(cfg, all, e)
  {
    match e
    case Register(id, vid) => Everything(all.uploads[id := Unborn(vid)])
    case At(id, act) => Everything(all.uploads[id := Do(cfg, all.uploads[id], act)])
  }

  ghost predicate Feasible(cfg: Config, all: Everything, events: seq<Event>)
    decreases |events|
  {
    events == [] || (Possible(cfg, all, events[0]) && Feasible(cfg, Happen(cfg, all, events[0]), events[1..]))
  }

  ghost function Outcome(cfg: Config, all: Everything, events: seq<Event>): Everything
    requires Feasible(cfg, all, events)
    decreases |events|
  {
    if events == [] then all else Outcome(cfg, Happen(cfg, all, events[0]), events[1..])
  }

  ghost predicate EachReachable(cfg: Config, all: Everything) {
    && (forall id <- all.uploads :: Reachable(cfg, all.uploads[id]) && |all.uploads[id].shared.vid| == UUID_LENGTH)
    && (forall a, b :: a in all.uploads && b in all.uploads && a != b ==>
        all.uploads[a].shared.vid != all.uploads[b].shared.vid)
  }

  lemma FreshIsReachable(cfg: Config, vid: string)
    ensures Reachable(cfg, Unborn(vid))
  {
    assert Init(Unborn(vid)) && Legal(cfg, Unborn(vid), []) && Exec(cfg, Unborn(vid), []) == Unborn(vid);
  }

  lemma VideoStays(cfg: Config, s: State, act: Action)
    requires Reachable(cfg, s) && Enabled(cfg, s, act)
    ensures Do(cfg, s, act).shared.vid == s.shared.vid
  {
    PipelineSteps.ReachableOk(cfg, s);
    PipelineSteps.StepKeeps(cfg, s, act);
  }

  lemma EventKeeps(cfg: Config, all: Everything, e: Event)
    requires EachReachable(cfg, all) && Possible(cfg, all, e)
    ensures EachReachable(cfg, Happen(cfg, all, e))
    ensures e.At? ==> forall id <- all.uploads :: id != e.id ==> Happen(cfg, all, e).uploads[id] == all.uploads[id]
  {
    match e
    case Register(id, vid) => FreshIsReachable(cfg, vid);
    case At(id, act) =>
      ReachableStep(cfg, all.uploads[id], act);
      VideoStays(cfg, all.uploads[id], act);
  }

  lemma {:induction false} HistoryKeeps(cfg: Config, all: Everything, events: seq<Event>)
    requires EachReachable(cfg, all) && Feasible(cfg, all, events)
    ensures EachReachable(cfg, Outcome(cfg, all, events))
    decreases |events|
  {
    if events != [] {
      EventKeeps(cfg, all, events[0]);
      HistoryKeeps(cfg, Happen(cfg, all, events[0]), events[1..]);
    }
  }

  /** With any number of uploads interleaved in any way, every upload keeps every promise: the order of its
      steps, a justified `finished`, effects at most once, a playable playback path. */
  lemma EveryUploadIsSafe(cfg: Config, events: seq<Event>, id: string)
    requires Feasible(cfg, Everything(map[]), events) && id in Outcome(cfg, Everything(map[]), events).uploads
    ensures Promises(Outcome(cfg, Everything(map[]), events).uploads[id].shared)
  {
    HistoryKeeps(cfg, Everything(map[]), events);
    var s := Outcome(cfg, Everything(map[]), events).uploads[id];
    PipelineSteps.ReachableOk(cfg, s);
    InvPromises(cfg, s);
  }

  /** Two uploads never write the same object. */
  lemma ObjectsStayApart(cfg: Config, events: seq<Event>, a: string, b: string, j: Key, k: Key)
    requires Feasible(cfg, Everything(map[]), events) && a != b
    requires a in Outcome(cfg, Everything(map[]), events).uploads
               && b in Outcome(cfg, Everything(map[]), events).uploads
    ensures var all := Outcome(cfg, Everything(map[]), events).uploads;
            KeyText(all[a].shared.vid, j) != KeyText(all[b].shared.vid, k)
  {
    HistoryKeeps(cfg, Everything(map[]), events);
    var all := Outcome(cfg, Everything(map[]), events).uploads;
    if KeyText(all[a].shared.vid, j) == KeyText(all[b].shared.vid, k) {
      KeyTextInjective(all[a].shared.vid, j, all[b].shared.vid, k);
    }
  }

  // ---------------------------------------------------------------- one upload's view of the tables

  function StepsOf(rows: map<(string, StepName), StepRow>, uploadID: string): map<StepName, Status> {
    map k <- rows | k.0 == uploadID :: k.1 := rows[k].status
  }

  /** The guarded update of the table is the pipeline's update of one upload, and no other upload sees it. */
  lemma UpdateProjects(rows: map<(string, StepName), StepRow>, uploadID: string, step: StepName, row: StepRow)
    ensures (uploadID, step) in rows && GuardAllows(rows[(uploadID, step)].status, row.status)
            <==> Applies(StepsOf(rows, uploadID), step, row.status)
    ensures StepsOf(rows[(uploadID, step) := row], uploadID) == StepsOf(rows, uploadID)[step := row.status]
    ensures forall other :: other != uploadID ==> StepsOf(rows[(uploadID, step) := row], other) == StepsOf(rows, other)
  {
    forall x ensures (uploadID, x) in rows <==> x in StepsOf(rows, uploadID) {}
    var after := rows[(uploadID, step) := row];
    forall x | x in StepsOf(after, uploadID) ensures (uploadID, x) in after {}
    forall other | other != uploadID ensures StepsOf(after, other) == StepsOf(rows, other) {
      forall x ensures x in StepsOf(after, other) <==> x in StepsOf(rows, other) {
        assert (other, x) in after <==> (other, x) in rows;
        assert x in StepsOf(after, other) <==> (other, x) in after;
        assert x in StepsOf(rows, other) <==> (other, x) in rows;
      }
    }
  }

  /** The finalize transaction is the pipeline's commit: the same path, the same status, and the start event
      inserted only once. */
  lemma FinalizeProjects(uploads: Uploads.UploadRows, events: Outbox.Events, next: nat, id: string, payload: string,
      now: int, sh: Shared)
    requires id in uploads && uploads[id].videoID == sh.vid && uploads[id].path == sh.path
    requires sh.startEvents <= 1 && (sh.startEvents == 1 <==> Outbox.HasKey(events, Outbox.START_EVENT, id))
    ensures var uploads' := Uploads.AfterFinalize(uploads, id, KeyText(sh.vid, OriginalKey));
            var events' := Uploads.AfterStart(events, next, Outbox.START_EVENT, id, payload, now);
            && uploads'[id].path == Committed(sh).path && uploads'[id].state.InProgress?
                && Committed(sh).upStatus.UploadProcessing?
            && Committed(sh).startEvents == 1 && Outbox.HasKey(events', Outbox.START_EVENT, id)
  {
    if !Outbox.HasKey(events, Outbox.START_EVENT, id) {
      var events' := Uploads.AfterStart(events, next, Outbox.START_EVENT, id, payload, now);
      assert events'[next].kind == Outbox.START_EVENT && events'[next].key == id;
    }
  }

  /** The expire transaction is the pipeline's: the row is expired and deleted and its video with it, and to
      other uploads nothing has happened. */
  lemma ExpireProjects(cfg: Config, uploads: Uploads.UploadRows, videos: Uploads.VideoRows, id: string, now: int,
      s: State)
    requires Uploads.Expirable(uploads, id, s.shared.vid, now) && s.shared.vid in videos
    requires s.shared.upStatus.UploadPending? && !s.shared.deleted
    ensures var uploads' := Uploads.AfterExpire(uploads, id, s.shared.vid, now);
            var videos' := Uploads.AfterSoftDelete(videos, s.shared.vid);
            var sh := Do(cfg, s, Expire).shared;
            && uploads'[id].state.Expired? && sh.upStatus.UploadExpired?
            && uploads'[id].deleted && sh.deleted && videos'[s.shared.vid].deleted && sh.videoDeleted
            && uploads'[id].path == uploads[id].path && sh.path == s.shared.path
            && (forall other <- uploads :: other != id ==> uploads'[other] == uploads[other])
            && (forall v <- videos :: v != s.shared.vid ==> videos'[v] == videos[v])
  {
  }

  /** The rows of one video in the table are the renditions of its machine. */
  predicate SameRenditions(rows: Table, vid: string, rends: seq<Rendition>) {
    && Distinct(Names(rends))
    && (forall k :: 0 <= k < |rends| ==>
          (vid, rends[k].resolution) in rows && rows[(vid, rends[k].resolution)].rend == rends[k])
    && (forall key <- rows :: key.0 == vid ==> HasName(rends, key.1))
  }

  /** An insert meets a taken key in the table exactly when the machine's rendition has a taken name, and
      otherwise appends the same row to both. */
  lemma InsertProjects(rows: Table, vid: string, rends: seq<Rendition>, row: RenditionRow)
    requires SameRenditions(rows, vid, rends)
    ensures (vid, row.rend.resolution) in rows <==> HasName(rends, row.rend.resolution)
    ensures (vid, row.rend.resolution) !in rows ==>
              SameRenditions(rows[(vid, row.rend.resolution) := row], vid, rends + [row.rend])
  {
    var name := row.rend.resolution;
    if HasName(rends, name) {
      var k :| 0 <= k < |rends| && rends[k].resolution == name;
      assert (vid, rends[k].resolution) in rows;
    } else {
      var rends' := rends + [row.rend];
      assert Names(rends') == Names(rends) + [name];
      forall k | 0 <= k < |rends| ensures Names(rends)[k] != name {
        assert rends[k].resolution != name;
      }
      forall key <- rows[(vid, name) := row] | key.0 == vid ensures HasName(rends', key.1) {
        NameInAppended(rends, row.rend, key.1);
      }
    }
  }

  lemma NameInAppended(rends: seq<Rendition>, last: Rendition, name: string)
    requires HasName(rends, name) || last.resolution == name
    ensures HasName(rends + [last], name)
  {
    if HasName(rends, name) {
      var k :| 0 <= k < |rends| && rends[k].resolution == name;
      assert (rends + [last])[k].resolution == name;
    } else {
      assert (rends + [last])[|rends|] == last;
    }
  }

  /** The rendition update of the table is the machine's. */
  lemma MarkProjects(rows: Table, vid: string, rends: seq<Rendition>, name: string, path: string, w: int, h: int,
      format: string)
    requires SameRenditions(rows, vid, rends)
    ensures var rend := Rendition(name, RendReady, Some(path), PositiveOnly(Some(w)), PositiveOnly(Some(h)));
            SameRenditions(Rewritten(rows, vid, rend, None, format), vid, Marked(rends, name, path, w, h))
  {
    var rend := Rendition(name, RendReady, Some(path), PositiveOnly(Some(w)), PositiveOnly(Some(h)));
    var rows' := Rewritten(rows, vid, rend, None, format);
    var rends' := Marked(rends, name, path, w, h);
    assert Names(rends') == Names(rends);
    forall k | 0 <= k < |rends'|
      ensures (vid, rends'[k].resolution) in rows' && rows'[(vid, rends'[k].resolution)].rend == rends'[k]
    {
      assert (vid, rends[k].resolution) in rows;
    }
    forall key <- rows' | key.0 == vid ensures HasName(rends', key.1) {
      assert key in rows;
      var k :| 0 <= k < |rends| && rends[k].resolution == key.1;
      assert rends'[k].resolution == key.1;
    }
  }
}
