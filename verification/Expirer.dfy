/** Any number of expirer runs over the uploads and videos tables, beside clients that finalize and workers
    that write statuses. */
module Expirer {
  import opened Basics
  import opened Uploads

  // ---------------------------------------------------------------- the machine

  datatype Result = Result(found: nat, expired: nat, skipped: nat)

  datatype Stage = ToList(limit: int) | Looping | Ended(ok: bool) | Died

  datatype Run = Run(stage: Stage, list: seq<Candidate>, k: nat, res: Result)

  /** `unheard` is history: expire transactions that committed without their run hearing of it. */
  datatype World = World(now: int, uploads: UploadRows, videos: VideoRows, runs: seq<Run>, unheard: nat)

  datatype Step =
    | Request(id: string, videoID: string, expiresAt: Option<int>)   // a new video and its upload
    | Finalize(id: string, path: string)
    | SetStatus(id: string, state: UploadState)
    | Tick(seconds: nat)
    | Begin(limit: int)
    | List(r: nat, list: seq<Candidate>, ok: bool)
    | ExpireNext(r: nat, fate: Fate)
    | Die(r: nat)

  predicate Enabled(w: World, e: Step) {
    match e
    case Request(id, videoID, _) => id !in w.uploads && videoID !in w.videos
    case Finalize(_, _) => true
    case SetStatus(_, _) => true
    case Tick(_) => true
    case Begin(_) => true
    case List(r, list, _) =>
      r < |w.runs| && w.runs[r].stage.ToList? && ListedAsRead(w.uploads, w.now, list)
          && |list| <= ListLimit(w.runs[r].stage.limit)
    case ExpireNext(r, _) => r < |w.runs| && w.runs[r].stage.Looping? && w.runs[r].k < |w.runs[r].list|
    case Die(r) => r < |w.runs|
  }

  function StageAt(list: seq<Candidate>, k: nat): Stage {
    if k < |list| then Looping else Ended(true)
  }

  function RunAfterList(run: Run, list: seq<Candidate>, ok: bool): Run {
    if ok then Run(StageAt(list, 0), list, 0, Result(|list|, 0, 0)) else run.(stage := Ended(false))
  }

  function RunAfterExpire(run: Run, expired: bool, fate: Fate): Run {
    if !fate.Works? then run.(stage := Ended(false))
    else
      Run(StageAt(run.list, run.k + 1), run.list, run.k + 1,
          if expired then run.res.(expired := run.res.expired + 1) else run.res.(skipped := run.res.skipped + 1))
  }

  function Do(w: World, e: Step): World
    requires Enabled(w, e)
  {
    match e
    case Request(id, videoID, expiresAt) =>
      w.(uploads := w.uploads[id := Upload(videoID, "", Waiting, false, expiresAt, 0)],
         videos := w.videos[videoID := Video("processing", false)])
    case Finalize(id, path) => w.(uploads := AfterFinalize(w.uploads, id, path))
    case SetStatus(id, state) =>
      if id in w.uploads then w.(uploads := w.uploads[id := w.uploads[id].(state := state)]) else w
    case Tick(seconds) => w.(now := w.now + seconds)
    case Begin(limit) => w.(runs := w.runs + [Run(ToList(limit), [], 0, Result(0, 0, 0))])
    case List(r, list, ok) => w.(runs := w.runs[r := RunAfterList(w.runs[r], list, ok)])
    case ExpireNext(r, fate) =>
      var run := w.runs[r];
      var c := run.list[run.k];
      var hit := Expirable(w.uploads, c.id, c.videoID, w.now);
      w.(uploads := if fate.Refuses? then w.uploads else AfterExpire(w.uploads, c.id, c.videoID, w.now),
         videos := if fate.Refuses? || !hit then w.videos else AfterSoftDelete(w.videos, c.videoID),
         unheard := w.unheard + (if fate.WorksUnheard? && hit then 1 else 0),
         runs := w.runs[r := RunAfterExpire(run, hit, fate)])
    case Die(r) => w.(runs := w.runs[r := w.runs[r].(stage := if w.runs[r].stage.Ended? then w.runs[r].stage
        else Died)])
  }

  ghost predicate Legal(w: World, steps: seq<Step>)
    decreases |steps|
  {
    steps == [] || (Enabled(w, steps[0]) && Legal(Do(w, steps[0]), steps[1..]))
  }

  ghost function Exec(w: World, steps: seq<Step>): World
    requires Legal(w, steps)
    decreases |steps|
  {
    if steps == [] then w else Exec(Do(w, steps[0]), steps[1..])
  }

  predicate Init(w: World) {
    w.uploads == map[] && w.videos == map[] && w.runs == [] && w.unheard == 0
  }

  ghost predicate Reachable(w: World) {
    exists w0, steps :: Init(w0) && Legal(w0, steps) && w == Exec(w0, steps)
  }

  // ---------------------------------------------------------------- the invariant

  function Deleted(uploads: UploadRows): set<string> {
    set id | id in uploads && uploads[id].deleted
  }

  function TotalExpired(runs: seq<Run>): nat {
    if runs == [] then 0 else TotalExpired(runs[..|runs| - 1]) + runs[|runs| - 1].res.expired
  }

  predicate RunOk(run: Run) {
    && run.k <= |run.list|
    && (run.stage.ToList? ==> run.list == [] && run.res == Result(0, 0, 0))
    && (run.stage.Looping? ==> run.k < |run.list|)
    && (run.stage == Ended(true) ==> run.k == |run.list|)
    && (run.stage.Looping? || run.stage == Ended(true) ==>
          run.res.found == |run.list| && run.res.expired + run.res.skipped == run.k)
  }

  predicate UploadOk(videos: VideoRows, u: Upload) {
    && u.videoID in videos
    && u.expirations == (if u.deleted then 1 else 0)
    && (u.deleted ==> videos[u.videoID].deleted)
  }

  predicate Inv(w: World) {
    && (forall r :: 0 <= r < |w.runs| ==> RunOk(w.runs[r]))
    && (forall id <- w.uploads :: UploadOk(w.videos, w.uploads[id]))
    && TotalExpired(w.runs) + w.unheard == |Deleted(w.uploads)|
  }

  lemma {:induction false} TotalAfter(runs: seq<Run>, r: nat, run: Run)
    requires r < |runs|
    ensures TotalExpired(runs[r := run]) + runs[r].res.expired == TotalExpired(runs) + run.res.expired
    decreases |runs|
  {
    var n := |runs| - 1;
    if r == n {
      assert runs[r := run][..n] == runs[..n];
    } else {
      TotalAfter(runs[..n], r, run);
      assert runs[r := run][..n] == runs[..n][r := run];
    }
  }

  lemma TotalAppend(runs: seq<Run>, run: Run)
    ensures TotalExpired(runs + [run]) == TotalExpired(runs) + run.res.expired
  {
    assert (runs + [run])[..|runs|] == runs;
  }

  /** Rewriting a row without touching its deletion leaves the deleted set as it is. */
  lemma DeletedStays(uploads: UploadRows, id: string, u: Upload)
    requires id in uploads ==> u.deleted == uploads[id].deleted
    requires id !in uploads ==> !u.deleted
    ensures Deleted(uploads[id := u]) == Deleted(uploads)
  {
  }

  lemma ExpireAddsOne(uploads: UploadRows, id: string, videoID: string, now: int)
    requires Expirable(uploads, id, videoID, now)
    ensures |Deleted(AfterExpire(uploads, id, videoID, now))| == |Deleted(uploads)| + 1
  {
    assert Deleted(AfterExpire(uploads, id, videoID, now)) == Deleted(uploads) + {id};
  }

  lemma ExpireNextKeeps(w: World, r: nat, fate: Fate)
    requires Inv(w) && Enabled(w, ExpireNext(r, fate))
    ensures Inv(Do(w, ExpireNext(r, fate)))
  {
    var run := w.runs[r];
    var c := run.list[run.k];
    var hit := Expirable(w.uploads, c.id, c.videoID, w.now);
    TotalAfter(w.runs, r, RunAfterExpire(run, hit, fate));
    assert RunOk(run);
    if hit && !fate.Refuses? {
      ExpireAddsOne(w.uploads, c.id, c.videoID, w.now);
    }
  }

  lemma RowStepKeeps(w: World, e: Step)
    requires Inv(w) && Enabled(w, e) && (e.Request? || e.Finalize? || e.SetStatus?)
    ensures Inv(Do(w, e))
  {
    match e
    case Request(id, videoID, expiresAt) => DeletedStays(w.uploads, id,
        Upload(videoID, "", Waiting, false, expiresAt, 0));
    case Finalize(id, path) =>
      if id in w.uploads { DeletedStays(w.uploads, id, w.uploads[id].(path := path, state := InProgress)); }
    case SetStatus(id, state) =>
      if id in w.uploads { DeletedStays(w.uploads, id, w.uploads[id].(state := state)); }
  }

  lemma RunStepKeeps(w: World, e: Step)
    requires Inv(w) && Enabled(w, e) && (e.Begin? || e.List? || e.Die?)
    ensures Inv(Do(w, e))
  {
    match e
    case Begin(limit) => TotalAppend(w.runs, Run(ToList(limit), [], 0, Result(0, 0, 0)));
    case List(r, list, ok) => TotalAfter(w.runs, r, RunAfterList(w.runs[r], list, ok));
    case Die(r) => TotalAfter(w.runs, r, w.runs[r].(stage := if w.runs[r].stage.Ended? then w.runs[r].stage else Died));
  }

  lemma StepKeeps(w: World, e: Step)
    requires Inv(w) && Enabled(w, e)
    ensures Inv(Do(w, e))
  {
    if e.ExpireNext? {
      ExpireNextKeeps(w, e.r, e.fate);
    } else if e.Begin? || e.List? || e.Die? {
      RunStepKeeps(w, e);
    } else if e.Request? || e.Finalize? || e.SetStatus? {
      RowStepKeeps(w, e);
    }
  }

  lemma {:induction false} RunsKeep(w: World, steps: seq<Step>)
    requires Inv(w) && Legal(w, steps)
    ensures Inv(Exec(w, steps))
    decreases |steps|
  {
    if steps != [] {
      StepKeeps(w, steps[0]);
      RunsKeep(Do(w, steps[0]), steps[1..]);
    }
  }

  lemma ReachableOk(w: World)
    requires Reachable(w)
    ensures Inv(w)
  {
    var w0, steps :| Init(w0) && Legal(w0, steps) && w == Exec(w0, steps);
    assert Deleted(w0.uploads) == {};
    RunsKeep(w0, steps);
  }

  // ---------------------------------------------------------------- what it means

  /** Conservation: each upload expires at most once, exactly if it is soft deleted, and then its video is
      soft deleted too; the runs' counts, and the commits nobody heard of, add up to the deleted uploads. */
  lemma Conservation(w: World)
    requires Reachable(w)
    ensures forall id <- w.uploads :: w.uploads[id].expirations <= 1
              && (w.uploads[id].expirations == 1 <==> w.uploads[id].deleted)
    ensures forall id <- w.uploads :: w.uploads[id].deleted ==>
              w.uploads[id].videoID in w.videos && w.videos[w.uploads[id].videoID].deleted
    ensures TotalExpired(w.runs) + w.unheard == |Deleted(w.uploads)|
    ensures forall r :: 0 <= r < |w.runs| && w.runs[r].stage == Ended(true) ==>
              w.runs[r].res.found == |w.runs[r].list| == w.runs[r].res.expired + w.runs[r].res.skipped
  {
    ReachableOk(w);
    forall id <- w.uploads
      ensures w.uploads[id].expirations <= 1 && (w.uploads[id].expirations == 1 <==> w.uploads[id].deleted)
      ensures w.uploads[id].deleted ==> w.uploads[id].videoID in w.videos && w.videos[w.uploads[id].videoID].deleted
    {
      assert UploadOk(w.videos, w.uploads[id]);
    }
    forall r | 0 <= r < |w.runs| && w.runs[r].stage == Ended(true)
      ensures w.runs[r].res.found == |w.runs[r].list| == w.runs[r].res.expired + w.runs[r].res.skipped
    {
      assert RunOk(w.runs[r]);
    }
  }

  /** Runs whose commits are all heard. */
  predicate Heard(e: Step) {
    e.ExpireNext? ==> !e.fate.WorksUnheard?
  }

  lemma {:induction false} HeardRuns(w: World, steps: seq<Step>)
    requires Legal(w, steps) && forall e <- steps :: Heard(e)
    ensures Exec(w, steps).unheard == w.unheard
    decreases |steps|
  {
    if steps != [] {
      assert Heard(steps[0]);
      HeardRuns(Do(w, steps[0]), steps[1..]);
    }
  }

  /** Without commit errors the counts of all runs add up to exactly the soft-deleted uploads. */
  lemma CountsAddUp(w0: World, steps: seq<Step>)
    requires Init(w0) && Legal(w0, steps) && forall e <- steps :: Heard(e)
    ensures TotalExpired(Exec(w0, steps).runs) == |Deleted(Exec(w0, steps).uploads)|
  {
    HeardRuns(w0, steps);
    ReachableOk(Exec(w0, steps));
  }

  /** The next candidate of a run. */
  function Next(w: World, r: nat): Candidate
    requires r < |w.runs| && w.runs[r].k < |w.runs[r].list|
  {
    w.runs[r].list[w.runs[r].k]
  }

  /** A step deletes an upload exactly if it is an expire transaction that takes effect on it as its candidate, and
      the upload, at that very moment, is still pending and past its expiry; then it is expired and its video
      failed and deleted with it. An upload once deleted stays so. */
  lemma ExpiresExactlyWhatIsStale(w: World, e: Step, id: string)
    requires Reachable(w) && Enabled(w, e) && id in w.uploads
    ensures id in Do(w, e).uploads
    ensures w.uploads[id].deleted ==> Do(w, e).uploads[id].deleted
    ensures !w.uploads[id].deleted ==>
              var u, u' := w.uploads[id], Do(w, e).uploads[id];
              && (u'.deleted <==>
                    && e.ExpireNext? && !e.fate.Refuses? && Next(w, e.r) == Candidate(id, u.videoID)
                    && u.state.Waiting? && u.expiresAt.Some? && u.expiresAt.value <= w.now)
              && (u'.deleted ==>
                    && u'.state.Expired? && u.videoID in Do(w, e).videos
                    && (!w.videos[u.videoID].deleted ==> Do(w, e).videos[u.videoID] == Video("failed", true)))
  {
    ReachableOk(w);
    assert UploadOk(w.videos, w.uploads[id]);
  }

  // ---------------------------------------------------------------- the running code

  lemma {:induction false} OneMoreStep(w: World, steps: seq<Step>, e: Step)
    requires Legal(w, steps) && Enabled(Exec(w, steps), e)
    ensures Legal(w, steps + [e]) && Exec(w, steps + [e]) == Do(Exec(w, steps), e)
    decreases |steps|
  {
    if steps == [] {
      assert [] + [e] == [e] && [e][1..] == [];
    } else {
      OneMoreStep(Do(w, steps[0]), steps[1..], e);
      assert (steps + [e])[1..] == steps[1..] + [e];
    }
  }

  lemma ReachableStep(w: World, e: Step)
    requires Reachable(w) && Enabled(w, e)
    ensures Reachable(Do(w, e))
  {
    var w0, steps :| Init(w0) && Legal(w0, steps) && w == Exec(w0, steps);
    OneMoreStep(w0, steps, e);
  }

  predicate Acts(e: Step, r: nat) {
    match e
    case List(o, _, _) => o == r
    case ExpireNext(o, _) => o == r
    case Die(o) => o == r
    case _ => false
  }

  class ExpirerService {
    const me: nat
    const others: nat -> seq<Step>
    const luck: nat -> Fate
    const stale: nat -> seq<Candidate>
    var w: World
    var calls: nat

    ghost predicate Valid()
      reads this
    {
      Reachable(w) && me < |w.runs|
    }

    constructor (w: World, limit: int, others: nat -> seq<Step>, luck: nat -> Fate, stale: nat -> seq<Candidate>)
      requires Reachable(w)
      ensures Valid() && w.runs <= this.w.runs && this.w.runs[me] == Run(ToList(limit), [], 0, Result(0, 0, 0))
    {
      ReachableStep(w, Begin(limit));
      this.w := Do(w, Begin(limit));
      me, calls := |w.runs|, 0;
      this.others, this.luck, this.stale := others, luck, stale;
    }

    method Others()
      requires Valid()
      modifies this
      ensures Valid() && w.runs[me] == old(w.runs[me]) && calls == old(calls)
    {
      var steps := others(calls);
      for k := 0 to |steps|
        invariant Valid() && w.runs[me] == old(w.runs[me]) && calls == old(calls)
      {
        if Enabled(w, steps[k]) && !Acts(steps[k], me) {
          ReachableStep(w, steps[k]);
          w := Do(w, steps[k]);
        }
      }
    }

    method ListExpiredPending(limit: int) returns (ok: bool, out: seq<Candidate>)
      requires Valid() && w.runs[me] == Run(ToList(limit), [], 0, Result(0, 0, 0))
      modifies this
      ensures Valid()
      ensures w.runs[me] == if ok then Run(StageAt(out, 0), out, 0, Result(|out|, 0, 0))
                else Run(Ended(false), [], 0, Result(0, 0, 0))
    {
      Others();
      ok := luck(calls).Works?;
      out := stale(calls);
      if !Enabled(w, List(me, out, ok)) {
        out := [];
      }
      ReachableStep(w, List(me, out, ok));
      w := Do(w, List(me, out, ok));
      calls := calls + 1;
    }

    method ExpireUploadAndSoftDeleteVideo(c: Candidate) returns (ok: bool, expired: bool)
      requires Valid() && w.runs[me].stage.Looping? && w.runs[me].k < |w.runs[me].list|
                 && c == w.runs[me].list[w.runs[me].k]
      modifies this
      ensures Valid() && w.runs[me] == RunAfterExpire(old(w.runs[me]), expired, if ok then Works else Refuses)
      ensures expired ==> ok && c.id in w.uploads && w.uploads[c.id].deleted
    {
      Others();
      var fate := luck(calls);
      var hit := Expirable(w.uploads, c.id, c.videoID, w.now);
      ReachableStep(w, ExpireNext(me, fate));
      w := Do(w, ExpireNext(me, fate));
      calls := calls + 1;
      return fate.Works?, fate.Works? && hit;
    }

    /** Goes through what it found; each is expired or skipped, and the first error ends it. */
    method ExpireStaleUploads(limit: int) returns (ok: bool, res: Result)
      requires Valid() && w.runs[me] == Run(ToList(limit), [], 0, Result(0, 0, 0))
      modifies this
      ensures Valid() && w.runs[me].stage == Ended(ok) && w.runs[me].res == res
      ensures ok ==> res.found == res.expired + res.skipped == |w.runs[me].list|
    {
      var list;
      ok, list := ListExpiredPending(limit);
      if !ok {
        return false, Result(0, 0, 0);
      }
      res := Result(|list|, 0, 0);
      var k := 0;
      while k < |list|
        invariant 0 <= k <= |list|
        invariant Valid() && w.runs[me] == Run(StageAt(list, k), list, k, res)
        invariant res.found == |list| && res.expired + res.skipped == k
      {
        var expired;
        ok, expired := ExpireUploadAndSoftDeleteVideo(list[k]);
        if !ok {
          return false, res;
        }
        if expired {
          res := res.(expired := res.expired + 1);
        } else {
          res := res.(skipped := res.skipped + 1);
        }
        k := k + 1;
      }
      return true, res;
    }
  }
}
