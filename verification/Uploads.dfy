/** The uploads and videos tables: finalizing an upload together with its start event, and expiring stale
    ones together with their video. */
module Uploads {
  import opened Basics
  import opened Outbox
  import opened Playlist

  datatype UploadState = Waiting | InProgress | Expired | OtherState(text: string)

  /** `expirations` is history: how many expire updates have hit the row. */
  datatype Upload = Upload(videoID: string, path: string, state: UploadState, deleted: bool, expiresAt: Option<int>,
      expirations: nat)

  datatype Video = Video(status: string, deleted: bool)

  type UploadRows = map<string, Upload>
  type VideoRows = map<string, Video>

  const FAILED := "failed"

  // ---------------------------------------------------------------- the statements

  /** The WHERE clause of both the listing and the expire update. */
  predicate Stale(u: Upload, now: int) {
    !u.deleted && u.state.Waiting? && u.expiresAt.Some? && u.expiresAt.value <= now
  }

  predicate Expirable(uploads: UploadRows, id: string, videoID: string, now: int) {
    id in uploads && uploads[id].videoID == videoID && Stale(uploads[id], now)
  }

  function AfterExpire(uploads: UploadRows, id: string, videoID: string, now: int): UploadRows {
    if Expirable(uploads, id, videoID, now)
    then uploads[id := uploads[id].(state := Expired, deleted := true, expirations := uploads[id].expirations + 1)]
    else uploads
  }

  function AfterSoftDelete(videos: VideoRows, videoID: string): VideoRows {
    if videoID in videos && !videos[videoID].deleted then videos[videoID := Video(FAILED, true)] else videos
  }

  function AfterFinalize(uploads: UploadRows, id: string, path: string): UploadRows {
    if id in uploads then uploads[id := uploads[id].(path := path, state := InProgress)] else uploads
  }

  function AfterStart(events: Events, next: nat, kind: string, key: string, payload: string, now: int): Events {
    if HasKey(events, kind, key) then events else events[next := NewEvent(kind, key, payload, now)]
  }

  // ---------------------------------------------------------------- listings

  datatype Candidate = Candidate(id: string, videoID: string)

  function StaleIds(uploads: UploadRows, now: int): set<string> {
    set id | id in uploads && Stale(uploads[id], now)
  }

  function CandidateIds(list: seq<Candidate>): set<string> {
    set c <- list :: c.id
  }

  predicate ListedAsRead(uploads: UploadRows, now: int, list: seq<Candidate>) {
    && (forall i, j :: 0 <= i < j < |list| ==> list[i].id != list[j].id)
    && (forall c <- list :: c.id in uploads && Stale(uploads[c.id], now) && c.videoID == uploads[c.id].videoID)
  }

  function ExpiryOf(uploads: UploadRows, id: string): int {
    if id in uploads && uploads[id].expiresAt.Some? then uploads[id].expiresAt.value else 0
  }

  /** In order of expiry, and nothing that is left expires before anything listed. */
  predicate EarliestFirst(uploads: UploadRows, list: seq<Candidate>, left: set<string>) {
    && (forall i, j :: 0 <= i < j < |list| ==> ExpiryOf(uploads, list[i].id) <= ExpiryOf(uploads, list[j].id))
    && (forall i, b :: 0 <= i < |list| && b in left ==> ExpiryOf(uploads, list[i].id) <= ExpiryOf(uploads, b))
  }

  predicate Listed(uploads: UploadRows, now: int, left: set<string>, list: seq<Candidate>) {
    && left <= StaleIds(uploads, now) && CandidateIds(list) == StaleIds(uploads, now) - left
    && |StaleIds(uploads, now)| == |left| + |list|
    && ListedAsRead(uploads, now, list)
    && EarliestFirst(uploads, list, left)
  }

  lemma CandidateIdsAppend(list: seq<Candidate>, c: Candidate)
    ensures CandidateIds(list + [c]) == CandidateIds(list) + {c.id}
  {
    forall x ensures x in CandidateIds(list + [c]) <==> x in CandidateIds(list) + {c.id} {
      if x in CandidateIds(list) {
        var d :| d in list && d.id == x;
        assert d in list + [c];
      }
      assert c in list + [c];
    }
  }

  lemma ListedAppend(uploads: UploadRows, now: int, list: seq<Candidate>, c: Candidate)
    requires ListedAsRead(uploads, now, list) && c.id !in CandidateIds(list)
    requires c.id in uploads && Stale(uploads[c.id], now) && c.videoID == uploads[c.id].videoID
    ensures ListedAsRead(uploads, now, list + [c])
  {
    forall k | 0 <= k < |list| ensures list[k].id != c.id {
      assert list[k].id in CandidateIds(list);
    }
  }

  lemma EarliestAppend(uploads: UploadRows, list: seq<Candidate>, left: set<string>, c: Candidate)
    requires EarliestFirst(uploads, list, left) && c.id in left
    requires forall b <- left :: ExpiryOf(uploads, c.id) <= ExpiryOf(uploads, b)
    ensures EarliestFirst(uploads, list + [c], left - {c.id})
  {
  }

  lemma ListOne(uploads: UploadRows, now: int, left: set<string>, list: seq<Candidate>, c: Candidate)
    requires Listed(uploads, now, left, list) && c.id in left && c.videoID == uploads[c.id].videoID
    requires forall b <- left :: ExpiryOf(uploads, c.id) <= ExpiryOf(uploads, b)
    ensures Listed(uploads, now, left - {c.id}, list + [c])
  {
    var stale := StaleIds(uploads, now);
    assert stale - (left - {c.id}) == stale - left + {c.id};
    CandidateIdsAppend(list, c);
    ListedAppend(uploads, now, list, c);
    EarliestAppend(uploads, list, left, c);
  }

  lemma ListedInColumns(uploads: UploadRows, now: int, left: set<string>, list: seq<Candidate>)
    requires Listed(uploads, now, left, list)
    ensures forall c <- list ::
              && c.id in uploads && c.videoID == uploads[c.id].videoID
              && !uploads[c.id].deleted && uploads[c.id].state.Waiting?
              && uploads[c.id].expiresAt.Some? && uploads[c.id].expiresAt.value <= now
    ensures forall id <- uploads ::
              !uploads[id].deleted && uploads[id].state.Waiting?
              && uploads[id].expiresAt.Some? && uploads[id].expiresAt.value <= now ==>
                (exists c <- list :: c.id == id)
                || (id in left && forall c <- list :: uploads[c.id].expiresAt.value <= uploads[id].expiresAt.value)
    ensures forall i, j :: 0 <= i < j < |list| ==>
              list[i].id != list[j].id
              && uploads[list[i].id].expiresAt.value <= uploads[list[j].id].expiresAt.value
  {
    forall id <- uploads | Stale(uploads[id], now) && !exists c <- list :: c.id == id
      ensures id in left && forall c <- list :: uploads[c.id].expiresAt.value <= uploads[id].expiresAt.value
    {
      assert id in StaleIds(uploads, now) && id !in CandidateIds(list);
      forall c <- list ensures uploads[c.id].expiresAt.value <= uploads[id].expiresAt.value {
        var i :| 0 <= i < |list| && list[i] == c;
        assert ExpiryOf(uploads, list[i].id) <= ExpiryOf(uploads, id);
      }
    }
    forall i, j | 0 <= i < j < |list|
      ensures list[i].id != list[j].id && uploads[list[i].id].expiresAt.value <= uploads[list[j].id].expiresAt.value
    {
      assert list[i] in list && list[j] in list;
      assert ExpiryOf(uploads, list[i].id) <= ExpiryOf(uploads, list[j].id);
    }
  }

  function ListLimit(limit: int): nat {
    if limit <= 0 then 200 else limit
  }

  // ---------------------------------------------------------------- the repository

  class UploadRepository {
    var uploads: UploadRows
    var videos: VideoRows
    var events: Events
    var nextEvent: nat
    var now: int
    var ops: nat
    const fate: nat -> Fate

    constructor (fate: nat -> Fate, uploads: UploadRows, videos: VideoRows, now: int)
      ensures this.uploads == uploads && this.videos == videos && this.now == now
      ensures events == map[] && nextEvent == 0 && ops == 0 && this.fate == fate
    {
      this.fate := fate;
      this.uploads, this.videos, this.now := uploads, videos, now;
      events, nextEvent, ops := map[], 0, 0;
    }

    /** The row of that video that is not deleted, if there is one and the query is answered. */
    method GetByVideoID(videoID: string) returns (ok: bool, found: Option<string>)
      modifies this`ops
      ensures ops == old(ops) + 1 && (ok <==> fate(old(ops)).Works?)
      ensures ok && found.Some? ==>
                found.value in uploads && uploads[found.value].videoID == videoID && !uploads[found.value].deleted
      ensures ok && found.None? ==> forall id <- uploads :: uploads[id].videoID == videoID ==> uploads[id].deleted
    {
      var f := fate(ops);
      ops := ops + 1;
      if !f.Works? {
        return false, None;
      }
      var hits := set id | id in uploads && uploads[id].videoID == videoID && !uploads[id].deleted;
      if hits == {} {
        assert forall id <- uploads :: id !in hits;
        return true, None;
      }
      var id :| id in hits;
      return true, Some(id);
    }

    /** One transaction: path, status and start event together, or nothing. The update does not look at the
        row's status, and the event, due at once, is inserted once per key. */
    method FinalizeProcessingWithOutbox(id: string, path: string, kind: string, key: string, payload: string)
        returns (ok: bool)
      modifies this
      ensures ops == old(ops) + 1 && videos == old(videos) && now == old(now)
      ensures ok <==> fate(old(ops)).Works?
      ensures if fate(old(ops)).Refuses? then uploads == old(uploads) && events == old(events)
                && nextEvent == old(nextEvent)
              else && uploads == AfterFinalize(old(uploads), id, path)
                   && events == AfterStart(old(events), old(nextEvent), kind, key, payload, now)
                   && nextEvent == (if HasKey(old(events), kind, key) then old(nextEvent) else old(nextEvent) + 1)
      ensures !fate(old(ops)).Refuses? ==>
                && uploads == (if id !in old(uploads) then old(uploads)
                               else old(uploads)[id := old(uploads)[id].(path := path, state := InProgress)])
                && if exists e <- old(events) :: old(events)[e].kind == kind && old(events)[e].key == key
                   then events == old(events)
                   else
                     var e := Event(kind, key, payload, EventPending, 0, now, now, None, None, [], 0);
                     events == old(events)[old(nextEvent) := e]
    {
      var f := fate(ops);
      ops := ops + 1;
      if f.Refuses? {
        return false;
      }
      if id in uploads {
        uploads := uploads[id := uploads[id].(path := path, state := InProgress)];
      }
      if !HasKey(events, kind, key) {
        events := events[nextEvent := NewEvent(kind, key, payload, now)];
        nextEvent := nextEvent + 1;
      }
      return f.Works?;
    }

    /** Unguarded, and not even a deleted row is spared. */
    method UpdateStatus(id: string, state: UploadState) returns (ok: bool)
      modifies this
      ensures ops == old(ops) + 1 && videos == old(videos) && events == old(events) && nextEvent == old(nextEvent)
                && now == old(now)
      ensures ok <==> fate(old(ops)).Works?
      ensures uploads == if fate(old(ops)).Refuses? || id !in old(uploads) then old(uploads)
                         else old(uploads)[id := old(uploads)[id].(state := state)]
    {
      var f := fate(ops);
      ops := ops + 1;
      if !f.Refuses? && id in uploads {
        uploads := uploads[id := uploads[id].(state := state)];
      }
      return f.Works?;
    }

    method Earliest(ids: set<string>) returns (first: string)
      requires ids != {}
      ensures first in ids && forall id <- ids :: ExpiryOf(uploads, first) <= ExpiryOf(uploads, id)
    {
      first :| first in ids;
      var rest := ids - {first};
      while rest != {}
        invariant rest <= ids && first in ids
        invariant forall id <- ids - rest :: ExpiryOf(uploads, first) <= ExpiryOf(uploads, id)
      {
        var id :| id in rest;
        if ExpiryOf(uploads, id) < ExpiryOf(uploads, first) {
          first := id;
        }
        rest := rest - {id};
      }
    }

    /** Stale rows one after the other, the earliest expiry next, until the limit or the last. */
    method Gather(limit: nat) returns (out: seq<Candidate>, ghost left: set<string>)
      ensures Listed(uploads, now, left, out)
      ensures |out| <= limit && (|out| == limit || left == {})
    {
      var rest := StaleIds(uploads, now);
      out := [];
      assert StaleIds(uploads, now) - rest == {};
      while |out| < limit && rest != {}
        invariant Listed(uploads, now, rest, out) && |out| <= limit
        decreases rest
      {
        var id := Earliest(rest);
        var c := Candidate(id, uploads[id].videoID);
        ListOne(uploads, now, rest, out, c);
        out := out + [c];
        rest := rest - {id};
      }
      left := rest;
    }

    /** The uploads that are not deleted, still pending and past their expiry: all of them up to the limit, 200
        when none is given, in order of expiry, the longest expired first. */
    method ListExpiredPending(limit: int) returns (out: seq<Candidate>)
      ensures forall c <- out ::
                && c.id in uploads && c.videoID == uploads[c.id].videoID
                && !uploads[c.id].deleted && uploads[c.id].state.Waiting?
                && uploads[c.id].expiresAt.Some? && uploads[c.id].expiresAt.value <= now
      ensures forall id <- uploads ::
                !uploads[id].deleted && uploads[id].state.Waiting?
                && uploads[id].expiresAt.Some? && uploads[id].expiresAt.value <= now ==>
                  (exists c <- out :: c.id == id)
                  || (|out| == (if limit <= 0 then 200 else limit)
                      && forall c <- out :: uploads[c.id].expiresAt.value <= uploads[id].expiresAt.value)
      ensures |out| <= (if limit <= 0 then 200 else limit)
      ensures forall i, j :: 0 <= i < j < |out| ==>
                out[i].id != out[j].id
                && uploads[out[i].id].expiresAt.value <= uploads[out[j].id].expiresAt.value
      ensures ListedAsRead(uploads, now, out)
    {
      ghost var left;
      out, left := Gather(ListLimit(limit));
      ListedInColumns(uploads, now, left, out);
    }

    /** One transaction, guarded again by the listing's own conditions: a row of that video that is not deleted,
        still pending and past its expiry is expired and deleted, and its video failed and deleted, together; else
        nothing changes and the answer is false. */
    method ExpireUploadAndSoftDeleteVideo(id: string, videoID: string) returns (ok: bool, expired: bool)
      modifies this
      ensures ops == old(ops) + 1 && events == old(events) && nextEvent == old(nextEvent) && now == old(now)
      ensures ok <==> fate(old(ops)).Works?
      ensures expired <==> ok && Expirable(old(uploads), id, videoID, now)
      ensures if fate(old(ops)).Refuses? || !Expirable(old(uploads), id, videoID, now)
              then uploads == old(uploads) && videos == old(videos)
              else && uploads == AfterExpire(old(uploads), id, videoID, now)
                   && videos == AfterSoftDelete(old(videos), videoID)
      ensures var hit := && id in old(uploads) && old(uploads)[id].videoID == videoID && !old(uploads)[id].deleted
                         && old(uploads)[id].state.Waiting? && old(uploads)[id].expiresAt.Some?
                         && old(uploads)[id].expiresAt.value <= now;
              && (expired <==> ok && hit)
              && if !hit || fate(old(ops)).Refuses? then uploads == old(uploads) && videos == old(videos)
                 else
                   var u := old(uploads)[id];
                   && uploads == old(uploads)[id := u.(state := Expired, deleted := true,
                                                       expirations := u.expirations + 1)]
                   && videos == if videoID !in old(videos) || old(videos)[videoID].deleted then old(videos)
                                else old(videos)[videoID := Video("failed", true)]
    {
      var f := fate(ops);
      ops := ops + 1;
      if f.Refuses? {
        return false, false;
      }
      if !(id in uploads && uploads[id].videoID == videoID && Stale(uploads[id], now)) {
        return f.Works?, false;
      }
      uploads := uploads[id := uploads[id].(state := Expired, deleted := true,
          expirations := uploads[id].expirations + 1)];
      if videoID in videos && !videos[videoID].deleted {
        videos := videos[videoID := Video(FAILED, true)];
      }
      return f.Works?, f.Works?;
    }
  }

  datatype FinalizeOutcome =
    | Finalized(id: string) | LookupFailed | NotFound | NotPending(id: string) | CheckFailed(id: string)
    | FileMissing(id: string) | Failed

  /** A start event keyed by the upload is there: an old one, or else the new one alone, pending, due at once and
      with the payload it was given. */
  predicate StartsOnce(before: Events, events: Events, next: nat, id: string, payload: string, now: int) {
    if exists e <- before :: before[e].kind == "upload_process_start" && before[e].key == id then events == before
    else
      && next in events && events == before[next := events[next]]
      && events[next].kind == "upload_process_start" && events[next].key == id && events[next].payload == payload
      && events[next].status.EventPending? && events[next].nextAt == now && events[next].attempts == 0
  }

  lemma StartIsKeyed(before: Events, next: nat, id: string, payload: string, now: int)
    ensures StartsOnce(before, AfterStart(before, next, START_EVENT, id, payload, now), next, id, payload, now)
  {
  }

  /** The upload of that video, not deleted. */
  predicate LiveUpload(uploads: UploadRows, id: string, videoID: string) {
    id in uploads && uploads[id].videoID == videoID && !uploads[id].deleted
  }

  predicate LivePending(uploads: UploadRows, id: string, videoID: string) {
    LiveUpload(uploads, id, videoID) && uploads[id].state.Waiting?
  }

  /** FinalizeUpload: refused exactly when the look-up fails, without a live upload, when it is not pending, when
      the storage cannot be asked (`stored` is None), or without its file, and then nothing has changed;
      otherwise the transaction decides, and after it the row has the file's path and a start event is keyed by
      its id. */
  method FinalizeUpload(repo: UploadRepository, videoID: string, stored: Option<bool>, payload: string)
      returns (out: FinalizeOutcome)
    modifies repo
    ensures out.LookupFailed? <==> videoID != "" && !repo.fate(old(repo.ops)).Works?
    ensures out.NotFound? <==>
              videoID == ""
              || (repo.fate(old(repo.ops)).Works?
                  && forall id <- old(repo.uploads) :: !LiveUpload(old(repo.uploads), id, videoID))
    ensures out.NotPending? ==>
              LiveUpload(old(repo.uploads), out.id, videoID) && !old(repo.uploads)[out.id].state.Waiting?
    ensures out.CheckFailed? ==> LivePending(old(repo.uploads), out.id, videoID) && stored.None?
    ensures out.FileMissing? ==> LivePending(old(repo.uploads), out.id, videoID) && stored == Some(false)
    ensures !out.Finalized? && !out.Failed? ==> repo.uploads == old(repo.uploads) && repo.events == old(repo.events)
    ensures out.Finalized? ==>
              && LivePending(old(repo.uploads), out.id, videoID) && stored == Some(true)
              && repo.uploads == AfterFinalize(old(repo.uploads), out.id, KeyText(videoID, OriginalKey))
              && repo.events == AfterStart(old(repo.events), old(repo.nextEvent), START_EVENT, out.id, payload,
                  repo.now)
              && HasKey(repo.events, START_EVENT, out.id)
              && StartsOnce(old(repo.events), repo.events, old(repo.nextEvent), out.id, payload, repo.now)
              && repo.uploads == old(repo.uploads)[out.id := old(repo.uploads)[out.id].(
                                   path := KeyText(videoID, OriginalKey), state := InProgress)]
    ensures out.Failed? ==> stored == Some(true) && !repo.fate(old(repo.ops) + 1).Works?
  {
    if videoID == "" {
      return NotFound;
    }
    var answered, found := repo.GetByVideoID(videoID);
    if !answered {
      return LookupFailed;
    }
    if found.None? {
      return NotFound;
    }
    var id := found.value;
    assert LiveUpload(repo.uploads, id, videoID);
    if !repo.uploads[id].state.Waiting? {
      return NotPending(id);
    }
    if stored.None? {
      return CheckFailed(id);
    }
    if !stored.value {
      return FileMissing(id);
    }
    ghost var before, next := repo.events, repo.nextEvent;
    var ok := repo.FinalizeProcessingWithOutbox(id, KeyText(videoID, OriginalKey), START_EVENT, id, payload);
    if !ok {
      return Failed;
    }
    StartIsKeyed(before, next, id, payload, repo.now);
    return Finalized(id);
  }
}
