/** Rendition rows: the ladder a source gets, the batch inserted for it, and the row updates. */
module Renditions {
  import opened Basics
  import opened Decimal

  datatype RenditionStatus = RendPending | RendReady

  /** One video_renditions row of a video; None stands for NULL. */
  datatype Rendition = Rendition(
    resolution: string,
    status: RenditionStatus,
    storagePath: Option<string>,
    width: Option<int>,
    height: Option<int>)

  const ORIGINAL: string := "original"
  const DEFAULT_LADDER: seq<int> := [1080, 720, 480, 360]

  function ResolutionName(h: int): string {
    PrintInt(h) + "p"
  }

  /** Names the playlist can carry: not empty, one line, not a comment or tag, one path element. */
  predicate QualifiedName(s: string) {
    s != "" && s[0] != '#' && '\n' !in s && '/' !in s
  }

  lemma {:induction false} PrintIsQualified(h: int)
    ensures QualifiedName(ResolutionName(h))
  {
    var digits := Print(if h < 0 then -h else h);
    var s := ResolutionName(h);
    assert digits[0] in digits;
    assert '\n' !in digits && '/' !in digits;
    assert s == (if h < 0 then "-" else "") + digits + "p";
  }

  lemma ResolutionNameInjective(g: int, h: int)
    requires ResolutionName(g) == ResolutionName(h)
    ensures g == h
  {
    assert PrintInt(g) == ResolutionName(g)[..|ResolutionName(g)| - 1];
    assert PrintInt(h) == ResolutionName(h)[..|ResolutionName(h)| - 1];
    PrintInjective(g, h);
  }

  lemma ResolutionNameIsNotOriginal(h: int)
    ensures ResolutionName(h) != ORIGINAL
  {
    var s := ResolutionName(h);
    assert s[|s| - 1] == 'p';
    assert ORIGINAL[|ORIGINAL| - 1] == 'l';
  }

  // ---------------------------------------------------------------- the ladder

  predicate StrictlyDescending(s: seq<int>) {
    forall i, j :: 0 <= i < j < |s| ==> s[i] > s[j]
  }

  /** Those of the first k rungs that lie strictly below a limit. */
  function RungsBelow(k: nat, limit: int): seq<int>
    requires k <= |DEFAULT_LADDER|
  {
    if k == 0 then []
    else RungsBelow(k - 1, limit) + (if DEFAULT_LADDER[k - 1] < limit then [DEFAULT_LADDER[k - 1]] else [])
  }

  function LadderFor(sourceHeight: int): seq<int> {
    RungsBelow(|DEFAULT_LADDER|, ToInt32(sourceHeight))
  }

  /** The append loop over the rungs; the height is compared as a 32-bit value. */
  method ComputeLadder(sourceHeight: int) returns (out: seq<int>)
    ensures out == LadderFor(sourceHeight)
  {
    var limit := ToInt32(sourceHeight);
    out := [];
    for k := 0 to |DEFAULT_LADDER|
      invariant out == RungsBelow(k, limit)
    {
      if DEFAULT_LADDER[k] < limit {
        out := out + [DEFAULT_LADDER[k]];
      }
    }
  }

  lemma {:induction false} RungsDescend(k: nat, limit: int)
    requires k <= |DEFAULT_LADDER|
    ensures StrictlyDescending(RungsBelow(k, limit))
    ensures forall h :: h in RungsBelow(k, limit) <==> h in DEFAULT_LADDER[..k] && h < limit
    decreases k
  {
    if k > 0 {
      RungsDescend(k - 1, limit);
      var before := RungsBelow(k - 1, limit);
      assert DEFAULT_LADDER[..k] == DEFAULT_LADDER[..k - 1] + [DEFAULT_LADDER[k - 1]];
      forall j | 0 <= j < |before| ensures before[j] > DEFAULT_LADDER[k - 1] {
        assert before[j] in before;
      }
    }
  }

  /** For any 32-bit source height the ladder is the strictly descending list of exactly the rungs below it. */
  lemma LadderDescends(sourceHeight: int)
    requires -0x8000_0000 <= sourceHeight < 0x8000_0000
    ensures StrictlyDescending(LadderFor(sourceHeight)) && Distinct(LadderFor(sourceHeight))
    ensures forall h :: h in LadderFor(sourceHeight) <==>
                (h == 1080 || h == 720 || h == 480 || h == 360) && h < sourceHeight
  {
    assert ToInt32(sourceHeight) == sourceHeight;
    RungsDescend(|DEFAULT_LADDER|, sourceHeight);
    assert DEFAULT_LADDER[..|DEFAULT_LADDER|] == DEFAULT_LADDER;
    forall h ensures h in DEFAULT_LADDER <==> h == 1080 || h == 720 || h == 480 || h == 360 {
      assert DEFAULT_LADDER[0] == 1080 && DEFAULT_LADDER[1] == 720 && DEFAULT_LADDER[2] == 480
          && DEFAULT_LADDER[3] == 360;
    }
  }

  // ---------------------------------------------------------------- target widths

  function ScaleWidthToEven(origW: int, origH: int, targetH: int): int {
    if origH <= 0 then 0
    else
      var w := Quotient(origW * targetH, origH);
      if w % 2 != 0 then w - 1 else w
  }

  /** For a positive source and a target no taller than it: even, not negative, at most the source
      width, and the greatest even number that keeps the aspect ratio from below. */
  lemma ScaledWidthIsEvenAndClose(origW: int, origH: int, targetH: int)
    requires origW > 0 && origH > 0 && 0 < targetH <= origH
    ensures var w := ScaleWidthToEven(origW, origH, targetH);
            w % 2 == 0 && 0 <= w <= origW && w * origH <= origW * targetH < (w + 2) * origH
  {
    ScaledQuotient(origW * targetH, origW, origH) by {
      MulMonotone(origW, 0, targetH);
      MulMonotone(origW, targetH, origH);
    }
    MulIsQuotient(origW, targetH, origH);
  }

  lemma MulIsQuotient(origW: int, targetH: int, origH: int)
    requires origH > 0 && origW * targetH >= 0
    ensures Quotient(origW * targetH, origH) == (origW * targetH) / origH
  {
  }

  /** The arithmetic of rounding p / d down to an even number, for 0 <= p <= m * d. */
  lemma ScaledQuotient(p: int, m: int, d: int)
    requires d > 0 && m > 0 && 0 <= p <= m * d
    ensures var q := p / d;
            var w := if q % 2 != 0 then q - 1 else q;
            w % 2 == 0 && 0 <= w <= m && w * d <= p < (w + 2) * d
  {
    var q, r := p / d, p % d;
    assert p == q * d + r;
    if q > m {
      OneMoreTimes(q, m, d);
      assert false;
    }
    assert (q + 1) * d == q * d + d && (q + 2) * d == q * d + d + d && (q - 1) * d == q * d - d;
  }

  lemma OneMoreTimes(q: int, m: int, d: int)
    requires d > 0 && q >= m + 1
    ensures q * d >= m * d + d
  {
    MulMonotone(d, m + 1, q);
    assert d * (m + 1) == m * d + d;
  }

  lemma MulMonotone(a: int, b: int, c: int)
    requires a > 0 && b <= c
    ensures a * b <= a * c
  {
    assert a * c - a * b == a * (c - b);
  }

  // ---------------------------------------------------------------- the batch

  /** The k-th row CreateBatch means to insert: the source as a ready row, then one pending row a target. */
  function BatchRow(path: string, origW: int, origH: int, targets: seq<int>, k: nat): Rendition
    requires k <= |targets|
  {
    if k == 0 then Rendition(ORIGINAL, RendReady, Some(path), Some(origW), Some(origH))
    else TargetRow(origW, origH, targets[k - 1])
  }

  function TargetRow(origW: int, origH: int, h: int): Rendition {
    Rendition(ResolutionName(h), RendPending, None, Some(ScaleWidthToEven(origW, origH, h)), Some(h))
  }

  function BatchFor(path: string, origW: int, origH: int, targets: seq<int>): (batch: seq<Rendition>)
    ensures |batch| == |targets| + 1
    ensures forall k :: 0 <= k < |batch| ==> batch[k] == BatchRow(path, origW, origH, targets, k)
  {
    seq(|targets| + 1, k requires 0 <= k < |targets| + 1 => BatchRow(path, origW, origH, targets, k))
  }

  function Names(rows: seq<Rendition>): (names: seq<string>)
    ensures |names| == |rows|
    ensures forall k :: 0 <= k < |rows| ==> names[k] == rows[k].resolution
  {
    seq(|rows|, k requires 0 <= k < |rows| => rows[k].resolution)
  }

  predicate HasName(rows: seq<Rendition>, name: string) {
    exists k :: 0 <= k < |rows| && rows[k].resolution == name
  }

  /** Named after its height. */
  predicate Named(r: Rendition) {
    r.height.Some? && ResolutionName(r.height.value) == r.resolution
  }

  /** The batch in columns: the source under its own name, ready at its path with its own dimensions; and one
      row a target, named after its height, pending without a path, with a width that is zero when the source
      has no height, and otherwise the greatest even number that keeps the aspect ratio from below. */
  lemma BatchColumns(path: string, origW: int, origH: int, targets: seq<int>, k: nat)
    requires k <= |targets|
    ensures var row := BatchFor(path, origW, origH, targets)[k];
            if k == 0 then
              && row.resolution == "original" && row.status.RendReady? && row.storagePath == Some(path)
              && row.width == Some(origW) && row.height == Some(origH)
            else
              var h := targets[k - 1];
              && row.resolution == PrintInt(h) + "p" && row.status.RendPending? && row.storagePath.None?
              && row.height == Some(h) && row.width.Some?
              && (origH <= 0 ==> row.width.value == 0)
              && (origW > 0 && 0 < h <= origH ==>
                    var w := row.width.value;
                    w % 2 == 0 && 0 <= w <= origW && w * origH <= origW * h < (w + 2) * origH)
  {
    if k > 0 && origW > 0 && 0 < targets[k - 1] <= origH {
      ScaledWidthIsEvenAndClose(origW, origH, targets[k - 1]);
    }
  }

  /** Every batch for distinct targets has pairwise distinct names, all fit for the playlist. */
  lemma BatchNamesDistinct(path: string, origW: int, origH: int, targets: seq<int>)
    requires Distinct(targets)
    ensures Distinct(Names(BatchFor(path, origW, origH, targets)))
    ensures forall n <- Names(BatchFor(path, origW, origH, targets)) :: QualifiedName(n)
  {
    var batch := BatchFor(path, origW, origH, targets);
    var names := Names(batch);
    forall i, j | 0 <= i < j < |names| ensures names[i] != names[j] {
      if i == 0 {
        ResolutionNameIsNotOriginal(targets[j - 1]);
      } else if names[i] == names[j] {
        ResolutionNameInjective(targets[i - 1], targets[j - 1]);
      }
    }
    forall k | 0 <= k < |names| ensures QualifiedName(names[k]) {
      if k > 0 { PrintIsQualified(targets[k - 1]); }
    }
  }

  // ---------------------------------------------------------------- the repository

  /** A row with the columns no other step reads. */
  datatype RenditionRow = RenditionRow(rend: Rendition, format: Option<string>, bitrate: Option<int>)

  /** The video_renditions table; the unique index on (video_id, resolution) makes it a map. */
  type Table = map<(string, string), RenditionRow>

  /** The table after inserting the first n rows of `batch` for a video, one after the other. */
  function WithBatch(rows: Table, videoID: string, batch: seq<Rendition>, n: nat): Table
    requires n <= |batch|
  {
    if n == 0 then rows
    else WithBatch(rows, videoID, batch, n - 1)[(videoID, batch[n - 1].resolution) :=
        RenditionRow(batch[n - 1], None, None)]
  }

  /** A batch of pairwise distinct names puts each of its rows in the table and touches no other key. */
  lemma {:induction false} WithBatchHoldsExactly(rows: Table, videoID: string, batch: seq<Rendition>, n: nat)
    requires n <= |batch| && Distinct(Names(batch))
    ensures var r := WithBatch(rows, videoID, batch, n);
            && (forall k :: 0 <= k < n ==>
                  (videoID, batch[k].resolution) in r
                  && r[(videoID, batch[k].resolution)] == RenditionRow(batch[k], None, None))
            && (forall key: (string, string) :: key in r ==>
                  key in rows || (exists k :: 0 <= k < n && key == (videoID, batch[k].resolution)))
            && (forall key: (string, string) :: key in rows ==>
                  key in r && (r[key] == rows[key] || exists k :: 0 <= k < n && key == (videoID, batch[k].resolution)))
    decreases n
  {
    if n > 0 {
      var names := Names(batch);
      WithBatchHoldsExactly(rows, videoID, batch, n - 1);
      forall k | 0 <= k < n - 1 ensures batch[k].resolution != batch[n - 1].resolution {
        assert names[k] != names[n - 1];
      }
    }
  }

  class RenditionRepository {
    var rows: Table
    var statements: nat
    const refuses: nat -> bool

    constructor (refuses: nat -> bool)
      ensures rows == map[] && statements == 0 && this.refuses == refuses
    {
      this.refuses := refuses;
      rows, statements := map[], 0;
    }

    /** One insert: fails on a refused statement and on a taken (video, resolution) key. */
    method InsertOne(videoID: string, row: RenditionRow) returns (ok: bool)
      modifies this
      ensures statements == old(statements) + 1
      ensures ok <==> !refuses(old(statements)) && (videoID, row.rend.resolution) !in old(rows)
      ensures rows == if ok then old(rows)[(videoID, row.rend.resolution) := row] else old(rows)
    {
      ok := !refuses(statements) && (videoID, row.rend.resolution) !in rows;
      statements := statements + 1;
      if ok {
        rows := rows[(videoID, row.rend.resolution) := row];
      }
    }

    /** One turn of the batch loop. */
    method InsertTarget(videoID: string, ghost batch: seq<Rendition>, ghost first: Table, rend: Rendition, ghost k: nat)
      returns (ok: bool)
      requires k < |batch| && rend == batch[k] && rows == WithBatch(first, videoID, batch, k)
      modifies this
      ensures statements == old(statements) + 1
      ensures rows == WithBatch(first, videoID, batch, if ok then k + 1 else k)
      ensures ok <==> !refuses(old(statements)) && (videoID, rend.resolution) !in old(rows)
    {
      ok := InsertOne(videoID, RenditionRow(rend, None, None));
    }

    /** The loop over the target heights, with the first rows of the batch already in. */
    method InsertTargets(videoID: string, width: int, height: int, targets: seq<int>,
                         ghost batch: seq<Rendition>, ghost first: Table)
      returns (ok: bool, inserted: nat)
      requires |batch| == |targets| + 1 && rows == WithBatch(first, videoID, batch, 1)
      requires forall k :: 0 <= k < |targets| ==> batch[k + 1] == TargetRow(width, height, targets[k])
      modifies this
      ensures 1 <= inserted <= |batch| && statements <= old(statements) + inserted
      ensures rows == WithBatch(first, videoID, batch, inserted)
      ensures ok <==> inserted == |batch|
      ensures !ok ==> refuses(old(statements) + inserted - 1) || (videoID, batch[inserted].resolution) in rows
    {
      inserted := 1;
      while inserted <= |targets|
        invariant 1 <= inserted <= |batch|
        invariant statements == old(statements) + inserted - 1
        invariant rows == WithBatch(first, videoID, batch, inserted)
      {
        var h := targets[inserted - 1];
        var scaled := ScaleWidthToEven(width, height, h);
        var rend := Rendition(ResolutionName(h), RendPending, None, Some(scaled), Some(h));
        ok := InsertTarget(videoID, batch, first, rend, inserted);
        if !ok {
          return;
        }
        inserted := inserted + 1;
      }
      ok := true;
    }

    /** Inserts the batch row by row and keeps the prefix inserted before the first failure; a failure
        is a refused statement or a taken key, never anything else. */
    method CreateBatch(videoID: string, originalStoragePath: string, originalWidth: int, originalHeight: int,
                       targetHeights: seq<int>) returns (ok: bool, inserted: nat)
      modifies this
      ensures var batch := BatchFor(originalStoragePath, originalWidth, originalHeight, targetHeights);
              && inserted <= |batch|
              && rows == WithBatch(old(rows), videoID, batch, inserted)
              && (ok <==> inserted == |batch|)
              && (!ok ==> refuses(old(statements) + inserted) || (videoID, batch[inserted].resolution) in rows)
      ensures (videoID, ORIGINAL) in old(rows) ==> !ok && inserted == 0
    {
      ghost var batch := BatchFor(originalStoragePath, originalWidth, originalHeight, targetHeights);
      ghost var first := rows;
      var orig := Rendition(ORIGINAL, RendReady, Some(originalStoragePath), Some(originalWidth), Some(originalHeight));
      ok := InsertSource(videoID, batch, orig);
      if !ok {
        return false, 0;
      }
      ok, inserted := InsertTargets(videoID, originalWidth, originalHeight, targetHeights, batch, first);
    }

    method InsertSource(videoID: string, ghost batch: seq<Rendition>, orig: Rendition) returns (ok: bool)
      requires batch != [] && orig == batch[0]
      modifies this
      ensures statements == old(statements) + 1
      ensures rows == WithBatch(old(rows), videoID, batch, if ok then 1 else 0)
      ensures ok <==> !refuses(old(statements)) && (videoID, orig.resolution) !in old(rows)
    {
      ok := InsertTarget(videoID, batch, rows, orig, 0);
    }

    /** UPDATE ... WHERE video_id AND resolution: rewrites the row with that key, if there is one, NULL where
        no value is given, except that an empty format keeps the old one; never adds a row. */
    method Update(videoID: string, rend: Rendition, bitrate: Option<int>, format: string) returns (ok: bool)
      modifies this
      ensures statements == old(statements) + 1
      ensures ok <==> !refuses(old(statements))
      ensures rows == if ok then Rewritten(old(rows), videoID, rend, bitrate, format) else old(rows)
      ensures var key := (videoID, rend.resolution);
              rows == if !ok || key !in old(rows) then old(rows)
                      else old(rows)[key := RenditionRow(rend, if format == "" then old(rows)[key].format
                                                               else Some(format), bitrate)]
    {
      ok := !refuses(statements);
      statements := statements + 1;
      if ok && (videoID, rend.resolution) in rows {
        var kept := rows[(videoID, rend.resolution)].format;
        rows := rows[(videoID, rend.resolution) := RenditionRow(rend, if format == "" then kept
            else Some(format), bitrate)];
      }
    }
  }

  function Rewritten(rows: Table, videoID: string, rend: Rendition, bitrate: Option<int>, format: string): Table {
    var key := (videoID, rend.resolution);
    if key in rows
    then rows[key := RenditionRow(rend, if format == "" then rows[key].format else Some(format), bitrate)]
    else rows
  }

  function PositiveOnly(n: Option<int>): Option<int> {
    if n.Some? && n.value > 0 then n else None
  }

  /** Zero, like a negative number, is no dimension. */
  lemma PositiveIsKept(n: int)
    ensures n > 0 ==> PositiveOnly(Some(n)) == Some(n)
    ensures n <= 0 ==> PositiveOnly(Some(n)) == None
    ensures PositiveOnly(None) == None
  {
  }

  /** UpdateRendition: refused without a video, a resolution or a path; otherwise the row becomes ready with
      that path, and a width, height or bitrate that is missing or not positive becomes NULL. */
  method UpdateRendition(repo: RenditionRepository, videoID: string, resolution: string, storagePath: string,
                         width: Option<int>, height: Option<int>, bitrate: Option<int>, format: string)
    returns (ok: bool)
    modifies repo
    ensures videoID == "" || resolution == "" || storagePath == "" ==>
              !ok && repo.rows == old(repo.rows) && repo.statements == old(repo.statements)
    ensures videoID != "" && resolution != "" && storagePath != "" ==>
              && (ok <==> !repo.refuses(old(repo.statements)))
              && repo.rows == if !ok then old(repo.rows)
                              else Rewritten(old(repo.rows), videoID,
                                               Rendition(resolution, RendReady, Some(storagePath),
                                                   if width.Some? && width.value > 0 then width else None,
                                                   if height.Some? && height.value > 0 then height else None),
                                               if bitrate.Some? && bitrate.value > 0 then bitrate else None, format)
  {
    if videoID == "" || resolution == "" || storagePath == "" {
      return false;
    }
    var rend := Rendition(resolution, RendReady, Some(storagePath), None, None);
    if width.Some? && width.value > 0 {
      rend := rend.(width := width);
    }
    if height.Some? && height.value > 0 {
      rend := rend.(height := height);
    }
    var rate := if bitrate.Some? && bitrate.value > 0 then bitrate else None;
    ok := repo.Update(videoID, rend, rate, format);
  }

  /** On a video without rows and for distinct targets, no key of the batch is taken when its turn
      comes, so CreateBatch can fail only on a refused statement. */
  lemma FreshBatchMeetsNoTakenKey(rows: Table, videoID: string, path: string, w: int, h: int,
                                  targets: seq<int>, k: nat)
    requires Distinct(targets) && k <= |targets|
    requires forall key <- rows :: key.0 != videoID
    ensures var batch := BatchFor(path, w, h, targets);
            (videoID, batch[k].resolution) !in WithBatch(rows, videoID, batch, k)
  {
    var batch := BatchFor(path, w, h, targets);
    BatchNamesDistinct(path, w, h, targets);
    var names := Names(batch);
    WithBatchHoldsExactly(rows, videoID, batch, k);
    forall j | 0 <= j < k ensures batch[j].resolution != batch[k].resolution {
      assert names[j] != names[k];
    }
  }

  // ---------------------------------------------------------------- listing

  /** ORDER BY height DESC: rows without a height come first, ties keep their table order. */
  predicate NotAfter(a: Rendition, b: Rendition) {
    a.height.None? || (b.height.Some? && a.height.value >= b.height.value)
  }

  function InsertByHeight(r: Rendition, sorted: seq<Rendition>): (out: seq<Rendition>)
    ensures multiset(out) == multiset(sorted) + multiset{r}
    decreases |sorted|
  {
    if sorted == [] then [r]
    else if NotAfter(r, sorted[0]) then [r] + sorted
    else
      assert sorted == [sorted[0]] + sorted[1..];
      [sorted[0]] + InsertByHeight(r, sorted[1..])
  }

  function ByHeight(rows: seq<Rendition>): (out: seq<Rendition>)
    ensures multiset(out) == multiset(rows)
    decreases |rows|
  {
    if rows == [] then []
    else
      assert rows == [rows[0]] + rows[1..];
      InsertByHeight(rows[0], ByHeight(rows[1..]))
  }

  predicate Ordered(rows: seq<Rendition>) {
    forall i, j :: 0 <= i < j < |rows| ==> NotAfter(rows[i], rows[j])
  }

  lemma {:induction false} InsertKeepsOrder(r: Rendition, sorted: seq<Rendition>)
    requires Ordered(sorted)
    ensures Ordered(InsertByHeight(r, sorted))
    decreases |sorted|
  {
    if sorted != [] && !NotAfter(r, sorted[0]) {
      InsertKeepsOrder(r, sorted[1..]);
      var rest := InsertByHeight(r, sorted[1..]);
      forall x | x in rest ensures NotAfter(sorted[0], x) {
        assert x in multiset(rest);
        assert x == r || x in sorted[1..];
      }
    }
  }

  lemma {:induction false} ByHeightIsOrdered(rows: seq<Rendition>)
    ensures Ordered(ByHeight(rows))
    decreases |rows|
  {
    if rows != [] {
      ByHeightIsOrdered(rows[1..]);
      InsertKeepsOrder(rows[0], ByHeight(rows[1..]));
    }
  }

  predicate Listed(r: Rendition, status: RenditionStatus) {
    r.status == status && (status.RendReady? ==> r.storagePath.Some?)
  }

  /** The rows a listing selects, in table order. */
  function Select(rows: seq<Rendition>, status: RenditionStatus): (out: seq<Rendition>)
    ensures forall r :: r in out <==> r in rows && Listed(r, status)
    decreases |rows|
  {
    if rows == [] then []
    else (if Listed(rows[0], status) then [rows[0]] else []) + Select(rows[1..], status)
  }

  /** What ListPendingByVideoID and ListReadyByVideoID return. */
  function Listing(rows: seq<Rendition>, status: RenditionStatus): seq<Rendition> {
    ByHeight(Select(rows, status))
  }

  /** A listing holds exactly the rows of that status, ready ones with a path only; rows without a height come
      first, then the highest. */
  lemma ListingHoldsExactly(rows: seq<Rendition>, status: RenditionStatus)
    ensures var list := Listing(rows, status);
            && (forall r :: r in list <==>
                  r in rows && r.status == status && (status.RendReady? ==> r.storagePath.Some?))
            && (forall i, j :: 0 <= i < j < |list| ==>
                  list[i].height.None? || (list[j].height.Some? && list[i].height.value >= list[j].height.value))
    ensures Ordered(Listing(rows, status))
  {
    var picked := Select(rows, status);
    ByHeightIsOrdered(picked);
    forall r ensures r in ByHeight(picked) <==> r in picked {
      assert r in ByHeight(picked) <==> r in multiset(ByHeight(picked));
    }
  }

  lemma {:induction false} SelectKeepsDistinct(rows: seq<Rendition>, status: RenditionStatus)
    requires Distinct(Names(rows))
    ensures Distinct(Names(Select(rows, status)))
    decreases |rows|
  {
    if rows != [] {
      DistinctTail(rows);
      SelectKeepsDistinct(rows[1..], status);
      var rest := Select(rows[1..], status);
      forall j | 0 <= j < |rest| ensures rest[j].resolution != rows[0].resolution {
        assert rest[j] in rest;
        NotInTail(rows, rest[j]);
      }
      PrependDistinct(rows[0], rest);
    }
  }

  lemma DistinctTail(rows: seq<Rendition>)
    requires rows != [] && Distinct(Names(rows))
    ensures Distinct(Names(rows[1..]))
  {
    var names := Names(rows);
    forall i, j | 0 <= i < j < |rows| - 1 ensures Names(rows[1..])[i] != Names(rows[1..])[j] {
      assert names[i + 1] != names[j + 1];
    }
  }

  lemma NotInTail(rows: seq<Rendition>, r: Rendition)
    requires rows != [] && Distinct(Names(rows)) && r in rows[1..]
    ensures r.resolution != rows[0].resolution
  {
    var k :| 0 <= k < |rows| - 1 && rows[1..][k] == r;
    assert Names(rows)[0] != Names(rows)[k + 1];
  }

  lemma PrependDistinct(r: Rendition, rest: seq<Rendition>)
    requires Distinct(Names(rest)) && forall j :: 0 <= j < |rest| ==> rest[j].resolution != r.resolution
    ensures Distinct(Names([r] + rest))
  {
    var names := Names([r] + rest);
    forall i, j | 0 <= i < j < |names| ensures names[i] != names[j] {
      assert names[j] == Names(rest)[j - 1];
      if i > 0 { assert names[i] == Names(rest)[i - 1]; }
    }
  }

  lemma {:induction false} InsertKeepsDistinct(r: Rendition, sorted: seq<Rendition>)
    requires Distinct(Names(sorted)) && forall j :: 0 <= j < |sorted| ==> sorted[j].resolution != r.resolution
    ensures Distinct(Names(InsertByHeight(r, sorted)))
    decreases |sorted|
  {
    if sorted == [] || NotAfter(r, sorted[0]) {
      PrependDistinct(r, sorted);
      assert [r] + sorted == InsertByHeight(r, sorted);
    } else {
      DistinctTail(sorted);
      InsertKeepsDistinct(r, sorted[1..]);
      var rest := InsertByHeight(r, sorted[1..]);
      forall j | 0 <= j < |rest| ensures rest[j].resolution != sorted[0].resolution {
        assert rest[j] in multiset(rest);
        if rest[j] != r { NotInTail(sorted, rest[j]); }
      }
      PrependDistinct(sorted[0], rest);
    }
  }

  lemma {:induction false} ByHeightKeepsDistinct(rows: seq<Rendition>)
    requires Distinct(Names(rows))
    ensures Distinct(Names(ByHeight(rows)))
    decreases |rows|
  {
    if rows != [] {
      DistinctTail(rows);
      ByHeightKeepsDistinct(rows[1..]);
      var sorted := ByHeight(rows[1..]);
      forall j | 0 <= j < |sorted| ensures sorted[j].resolution != rows[0].resolution {
        assert sorted[j] in multiset(sorted);
        NotInTail(rows, sorted[j]);
      }
      InsertKeepsDistinct(rows[0], sorted);
    }
  }

  /** Of rows with different names a listing holds each at most once. */
  lemma ListingDistinct(rows: seq<Rendition>, status: RenditionStatus)
    requires Distinct(Names(rows))
    ensures Distinct(Names(Listing(rows, status)))
  {
    SelectKeepsDistinct(rows, status);
    ByHeightKeepsDistinct(Select(rows, status));
  }
}
