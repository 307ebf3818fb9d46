/** The upload_steps table: one status per (upload, step), changed only by guarded updates. */
module StepTable {
  import opened Basics

  /** A step name as it travels in messages; `OtherStep` is any text that is no pipeline step. */
  datatype StepName = Thumbnail | Metadata | Transcode | Segment | Publish | OtherStep(name: string)

  /** A status text; `OtherStatus` is any text the update statement does not know. */
  datatype Status = Pending | Processing | Done | Failed | Canceled | OtherStatus(text: string)

  const PIPELINE_STEPS: seq<StepName> := [Thumbnail, Metadata, Transcode, Segment, Publish]
  const INITIAL_STEPS: seq<StepName> := [Metadata, Thumbnail]

  predicate Terminal(s: Status) {
    s.Done? || s.Failed? || s.Canceled?
  }

  /** The WHERE guard of each guarded update. */
  predicate GuardAllows(from: Status, target: Status) {
    match target
    case Processing => from == Pending
    case Done => from == Processing
    case Failed => from == Processing
    case Canceled => from == Pending || from == Processing
    case _ => false
  }

  /** The moves a guarded update makes, and no other. */
  lemma GuardsExactly(from: Status, target: Status)
    ensures GuardAllows(from, target)
       <==> (from, target) in {(Pending, Processing), (Pending, Canceled),
                               (Processing, Done), (Processing, Failed), (Processing, Canceled)}
  {
  }

  predicate KnownTarget(target: Status) {
    target.Processing? || target.Done? || target.Failed? || target.Canceled?
  }

  /** Whether the guarded update finds a row to change. */
  predicate Applies(rows: map<StepName, Status>, step: StepName, target: Status) {
    step in rows && GuardAllows(rows[step], target)
  }

  /** How far a row has come: each applied update moves it strictly up. */
  function Rank(s: Status): nat {
    match s
    case Pending => 0
    case Processing => 1
    case _ => 2
  }

  // ---------------------------------------------------------------- one row under any updates

  function After(from: Status, target: Status): Status {
    if GuardAllows(from, target) then target else from
  }

  function AfterAll(from: Status, targets: seq<Status>): Status
    decreases |targets|
  {
    if targets == [] then from else AfterAll(After(from, targets[0]), targets[1..])
  }

  function AppliedCount(from: Status, targets: seq<Status>): nat
    decreases |targets|
  {
    if targets == [] then 0
    else (if GuardAllows(from, targets[0]) then 1 else 0) + AppliedCount(After(from, targets[0]), targets[1..])
  }

  /** Whatever updates arrive, in whatever order and however often, at most two of them apply to a
      pending row, and a terminal row is never changed by any of them. */
  lemma {:induction false} AtMostTwoMoves(from: Status, targets: seq<Status>)
    requires !from.OtherStatus?
    ensures AppliedCount(from, targets) <= 2 - Rank(from)
    ensures Rank(AfterAll(from, targets)) >= Rank(from) + AppliedCount(from, targets)
    ensures Terminal(from) ==> AfterAll(from, targets) == from
    decreases |targets|
  {
    if targets != [] {
      AtMostTwoMoves(After(from, targets[0]), targets[1..]);
    }
  }

  // ---------------------------------------------------------------- the repository

  datatype StepRow = StepRow(status: Status, errorMessage: Option<string>)

  datatype FailureReason = NoReason | InvalidTargetStatus | StepNotFound | InvalidTransition

  datatype StepTransition =
    | Transition(applied: bool, fromStatus: Option<Status>, toStatus: Status, reason: FailureReason)
    | StoreError

  /** The table after inserting pending rows for `steps`, keeping every row that is there already. */
  function WithSteps(rows: map<(string, StepName), StepRow>, uploadID: string, steps: seq<StepName>)
    : map<(string, StepName), StepRow>
    decreases |steps|
  {
    if steps == [] then rows
    else
      var last := steps[|steps| - 1];
      var before := WithSteps(rows, uploadID, steps[..|steps| - 1]);
      if (uploadID, last) in before then before else before[(uploadID, last) := StepRow(Pending, None)]
  }

  /** What `WithSteps` leaves and adds: old rows untouched, new rows pending, every step present. */
  lemma {:induction false} WithStepsKeepsAndAdds(rows: map<(string, StepName), StepRow>, uploadID: string,
      steps: seq<StepName>)
    ensures var r := WithSteps(rows, uploadID, steps);
            && (forall k <- rows :: k in r && r[k] == rows[k])
            && (forall k <- r :: k in rows || (k.0 == uploadID && k.1 in steps && r[k] == StepRow(Pending, None)))
            && (forall st <- steps :: (uploadID, st) in r)
    decreases |steps|
  {
    if steps != [] {
      WithStepsKeepsAndAdds(rows, uploadID, steps[..|steps| - 1]);
    }
  }

  lemma WithOneMore(rows: map<(string, StepName), StepRow>, uploadID: string, steps: seq<StepName>, k: nat)
    requires k < |steps|
    ensures WithSteps(rows, uploadID, steps[..k + 1])
         == var before := WithSteps(rows, uploadID, steps[..k]);
            if (uploadID, steps[k]) in before then before else before[(uploadID, steps[k]) := StepRow(Pending, None)]
  {
    assert steps[..k + 1][..|steps[..k + 1]| - 1] == steps[..k];
  }

  class UploadStepRepository {
    var rows: map<(string, StepName), StepRow>
    var statements: nat
    /** Which SQL statements the database refuses, by the order in which they are issued. */
    const refuses: nat -> bool

    constructor (refuses: nat -> bool)
      ensures rows == map[] && statements == 0 && this.refuses == refuses
    {
      this.refuses := refuses;
      rows, statements := map[], 0;
    }

    /** Inserts one pending row at a time; stops at the first refused statement and keeps what it has
        inserted so far. */
    method CreateSteps(uploadID: string, steps: seq<StepName>) returns (ok: bool, ghost inserted: nat)
      modifies this
      ensures inserted <= |steps|
      ensures rows == WithSteps(old(rows), uploadID, steps[..inserted])
      ensures ok <==> inserted == |steps|
      ensures ok <==> forall t :: old(statements) <= t < old(statements) + |steps| ==> !refuses(t)
    {
      var k := 0;
      while k < |steps|
        invariant 0 <= k <= |steps|
        invariant statements == old(statements) + k
        invariant forall t :: old(statements) <= t < statements ==> !refuses(t)
        invariant rows == WithSteps(old(rows), uploadID, steps[..k])
      {
        var refused := refuses(statements);
        statements := statements + 1;
        if refused {
          return false, k;
        }
        WithOneMore(old(rows), uploadID, steps, k);
        if (uploadID, steps[k]) !in rows {
          rows := rows[(uploadID, steps[k]) := StepRow(Pending, None)];
        }
        k := k + 1;
      }
      assert steps[..k] == steps;
      return true, k;
    }

    /** The guarded update: applied exactly when the row exists and its status passes the guard; every
        other row, and this row when the update does not apply, keeps its value. */
    method UpdateStepStatus(uploadID: string, step: StepName, status: Status, errorMessage: string)
      returns (result: StepTransition)
      modifies this
      ensures !KnownTarget(status) ==> result == Transition(false, None, status, InvalidTargetStatus)
      ensures result.Transition? && result.applied <==>
              KnownTarget(status) && !refuses(old(statements)) && (uploadID, step) in old(rows)
              && GuardAllows(old(rows)[(uploadID, step)].status, status)
      ensures result.Transition? && result.applied ==>
              rows == old(rows)[(uploadID, step) :=
                  StepRow(status, if errorMessage == "" then None else Some(errorMessage))]
      ensures !(result.Transition? && result.applied) ==> rows == old(rows)
      ensures result.Transition? && !result.applied && KnownTarget(status) ==>
              match result.reason
              case StepNotFound => (uploadID, step) !in rows && result.fromStatus == None
              case InvalidTransition => (uploadID, step) in rows
                  && result.fromStatus == Some(rows[(uploadID, step)].status)
              case _ => false
      ensures result.StoreError? <==>
              KnownTarget(status)
              && (refuses(old(statements))
                  || (!((uploadID, step) in old(rows) && GuardAllows(old(rows)[(uploadID, step)].status, status))
                      && refuses(old(statements) + 1)))
    {
      if !KnownTarget(status) {
        return Transition(false, None, status, InvalidTargetStatus);
      }
      var refused := refuses(statements);
      statements := statements + 1;
      if refused {
        return StoreError;
      }
      if (uploadID, step) in rows && GuardAllows(rows[(uploadID, step)].status, status) {
        rows := rows[(uploadID, step) := StepRow(status, NullIfEmpty(errorMessage))];
        return Transition(true, None, status, NoReason);
      }
      refused := refuses(statements);
      statements := statements + 1;
      if refused {
        return StoreError;
      }
      if (uploadID, step) !in rows {
        return Transition(false, None, status, StepNotFound);
      }
      return Transition(false, Some(rows[(uploadID, step)].status), status, InvalidTransition);
    }
  }
}
