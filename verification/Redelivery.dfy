/** What the trigger of a step that is done can still do when it comes again: nothing. */
module Redelivery {
  import opened StepTable
  import opened Pipeline
  import opened PipelineInvariant
  import opened PipelineSteps
  import opened PipelineTheorems

  // ---------------------------------------------------------------- a done step and its late triggers

  /** The calls a late hand of a done step may still make: none that inserts a row, writes the upload's
      status or publishes a trigger, no update of another row, and no result but a second `done`. */
  predicate LateCall(call: Call, st: StepName) {
    match call
    case InsertStep(_) => false
    case UpdateStep(step, target) => step == st && (target.Done? || target.Failed?)
    case SetUpload(_) => false
    case SendTrigger(_) => false
    case SendResult(step, status) => step == st && status.Done?
    case _ => true
  }

  lemma LateHandCalls(cfg: Config, sh: Shared, me: nat, h: Item, st: StepName)
    requires h.Hand? && h.msg == TriggerMsg(st) && !st.Publish? && Is(sh.rows, st, Done)
    requires PcOk(cfg, sh, me, h.msg, h.pc)
    ensures LateCall(NextCall(cfg, sh.vid, h), st)
  {
  }

  /** What a redelivery may change of what others look at. */
  predicate Unharmed(a: Shared, b: Shared, st: StepName) {
    && b.rows == a.rows && b.upStatus == a.upStatus
    && b.hist.triggerCalls == a.hist.triggerCalls
    && b.hist.reported <= a.hist.reported + {(st, Done)}
  }

  lemma LateEffect(sh: Shared, me: nat, call: Call, ch: Choice, st: StepName)
    requires LateCall(call, st) && Is(sh.rows, st, Done)
    ensures Unharmed(sh, Effect(sh, me, call, ch).0, st)
  {
    if call.UpdateStep? {
      assert !Applies(sh.rows, st, call.target);
    }
  }

  lemma LateStep(cfg: Config, s: State, i: nat, ch: Choice, st: StepName)
    requires Inv(cfg, s) && Enabled(cfg, s, Run(i, ch)) && s.items[i].msg == TriggerMsg(st)
    requires !st.Publish? && Is(s.shared.rows, st, Done)
    ensures Unharmed(s.shared, Do(cfg, s, Run(i, ch)).shared, st)
  {
    var h := s.items[i];
    assert ItemOk(cfg, s.shared, i, h);
    LateHandCalls(cfg, s.shared, i, h, st);
    LateEffect(s.shared, i, NextCall(cfg, s.shared.vid, h), ch, st);
    RunChangesByItsCall(cfg, s, i, ch);
  }

  /** The tables after a step of a hand are what its call leaves, or as before when it makes none. */
  lemma RunChangesByItsCall(cfg: Config, s: State, i: nat, ch: Choice)
    requires Enabled(cfg, s, Run(i, ch))
    ensures var after := Do(cfg, s, Run(i, ch)).shared;
            after == s.shared
            || after == Effect(s.shared, i, NextCall(cfg, s.shared.vid, s.items[i]), ch).0
  {
  }

  /** Messages travel and hands die; only hands of `st`'s trigger take steps. */
  predicate OnlyRedelivers(s: State, a: Action, st: StepName) {
    match a
    case Deliver(_) => true
    case Elapse(_) => true
    case Crash(_) => true
    case Run(i, _) => i in s.items && s.items[i].Hand? && s.items[i].msg == TriggerMsg(st)
    case _ => false
  }

  ghost predicate Redeliveries(cfg: Config, s: State, acts: seq<Action>, st: StepName)
    decreases |acts|
  {
    acts == []
    || (Enabled(cfg, s, acts[0]) && OnlyRedelivers(s, acts[0], st)
        && Redeliveries(cfg, Do(cfg, s, acts[0]), acts[1..], st))
  }

  /** Late failure is harmless: once the row of a step other than publish is done, its trigger may come again
      as often as it likes, be worked on, retried, dead-lettered and reported failed, with any faults and
      crashes: no step row changes, the upload's status stays, no trigger is published, and no result but a
      second `done`. */
  lemma {:induction false} RedeliveryIsHarmless(cfg: Config, s: State, acts: seq<Action>, st: StepName)
    requires Inv(cfg, s) && Redeliveries(cfg, s, acts, st)
    requires !st.Publish? && Is(s.shared.rows, st, Done)
    ensures Legal(cfg, s, acts) && Unharmed(s.shared, Exec(cfg, s, acts).shared, st)
    decreases |acts|
  {
    if acts != [] {
      if acts[0].Run? {
        LateStep(cfg, s, acts[0].i, acts[0].ch, st);
      } else {
        QueueStepKeeps(cfg, s, acts[0]);
      }
      StepKeeps(cfg, s, acts[0]);
      RedeliveryIsHarmless(cfg, Do(cfg, s, acts[0]), acts[1..], st);
    }
  }

  /** And in the middle of any run: whatever all the others do, once the row of a step other than publish is
      done, no step of a hand with its trigger changes a row or the upload's status, publishes a trigger, or
      reports anything but a second `done`. */
  lemma LateStepsAreHarmless(cfg: Config, s: State, acts: seq<Action>, i: nat, ch: Choice, st: StepName)
    requires Inv(cfg, s) && Legal(cfg, s, acts) && !st.Publish? && Is(s.shared.rows, st, Done)
    requires var mid := Exec(cfg, s, acts); Enabled(cfg, mid, Run(i, ch)) && mid.items[i].msg == TriggerMsg(st)
    ensures var mid := Exec(cfg, s, acts); Unharmed(mid.shared, Do(cfg, mid, Run(i, ch)).shared, st)
  {
    RunsKeep(cfg, s, acts);
    TerminalForever(cfg, s, acts);
    LateStep(cfg, Exec(cfg, s, acts), i, ch, st);
  }
}
