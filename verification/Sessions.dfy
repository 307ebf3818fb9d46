/** One handler in flight as running code sees it: it makes its calls one after another while everybody else
    does what they like in between. Every method of the handlers goes through `Make`, whose precondition is
    that the call is the one the state machine of module Pipeline makes at this point. */
module Sessions {
  import opened Basics
  import opened StepTable
  import opened Renditions
  import opened Playlist
  import opened Pipeline
  import opened PipelineInvariant
  import opened PipelineSteps
  import opened PipelineTheorems

  // ---------------------------------------------------------------- runs between two points

  ghost predicate Leads(cfg: Config, a: State, b: State) {
    exists acts :: Legal(cfg, a, acts) && b == Exec(cfg, a, acts)
  }

  lemma LeadsNowhere(cfg: Config, a: State)
    ensures Leads(cfg, a, a)
  {
    assert Legal(cfg, a, []) && a == Exec(cfg, a, []);
  }

  lemma LeadsOneMore(cfg: Config, a: State, b: State, act: Action)
    requires Leads(cfg, a, b) && Enabled(cfg, b, act)
    ensures Leads(cfg, a, Do(cfg, b, act))
  {
    var acts :| Legal(cfg, a, acts) && b == Exec(cfg, a, acts);
    OneMoreAction(cfg, a, acts, act);
    assert Legal(cfg, a, acts + [act]) && Do(cfg, b, act) == Exec(cfg, a, acts + [act]);
  }

  lemma {:induction false} ExecAppend(cfg: Config, a: State, acts: seq<Action>, more: seq<Action>)
    requires Legal(cfg, a, acts) && Legal(cfg, Exec(cfg, a, acts), more)
    ensures Legal(cfg, a, acts + more) && Exec(cfg, a, acts + more) == Exec(cfg, Exec(cfg, a, acts), more)
    decreases |acts|
  {
    if acts == [] {
      assert [] + more == more;
    } else {
      ExecAppend(cfg, Do(cfg, a, acts[0]), acts[1..], more);
      assert (acts + more)[1..] == acts[1..] + more;
    }
  }

  lemma LeadsOn(cfg: Config, a: State, b: State, c: State)
    requires Leads(cfg, a, b) && Leads(cfg, b, c)
    ensures Leads(cfg, a, c)
  {
    var acts :| Legal(cfg, a, acts) && b == Exec(cfg, a, acts);
    var more :| Legal(cfg, b, more) && c == Exec(cfg, b, more);
    ExecAppend(cfg, a, acts, more);
    assert Legal(cfg, a, acts + more) && c == Exec(cfg, a, acts + more);
  }

  /** What a run cannot take back: how far each row has come, stored objects, the batch once begun, and finished
      work. */
  predicate Forward(a: Shared, b: Shared) {
    && b.vid == a.vid
    && a.media.objects.Keys <= b.media.objects.Keys
    && (a.media.batchBy.Some? ==> b.media.batchBy.Some? && b.media.batch == a.media.batch)
    && (forall st <- a.rows :: st in b.rows && (a.rows[st] == b.rows[st] || Rank(a.rows[st]) < Rank(b.rows[st])))
    && (forall st <- PIPELINE_STEPS :: WorkDone(a.media, st) ==> WorkDone(b.media, st))
  }

  lemma StepGoesForward(cfg: Config, s: State, a: Action)
    requires Inv(cfg, s) && Enabled(cfg, s, a)
    ensures Forward(s.shared, Do(cfg, s, a).shared)
  {
    StepKeeps(cfg, s, a);
    var after := Do(cfg, s, a);
    forall st <- PIPELINE_STEPS | WorkDone(s.shared.media, st) ensures WorkDone(after.shared.media, st) {
      WorkDoneStays(Mover(s, a), s.shared.media, after.shared.media, st);
    }
  }

  lemma {:induction false} RunsGoForward(cfg: Config, s: State, acts: seq<Action>)
    requires Inv(cfg, s) && Legal(cfg, s, acts)
    ensures Forward(s.shared, Exec(cfg, s, acts).shared)
    decreases |acts|
  {
    if acts != [] {
      StepGoesForward(cfg, s, acts[0]);
      StepKeeps(cfg, s, acts[0]);
      RunsGoForward(cfg, Do(cfg, s, acts[0]), acts[1..]);
      ForwardOn(s.shared, Do(cfg, s, acts[0]).shared, Exec(cfg, s, acts).shared);
    }
  }

  /** Whatever happens in between. */
  lemma LeadsForward(cfg: Config, a: State, b: State)
    requires Reachable(cfg, a) && Leads(cfg, a, b)
    ensures Forward(a.shared, b.shared)
  {
    ReachableOk(cfg, a);
    var acts :| Legal(cfg, a, acts) && b == Exec(cfg, a, acts);
    RunsGoForward(cfg, a, acts);
  }

  /** The actions of others leave a hand where it is. */
  lemma OthersLeaveMe(cfg: Config, s: State, a: Action, me: nat)
    requires Inv(cfg, s) && Enabled(cfg, s, a) && me in s.items && Actor(a) != Some(me)
    ensures var after := Do(cfg, s, a); me in after.items && after.items[me] == s.items[me]
  {
  }

  // ---------------------------------------------------------------- the session

  /** What an answer without an error tells of the tables at that moment. */
  predicate Told(sh: Shared, call: Call, r: Resp) {
    r.NotOk? ||
    match call
    case InsertStep(st) => st in sh.rows
    case UpdateStep(st, target) =>
      r.Outcome? && (st in sh.rows ==> !GuardAllows(sh.rows[st], target)) && (r.applied ==> Is(sh.rows, st, target))
    case SetUpload(status) => r.Fine? && sh.upStatus == status
    case GetContext => r == Context(sh.path) && !sh.deleted
    case ReadVideo => r == Playback(sh.hls) && !sh.videoDeleted
    case WriteVideo(hls) => r.Fine? && sh.hls == hls
    case Extract => r.Dimensions?
    case InsertRendition(batch, k) => r.Fine? && (k == 0 ==> sh.media.batchBy.Some? && sh.media.batch == batch)
    case ListRenditions(status) => r == Rows(Listing(sh.media.rends, status))
    case Put(key, content) => r.Fine? && key in sh.media.objects && sh.media.objects[key] == content
    case PutMaster(text, _) =>
      r.Fine? && MasterKey in sh.media.objects && sh.media.objects[MasterKey] == MasterPlaylist(text)
    case _ => r.Fine?
  }

  /** The calls made and their answers, in order. */
  type Log = seq<(Call, Resp)>

  lemma OneCall(log: Log, a: (Call, Resp))
    ensures (log + [a])[|log|..] == [a]
  {
  }

  lemma TwoCalls(log: Log, a: (Call, Resp), b: (Call, Resp))
    ensures (log + [a] + [b])[|log|..] == [a, b]
  {
  }

  class Session {
    const cfg: Config
    const me: nat
    const msg: Msg
    const retries: nat
    const vid: string
    /** What the others do before my k-th call. */
    const others: nat -> seq<Action>
    /** How the world treats my k-th call. */
    const luck: nat -> Choice
    var s: State
    var calls: nat
    ghost var log: Log

    /** My calls from the n-th on. */
    ghost function Since(n: nat): Log
      reads this
    {
      if n <= |log| then log[n..] else []
    }

    ghost predicate Valid()
      reads this
    {
      Reachable(cfg, s) && s.shared.vid == vid
    }

    predicate At(pc: Pc)
      reads this
    {
      me in s.items && s.items[me].Hand? && s.items[me].msg == msg && s.items[me].retries == retries
      && s.items[me].pc == pc
    }

    /** The handler is through: its message is gone, or back on the main queue. */
    predicate Left()
      reads this
    {
      me !in s.items || s.items[me] == Queued(Main, msg, retries)
    }

    constructor (cfg: Config, s: State, me: nat, others: nat -> seq<Action>, luck: nat -> Choice)
      requires Reachable(cfg, s) && me in s.items && s.items[me].Hand?
      ensures Valid() && this.cfg == cfg && this.me == me && this.s == s && At(s.items[me].pc)
      ensures msg == s.items[me].msg && retries == s.items[me].retries && vid == s.shared.vid && log == []
    {
      this.cfg, this.me, this.s, this.others, this.luck := cfg, me, s, others, luck;
      msg, retries, vid, calls := s.items[me].msg, s.items[me].retries, s.shared.vid, 0;
      log := [];
    }

    function Me(pc: Pc): Item {
      Hand(msg, retries, false, pc)
    }

    /** Everybody else: any actions that are possible and not mine. */
    method Others(ghost pc: Pc)
      requires Valid() && At(pc)
      modifies this
      ensures Valid() && At(pc) && calls == old(calls) && log == old(log)
      ensures Leads(cfg, old(s), s) && Forward(old(s.shared), s.shared)
    {
      LeadsNowhere(cfg, s);
      ghost var start := s;
      var acts := others(calls);
      for k := 0 to |acts|
        invariant Valid() && At(pc) && calls == old(calls) && log == old(log)
        invariant Leads(cfg, start, s) && Forward(start.shared, s.shared)
      {
        if Enabled(cfg, s, acts[k]) && Actor(acts[k]) != Some(me) {
          ReachableOk(cfg, s);
          OthersLeaveMe(cfg, s, acts[k], me);
          MyStep(cfg, start, s, acts[k]);
          s := Do(cfg, s, acts[k]);
        }
      }
    }

    /** The outcome of my next call: the code always tries its own done update, and only work fails as work. */
    function Fate(call: Call): (ch: Choice)
      reads this
      ensures !ch.skipClose && (ch.fault.Fault? && ch.fault.work ==> IsWork(call))
    {
      var ch := luck(calls);
      ch.(skipClose := false,
          fault := if ch.fault.Fault? then ch.fault.(work := ch.fault.work && IsWork(call)) else NoFault)
    }

    /** My call itself, with the fate the world has for it. */
    method Act(ghost pc: Pc, call: Call, ch: Choice) returns (r: Resp)
      requires Valid() && At(pc) && !pc.Gone? && call == NextCall(cfg, vid, Me(pc))
      requires !ch.skipClose && (ch.fault.Fault? && ch.fault.work ==> IsWork(call))
      modifies this
      ensures Valid() && Leads(cfg, old(s), s) && Forward(old(s.shared), s.shared)
      ensures var next := Resume(cfg, Me(pc), r); if next.Gone? then Left() else At(next)
      ensures Told(s.shared, call, r) && log == old(log) + [(call, r)]
    {
      MyCall(cfg, s, me, msg, retries, pc, call, ch);
      r := Effect(s.shared, me, call, ch).1;
      s := Do(cfg, s, Run(me, ch));
      calls := calls + 1;
      log := log + [(call, r)];
    }

    /** One call: others first, then the call itself. The state machine must be about to make exactly this
        call; afterwards it stands where the answer sends it. */
    method Make(ghost pc: Pc, call: Call) returns (r: Resp)
      requires Valid() && At(pc) && !pc.Gone? && call == NextCall(cfg, vid, Me(pc))
      modifies this
      ensures Valid() && Leads(cfg, old(s), s) && Forward(old(s.shared), s.shared)
      ensures var next := Resume(cfg, Me(pc), r); if next.Gone? then Left() else At(next)
      ensures Told(s.shared, call, r)
      ensures log == old(log) + [(call, r)]
    {
      Others(pc);
      ghost var mid := s;
      var ch := Fate(call);
      r := Act(pc, call, ch);
      LeadsOn(cfg, old(s), mid, s);
      ForwardOn(old(s.shared), mid.shared, s.shared);
    }
  }

  lemma MyStep(cfg: Config, start: State, s: State, a: Action)
    requires Reachable(cfg, s) && Leads(cfg, start, s) && Forward(start.shared, s.shared) && Enabled(cfg, s, a)
    ensures var after := Do(cfg, s, a);
            Reachable(cfg, after) && Leads(cfg, start, after) && Forward(start.shared, after.shared)
  {
    ReachableOk(cfg, s);
    StepGoesForward(cfg, s, a);
    ReachableStep(cfg, s, a);
    LeadsOneMore(cfg, start, s, a);
    ForwardOn(start.shared, s.shared, Do(cfg, s, a).shared);
  }

  /** What a call of a hand comes to. */
  lemma MyCall(cfg: Config, s: State, me: nat, msg: Msg, retries: nat, pc: Pc, call: Call, ch: Choice)
    requires Reachable(cfg, s) && me in s.items && s.items[me].Hand? && s.items[me].msg == msg
               && s.items[me].retries == retries && s.items[me].pc == pc
    requires !pc.Gone? && call == NextCall(cfg, s.shared.vid, Hand(msg, retries, false, pc))
    requires !ch.skipClose && (ch.fault.Fault? && ch.fault.work ==> IsWork(call))
    ensures Enabled(cfg, s, Run(me, ch))
    ensures var after := Do(cfg, s, Run(me, ch));
            var r := Effect(s.shared, me, call, ch).1;
            var next := Resume(cfg, Hand(msg, retries, false, pc), r);
            && Reachable(cfg, after) && after.shared.vid == s.shared.vid
            && Leads(cfg, s, after) && Forward(s.shared, after.shared) && Told(after.shared, call, r)
            && if next.Gone? then me !in after.items || after.items[me] == Queued(Main, msg, retries)
               else me in after.items && after.items[me].Hand? && after.items[me].msg == msg
                    && after.items[me].retries == retries && after.items[me].pc == next
  {
    LeadsNowhere(cfg, s);
    SameCall(cfg, s.shared.vid, s.items[me], pc);
    IdsBelowNext(cfg, s);
    HandAfter(cfg, s, me, msg, retries, pc, call, ch);
    MyStep(cfg, s, s, Run(me, ch));
    AnswerTells(s.shared, me, call, ch);
  }

  lemma ForwardOn(a: Shared, b: Shared, c: Shared)
    requires Forward(a, b) && Forward(b, c)
    ensures Forward(a, c)
  {
    forall st <- a.rows ensures st in c.rows && (a.rows[st] == c.rows[st] || Rank(a.rows[st]) < Rank(c.rows[st])) {
      assert st in b.rows;
    }
  }

  lemma SameCall(cfg: Config, vid: string, h: Item, pc: Pc)
    requires h.Hand? && h.pc == pc
    ensures NextCall(cfg, vid, h) == NextCall(cfg, vid, Hand(h.msg, h.retries, false, pc))
    ensures forall r :: Resume(cfg, h, r) == Resume(cfg, Hand(h.msg, h.retries, false, pc), r)
  {
  }

  lemma IdsBelowNext(cfg: Config, s: State)
    requires Reachable(cfg, s)
    ensures forall i <- s.items :: i < s.next
  {
    ReachableOk(cfg, s);
  }

  lemma HandAfter(cfg: Config, s: State, me: nat, msg: Msg, retries: nat, pc: Pc, call: Call, ch: Choice)
    requires me in s.items && s.items[me].Hand? && s.items[me].msg == msg && s.items[me].retries == retries
               && s.items[me].pc == pc
    requires me < s.next && !ch.skipClose && call == NextCall(cfg, s.shared.vid, s.items[me])
               && Enabled(cfg, s, Run(me, ch))
    ensures var after := Do(cfg, s, Run(me, ch));
            var (sh', r) := Effect(s.shared, me, call, ch);
            var next := Resume(cfg, s.items[me], r);
            && after.shared == sh'
            && if next.Gone? then me !in after.items || after.items[me] == Queued(Main, msg, retries)
               else me in after.items && after.items[me].Hand? && after.items[me].msg == msg
                    && after.items[me].retries == retries && after.items[me].pc == next
  {
  }

  lemma AnswerTells(sh: Shared, me: nat, call: Call, ch: Choice)
    ensures var (sh', r) := Effect(sh, me, call, ch); Told(sh', call, r)
  {
  }
}
