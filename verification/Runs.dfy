/** How runs are built: one message or hand is followed call by call, whatever else lies around. */
module Runs {
  import opened Basics
  import opened StepTable
  import opened Renditions
  import opened Pipeline
  import opened PipelineInvariant
  import opened PipelineSteps
  import opened PipelineTheorems

  ghost predicate Somewhere(cfg: Config, sh: Shared, item: Item, rest: Items, next: nat, me: nat) {
    me !in rest && Reachable(cfg, State(sh, rest[me := item], next))
  }

  /** A reachable state with these tables holds this item beside the rest. */
  ghost predicate Held(cfg: Config, sh: Shared, item: Item, rest: Items) {
    exists next, me :: Somewhere(cfg, sh, item, rest, next, me)
  }

  /** What lies around still does. */
  predicate StillThere(rest: Items, rest': Items) {
    forall i <- rest :: i in rest' && rest'[i] == rest[i]
  }

  lemma IdsBelow(cfg: Config, s: State)
    requires Reachable(cfg, s)
    ensures s.next !in s.items
  {
    ReachableOk(cfg, s);
  }

  lemma Delivered(cfg: Config, sh: Shared, msg: Msg, rest: Items)
    requires Held(cfg, sh, Queued(Main, msg, 0), rest)
    ensures Held(cfg, sh, Hand(msg, 0, false, InitialPc(msg)), rest)
  {
    var next: nat, me: nat :| Somewhere(cfg, sh, Queued(Main, msg, 0), rest, next, me);
    var s := State(sh, rest[me := Queued(Main, msg, 0)], next);
    var h := Hand(msg, 0, false, InitialPc(msg));
    ReachableStep(cfg, s, Deliver(me));
    assert s.items[me := h] == rest[me := h];
    assert Somewhere(cfg, sh, h, rest, next, me);
  }

  // ---------------------------------------------------------------- calls

  predicate QuietCall(call: Call) {
    !call.SendTrigger? && !call.SendResult? && !call.SendDelay? && !call.SendDlq? && !call.AckMessage?
  }

  predicate Untroubled(ch: Choice) {
    ch.fault.NoFault? && !ch.skipClose
  }

  lemma QuietStep(cfg: Config, sh: Shared, me: nat, h: Item, call: Call, ch: Choice)
    requires h.Hand? && call == NextCall(cfg, sh.vid, h) && QuietCall(call) && Untroubled(ch)
    ensures var (sh', r) := Apply(sh, me, call, ch); StepHand(cfg, sh, me, h, ch) == (sh', h.(pc := Resume(cfg, h, r)))
    ensures StepCopy(cfg, sh, h, ch) == None
  {
  }

  lemma StaysInHand(cfg: Config, sh: Shared, rest: Items, next: nat, me: nat, h: Item, ch: Choice, sh': Shared,
      h': Item)
    requires h.Hand? && h'.Hand? && !h'.pc.Gone? && Enabled(cfg, State(sh, rest[me := h], next), Run(me, ch))
    requires StepHand(cfg, sh, me, h, ch) == (sh', h') && StepCopy(cfg, sh, h, ch) == None
    ensures Do(cfg, State(sh, rest[me := h], next), Run(me, ch)) == State(sh', rest[me := h'], next)
  {
    assert rest[me := h][me := h'] == rest[me := h'];
  }

  /** A call that publishes nothing: the hand goes where the answer sends it. */
  lemma Turn(cfg: Config, sh: Shared, msg: Msg, pc: Pc, rest: Items, call: Call, ch: Choice)
    returns (me: nat, sh': Shared, r: Resp)
    requires Held(cfg, sh, Hand(msg, 0, false, pc), rest) && Untroubled(ch)
    requires call == NextCall(cfg, sh.vid, Hand(msg, 0, false, pc)) && QuietCall(call)
    ensures (sh', r) == Apply(sh, me, call, ch)
    ensures var next := Resume(cfg, Hand(msg, 0, false, pc), r);
            !next.Gone? ==> Held(cfg, sh', Hand(msg, 0, false, next), rest)
  {
    var h := Hand(msg, 0, false, pc);
    var next: nat, i: nat :| Somewhere(cfg, sh, h, rest, next, i);
    var s := State(sh, rest[i := h], next);
    me := i;
    sh', r := Apply(sh, me, call, ch).0, Apply(sh, me, call, ch).1;
    ReachableStep(cfg, s, Run(me, ch));
    var h' := h.(pc := Resume(cfg, h, r));
    QuietStep(cfg, sh, me, h, call, ch);
    if !h'.pc.Gone? {
      StaysInHand(cfg, sh, rest, next, me, h, ch, sh', h');
      assert Somewhere(cfg, sh', h', rest, next, me);
    }
  }

  predicate SendsAt(call: Call, pc: Pc) {
    (call.SendTrigger? && (pc.Sending? || pc.SendingNext?)) || (call.SendResult? && pc.Reporting?)
  }

  function Copied(call: Call): Item
    requires call.SendTrigger? || call.SendResult?
  {
    Queued(Main, if call.SendTrigger? then TriggerMsg(call.step) else ResultMsg(call.step, call.status), 0)
  }

  /** The tables but for what was sent. */
  predicate SameTables(a: Shared, b: Shared) {
    && b.rows == a.rows && b.media == a.media && b.vid == a.vid && b.hls == a.hls && b.upStatus == a.upStatus
    && b.deleted == a.deleted && b.videoDeleted == a.videoDeleted
  }

  lemma PublishLeavesTables(sh: Shared, me: nat, call: Call)
    requires call.SendTrigger? || call.SendResult?
    ensures SameTables(sh, Apply(sh, me, call, FINE).0) && Apply(sh, me, call, FINE).1 == Fine
  {
  }

  lemma PublishGoesOn(cfg: Config, h: Item)
    requires h.Hand? && (h.pc.Sending? || h.pc.SendingNext? || h.pc.Reporting?)
    ensures !Resume(cfg, h, Fine).Gone?
  {
  }

  lemma PublishStep(cfg: Config, sh: Shared, me: nat, h: Item, call: Call)
    requires h.Hand? && call == NextCall(cfg, sh.vid, h) && (call.SendTrigger? || call.SendResult?)
    ensures var (sh', r) := Apply(sh, me, call, FINE);
            StepHand(cfg, sh, me, h, FINE) == (sh', h.(pc := Resume(cfg, h, r)))
    ensures StepCopy(cfg, sh, h, FINE) == Some(Copied(call))
  {
  }

  lemma PublishedBeside(cfg: Config, sh: Shared, h: Item, rest: Items, call: Call)
    returns (sh': Shared, me: nat, next: nat)
    requires Held(cfg, sh, h, rest) && h.Hand? && call == NextCall(cfg, sh.vid, h) && SendsAt(call, h.pc)
    ensures SameTables(sh, sh') && me != next && me !in rest && next !in rest
    ensures Reachable(cfg, State(sh', rest[me := h.(pc := Resume(cfg, h, Fine))][next := Copied(call)], next + 1))
  {
    var n: nat, i: nat :| Somewhere(cfg, sh, h, rest, n, i);
    me, next := i, n;
    var s := State(sh, rest[me := h], next);
    IdsBelow(cfg, s);
    sh' := Apply(sh, me, call, FINE).0;
    var h' := h.(pc := Resume(cfg, h, Fine));
    PublishLeavesTables(sh, me, call);
    ReachableStep(cfg, s, Run(me, FINE));
    PublishGoesOn(cfg, h);
    PublishStep(cfg, sh, me, h, call);
    assert rest[me := h][me := h'] == rest[me := h'];
    assert Do(cfg, s, Run(me, FINE)) == State(sh', rest[me := h'][next := Copied(call)], next + 1);
  }

  /** A call that publishes: from here on we follow the new message. */
  lemma Publishes(cfg: Config, sh: Shared, msg: Msg, pc: Pc, rest: Items, call: Call)
      returns (sh': Shared, rest': Items)
    requires Held(cfg, sh, Hand(msg, 0, false, pc), rest)
    requires call == NextCall(cfg, sh.vid, Hand(msg, 0, false, pc)) && SendsAt(call, pc)
    ensures SameTables(sh, sh') && StillThere(rest, rest') && Held(cfg, sh', Copied(call), rest')
  {
    var h := Hand(msg, 0, false, pc);
    var me, next;
    sh', me, next := PublishedBeside(cfg, sh, h, rest, call);
    rest' := rest[me := h.(pc := Resume(cfg, h, Fine))];
    assert Somewhere(cfg, sh', Copied(call), rest', next + 1, next);
  }

  /** A call that publishes: we leave the new message and follow the hand. */
  lemma PublishesAndGoesOn(cfg: Config, sh: Shared, msg: Msg, pc: Pc, rest: Items, call: Call)
    returns (sh': Shared, rest': Items, p: nat)
    requires Held(cfg, sh, Hand(msg, 0, false, pc), rest)
    requires call == NextCall(cfg, sh.vid, Hand(msg, 0, false, pc)) && SendsAt(call, pc)
    ensures SameTables(sh, sh') && StillThere(rest, rest') && p in rest' && rest'[p] == Copied(call)
    ensures Held(cfg, sh', Hand(msg, 0, false, Resume(cfg, Hand(msg, 0, false, pc), Fine)), rest')
  {
    var h := Hand(msg, 0, false, pc);
    var h' := h.(pc := Resume(cfg, h, Fine));
    var me, next;
    sh', me, next := PublishedBeside(cfg, sh, h, rest, call);
    rest', p := rest[next := Copied(call)], next;
    assert rest[me := h'][next := Copied(call)] == rest'[me := h'];
    assert Somewhere(cfg, sh', h', rest', next + 1, me);
  }

  /** We follow something else that lies around. */
  lemma Turns(cfg: Config, sh: Shared, item: Item, rest: Items, p: nat) returns (rest': Items, q: nat)
    requires Held(cfg, sh, item, rest) && p in rest
    ensures Held(cfg, sh, rest[p], rest') && q in rest' && rest'[q] == item
  {
    var next: nat, me: nat :| Somewhere(cfg, sh, item, rest, next, me);
    rest', q := (rest - {p})[me := item], me;
    assert rest'[p := rest[p]] == rest[me := item];
    assert Somewhere(cfg, sh, rest[p], rest', next, p);
  }

  /** A worker leaves its own done update out. */
  lemma Skips(cfg: Config, sh: Shared, msg: Msg, st: StepName, rest: Items)
    requires !cfg.shipped && Held(cfg, sh, Hand(msg, 0, false, Closing(st)), rest)
    ensures Held(cfg, sh, Hand(msg, 0, false, Reporting(st)), rest)
  {
    var h, h' := Hand(msg, 0, false, Closing(st)), Hand(msg, 0, false, Reporting(st));
    var skip := FINE.(skipClose := true);
    var next: nat, me: nat :| Somewhere(cfg, sh, h, rest, next, me);
    var s := State(sh, rest[me := h], next);
    ReachableStep(cfg, s, Run(me, skip));
    StaysInHand(cfg, sh, rest, next, me, h, skip, sh, h');
    assert Somewhere(cfg, sh, h', rest, next, me);
  }

  /** One that is no longer to be followed but looked at. */
  lemma Seen(cfg: Config, sh: Shared, item: Item, rest: Items) returns (s: State, me: nat)
    requires Held(cfg, sh, item, rest)
    ensures Reachable(cfg, s) && s.shared == sh && me !in rest && s.items == rest[me := item]
  {
    var next: nat, i: nat :| Somewhere(cfg, sh, item, rest, next, i);
    s, me := State(sh, rest[i := item], next), i;
  }

  // ---------------------------------------------------------------- up to the first claim

  function Created(k: nat): StepRows
    requires k <= |PIPELINE_STEPS|
  {
    if k == 0 then map[] else Created(k - 1)[PIPELINE_STEPS[k - 1] := Pending]
  }

  lemma {:induction false} CreatedBefore(k: nat, x: StepName)
    requires k <= |PIPELINE_STEPS| && x in Created(k)
    ensures exists j :: 0 <= j < k && PIPELINE_STEPS[j] == x
    ensures Created(k)[x] == Pending
  {
    if x != PIPELINE_STEPS[k - 1] { CreatedBefore(k - 1, x); }
  }

  lemma NotCreatedYet(k: nat)
    requires k < |PIPELINE_STEPS|
    ensures PIPELINE_STEPS[k] !in Created(k)
  {
    forall x | x in Created(k) ensures x != PIPELINE_STEPS[k] { CreatedBefore(k, x); }
  }

  lemma AllCreated()
    ensures forall st :: st in Created(5) <==> !st.OtherStep?
    ensures forall st <- Created(5) :: Created(5)[st] == Pending
  {
    assert Created(1) == map[Thumbnail := Pending];
    assert Created(2) == Created(1)[Metadata := Pending];
    assert Created(3) == Created(2)[Transcode := Pending];
    assert Created(4) == Created(3)[Segment := Pending];
    assert Created(5) == Created(4)[Publish := Pending];
  }

  /** A live upload with these rows, no rendition and no playback path. */
  predicate Early(sh: Shared, rows: StepRows) {
    sh.rows == rows && !sh.deleted && !sh.videoDeleted && sh.media.rends == [] && sh.hls == ""
  }

  lemma {:induction false} CreatesRows(cfg: Config, sh: Shared, k: nat, rest: Items) returns (sh': Shared)
    requires k < |PIPELINE_STEPS| && Held(cfg, sh, Hand(StartMsg, 0, false, Creating(k)), rest) && Early(sh, Created(k))
    ensures Held(cfg, sh', Hand(StartMsg, 0, false, Triggering(0)), rest) && Early(sh', Created(|PIPELINE_STEPS|))
    decreases |PIPELINE_STEPS| - k
  {
    NotCreatedYet(k);
    var me, r;
    me, sh', r := Turn(cfg, sh, StartMsg, Creating(k), rest, InsertStep(PIPELINE_STEPS[k]), FINE);
    assert Early(sh', Created(k + 1)) && r == Fine;
    if k + 1 < |PIPELINE_STEPS| {
      sh' := CreatesRows(cfg, sh', k + 1, rest);
    }
  }

  predicate ClaimsAt(pc: Pc, sending: Pc, st: StepName) {
    || (pc.Triggering? && pc.k < |INITIAL_STEPS| && sending == Sending(pc.k) && st == INITIAL_STEPS[pc.k])
    || (pc == TriggeringNext(st) && sending == SendingNext(st))
  }

  /** The processing update of a pending row applies, and this hand goes on to publish. */
  lemma Claims(cfg: Config, sh: Shared, msg: Msg, pc: Pc, sending: Pc, st: StepName, rest: Items) returns (sh': Shared)
    requires Held(cfg, sh, Hand(msg, 0, false, pc), rest) && Is(sh.rows, st, Pending) && ClaimsAt(pc, sending, st)
    ensures Held(cfg, sh', Hand(msg, 0, false, sending), rest)
    ensures SameTables(sh.(rows := sh.rows[st := Processing]), sh')
  {
    assert NextCall(cfg, sh.vid, Hand(msg, 0, false, pc)) == UpdateStep(st, Processing);
    var me, r;
    me, sh', r := Turn(cfg, sh, msg, pc, rest, UpdateStep(st, Processing), FINE);
    assert (sh', r) == (AfterUpdate(sh, me, st, Processing), Outcome(true));
    assert Resume(cfg, Hand(msg, 0, false, pc), r) == sending;
  }

  /** A finalized upload whose start message waits. */
  lemma Registered(cfg: Config, vid: string) returns (sh: Shared)
    ensures Held(cfg, sh, Queued(Main, StartMsg, 0), map[]) && Early(sh, map[])
  {
    var s0 := Unborn(vid);
    assert Init(s0) && Legal(cfg, s0, []) && Exec(cfg, s0, []) == s0;
    ReachableStep(cfg, s0, NewClient);
    var s1 := Do(cfg, s0, NewClient);
    ReachableStep(cfg, s1, Client(0, FINE));
    var s2 := Do(cfg, s1, Client(0, FINE));
    ReachableStep(cfg, s2, Client(0, FINE));
    var s3 := Do(cfg, s2, Client(0, FINE));
    ReachableStep(cfg, s3, Client(0, FINE));
    var s4 := Do(cfg, s3, Client(0, FINE));
    ReachableStep(cfg, s4, Dispatch);
    var s5 := Do(cfg, s4, Dispatch);
    var rest: Items := map[];
    sh := Committed(s0.shared);
    assert s5 == State(sh, rest[1 := Queued(Main, StartMsg, 0)], 2);
    assert Somewhere(cfg, sh, Queued(Main, StartMsg, 0), rest, 2, 1);
  }

  /** The start message is at work on its first claim. */
  lemma Starts(cfg: Config, sh: Shared, rest: Items) returns (sh': Shared)
    requires Held(cfg, sh, Queued(Main, StartMsg, 0), rest) && Early(sh, map[])
    ensures Held(cfg, sh', Hand(StartMsg, 0, false, Sending(0)), rest)
    ensures Early(sh', Created(|PIPELINE_STEPS|)[Metadata := Processing])
  {
    Delivered(cfg, sh, StartMsg, rest);
    sh' := CreatesRows(cfg, sh, 0, rest);
    AllCreated();
    sh' := Claims(cfg, sh', StartMsg, Triggering(0), Sending(0), Metadata, rest);
  }

  // ---------------------------------------------------------------- calls that workers share

  lemma ReachablePath(cfg: Config, sh: Shared, item: Item, rest: Items)
    requires Held(cfg, sh, item, rest) && item.Hand?
    ensures sh.path != ""
  {
    var s, me := Seen(cfg, sh, item, rest);
    TransactionalStart(cfg, s);
    assert s.items[me] == item;
  }

  lemma AfterContextStays(st: StepName, path: string)
    ensures !AfterContext(st, path).Gone?
  {
  }

  lemma Fetches(cfg: Config, sh: Shared, st: StepName, rest: Items)
    requires Held(cfg, sh, Queued(Main, TriggerMsg(st), 0), rest) && !sh.deleted
    ensures Held(cfg, sh, Hand(TriggerMsg(st), 0, false, AfterContext(st, sh.path)), rest)
  {
    Delivered(cfg, sh, TriggerMsg(st), rest);
    var me, sh', r := Turn(cfg, sh, TriggerMsg(st), Fetching(st), rest, GetContext, FINE);
    assert sh' == sh && r == Context(sh.path);
    assert Resume(cfg, Hand(TriggerMsg(st), 0, false, Fetching(st)), r) == AfterContext(st, sh.path);
    AfterContextStays(st, sh.path);
  }

  lemma ReadsVideo(cfg: Config, sh: Shared, msg: Msg, pc: Pc, rest: Items)
    requires Held(cfg, sh, Hand(msg, 0, false, pc), rest) && !sh.videoDeleted
    requires NextCall(cfg, sh.vid, Hand(msg, 0, false, pc)) == ReadVideo
    ensures var next := Resume(cfg, Hand(msg, 0, false, pc), Playback(sh.hls));
            !next.Gone? ==> Held(cfg, sh, Hand(msg, 0, false, next), rest)
  {
    var me, sh', r := Turn(cfg, sh, msg, pc, rest, ReadVideo, FINE);
    assert sh' == sh && r == Playback(sh.hls);
  }

  /** The metadata worker up to its first insert, for whatever the probe measures. */
  lemma Measures(cfg: Config, sh: Shared, rest: Items, width: int, height: int) returns (batch: seq<Rendition>)
    requires Held(cfg, sh, Queued(Main, TriggerMsg(Metadata), 0), rest) && !sh.deleted && !sh.videoDeleted
    ensures batch == BatchFor(sh.path, width, height, LadderFor(height))
    ensures Held(cfg, sh, Hand(TriggerMsg(Metadata), 0, false, ReadingForMetadata(batch)), rest)
  {
    var msg := TriggerMsg(Metadata);
    Fetches(cfg, sh, Metadata, rest);
    batch := BatchFor(sh.path, width, height, LadderFor(height));
    var me, sh', r := Turn(cfg, sh, msg, Extracting(sh.path), rest, Extract, FINE.(width := width, height := height));
    assert sh' == sh && r == Dimensions(width, height);
  }

  lemma ReadsForMetadata(cfg: Config, sh: Shared, batch: seq<Rendition>, rest: Items)
    requires Held(cfg, sh, Hand(TriggerMsg(Metadata), 0, false, ReadingForMetadata(batch)), rest) && !sh.videoDeleted
    ensures Held(cfg, sh, Hand(TriggerMsg(Metadata), 0, false, WritingMetadata(batch, sh.hls)), rest)
  {
    var msg := TriggerMsg(Metadata);
    ReadsVideo(cfg, sh, msg, ReadingForMetadata(batch), rest);
    assert Resume(cfg, Hand(msg, 0, false, ReadingForMetadata(batch)), Playback(sh.hls))
        == WritingMetadata(batch, sh.hls);
  }

  lemma WritesMetadata(cfg: Config, sh: Shared, batch: seq<Rendition>, rest: Items)
    requires Held(cfg, sh, Hand(TriggerMsg(Metadata), 0, false, ReadingForMetadata(batch)), rest) && !sh.videoDeleted
    ensures Held(cfg, sh, Hand(TriggerMsg(Metadata), 0, false, Inserting(batch, 0)), rest)
  {
    var msg := TriggerMsg(Metadata);
    var pc := WritingMetadata(batch, sh.hls);
    ReadsForMetadata(cfg, sh, batch, rest);
    var me, sh', r := Turn(cfg, sh, msg, pc, rest, WriteVideo(sh.hls), FINE);
    assert r == Fine && sh' == sh;
    assert Resume(cfg, Hand(msg, 0, false, pc), Fine) == Inserting(batch, 0);
  }
}
