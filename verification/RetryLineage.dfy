/** All copies of one message under the retry protocol, with every publish and every ack a step of its own
    and processes dying in between: exactly when a message can be lost, and what becomes of it otherwise. */
module RetryLineage {
  import opened Basics
  import opened Decimal
  import opened Retry

  // ---------------------------------------------------------------- the machine

  /** `Superseded`: still unacked, but its next copy is published. */
  datatype Place = InQueue(name: string) | InHand | Superseded

  /** `failures`: how many published retries lie behind this copy. */
  datatype Copy = Copy(place: Place, message: Message, failures: nat, rejected: bool)

  datatype World = World(copies: map<nat, Copy>, next: nat, settled: nat)

  datatype Event =
    | Deliver(i: nat)                              // from the main queue into a consumer's hand
    | Elapse(i: nat, k: nat)                       // its time in the k-th delay queue is up
    | Succeed(i: nat)                              // handled and acked
    | Fail(i: nat, reason: string, fate: Fate)     // handling failed: HandleRetry's publish, or its requeue
    | Reject(i: nat, reason: string, fate: Fate)   // the body is unreadable: SendToDLQ's publish, or its requeue
    | AckOld(i: nat)                               // the ack after the publish
    | Lose(i: nat)                                 // the consumer, its channel or its ack is lost

  predicate Finite(cfg: RetryConfig) {
    MIN_INT64 <= cfg.maxRetries < 0x8000_0000
  }

  ghost predicate Enabled(queue: string, cfg: RetryConfig, w: World, e: Event) {
    e.i in w.copies &&
    var place := w.copies[e.i].place;
    match e
    case Deliver(_) => place == InQueue(queue)
    case Elapse(_, k) => 1 <= k <= |cfg.delays| && place == InQueue(DelayName(queue, k))
    case Succeed(_) => place.InHand?
    case Fail(_, _, _) => place.InHand?
    case Reject(_, _, _) => place.InHand?
    case AckOld(_) => place.Superseded?
    case Lose(_) => place.InHand? || place.Superseded?
  }

  function Moved(w: World, i: nat, place: Place): World
    requires i in w.copies
  {
    w.(copies := w.copies[i := w.copies[i].(place := place)])
  }

  /** A publish to a queue nobody declared stores nothing. */
  ghost function Sent(queue: string, cfg: RetryConfig, w: World, name: string, copy: Copy): World {
    if Declared(queue, cfg, name) then w.(copies := w.copies[w.next := copy], next := w.next + 1) else w
  }

  /** A message whose time is up goes where the arguments its delay queue was declared with say; it is dropped
      when they name no queue, or one that nobody declared. */
  ghost function HandedBack(queue: string, cfg: RetryConfig, w: World, i: nat, k: nat): World
    requires i in w.copies && 1 <= k <= |cfg.delays|
  {
    match DelayArgs(queue, cfg.delays[k - 1]).deadLetterTo
    case Some(name) =>
      if Declared(queue, cfg, name) then Moved(w, i, InQueue(name)) else w.(copies := w.copies - {i})
    case None => w.(copies := w.copies - {i})
  }

  /** Which is the main queue. */
  lemma BackToTheQueue(queue: string, cfg: RetryConfig, w: World, i: nat, k: nat)
    requires i in w.copies && 1 <= k <= |cfg.delays|
    ensures HandedBack(queue, cfg, w, i, k) == Moved(w, i, InQueue(queue))
  {
    ArgsMean(queue, cfg, cfg.delays[k - 1]);
  }

  /** What is left of the delivery after the publish: superseded, or requeued when the publish reports an
      error. */
  function Behind(queue: string, w: World, i: nat, fate: Fate): World
    requires i in w.copies
  {
    Moved(w, i, if fate.Works? then Superseded else InQueue(queue))
  }

  ghost function Do(queue: string, cfg: RetryConfig, w: World, e: Event): World
    requires Enabled(queue, cfg, w, e)
  {
    var c := w.copies[e.i];
    match e
    case Deliver(i) => Moved(w, i, InHand)
    case Elapse(i, k) => HandedBack(queue, cfg, w, i, k)
    case Succeed(i) => w.(copies := w.copies - {i}, settled := w.settled + 1)
    case Fail(i, reason, fate) =>
      var hop := NextHop(queue, c.message, reason, cfg);
      var behind := Behind(queue, w, i, fate);
      if fate.Refuses? then behind
      else Sent(queue, cfg, behind, hop.queue, Copy(InQueue(hop.queue), hop.message, c.failures + 1, c.rejected))
    case Reject(i, reason, fate) =>
      var dead := DeadAtOnce(c.message, reason);
      var behind := Behind(queue, w, i, fate);
      if fate.Refuses? then behind
      else Sent(queue, cfg, behind, DlqName(queue), Copy(InQueue(DlqName(queue)), dead, c.failures, true))
    case AckOld(i) => w.(copies := w.copies - {i})
    case Lose(i) => Moved(w, i, InQueue(queue))
  }

  ghost predicate Legal(queue: string, cfg: RetryConfig, w: World, events: seq<Event>)
    decreases |events|
  {
    events == [] || (Enabled(queue, cfg, w, events[0]) && Legal(queue, cfg, Do(queue, cfg, w, events[0]), events[1..]))
  }

  ghost function Exec(queue: string, cfg: RetryConfig, w: World, events: seq<Event>): World
    requires Legal(queue, cfg, w, events)
    decreases |events|
  {
    if events == [] then w else Exec(queue, cfg, Do(queue, cfg, w, events[0]), events[1..])
  }

  function Start(queue: string, m: Message): World {
    World(map[0 := Copy(InQueue(queue), m, 0, false)], 1, 0)
  }

  // ---------------------------------------------------------------- when nothing is lost

  /** The retry counts with which every failure finds its queue. */
  predicate Safe(count: int, cfg: RetryConfig) {
    count < MAX_INT64 && (count >= cfg.maxRetries || (0 <= count && cfg.maxRetries <= |cfg.delays|))
  }

  predicate Live(c: Copy) {
    !c.place.Superseded?
  }

  predicate AnyLive(copies: map<nat, Copy>) {
    exists i :: i in copies && Live(copies[i])
  }

  ghost predicate DeadLettered(queue: string, c: Copy) {
    c.place == InQueue(DlqName(queue))
  }

  /** Failures it takes to exhaust a message that starts with this count. */
  function FailuresToDeath(count: int, cfg: RetryConfig): nat {
    if count >= cfg.maxRetries then 1 else cfg.maxRetries - count + 1
  }

  /** One copy among the copies of `m`. */
  ghost predicate CopyOk(queue: string, cfg: RetryConfig, m: Message, c: Copy) {
    var start := RetryCount(m.headers);
    && SameContent(m, c.message)
    && c.failures <= FailuresToDeath(start, cfg)
    && (DeadLettered(queue, c) ==> c.rejected || c.failures == FailuresToDeath(start, cfg))
    && (!DeadLettered(queue, c) ==>
          && !c.rejected
          && RetryCount(c.message.headers) == start + c.failures
          && (c.failures > 0 ==> RetryCount(c.message.headers) <= cfg.maxRetries)
          && (c.place.InQueue? ==>
              c.place.name == queue || (c.failures > 0 && c.place.name == DelayName(queue, start + c.failures))))
  }

  ghost predicate Inv(queue: string, cfg: RetryConfig, m: Message, w: World) {
    && (w.settled > 0 || AnyLive(w.copies))
    && (forall i <- w.copies :: i < w.next && CopyOk(queue, cfg, m, w.copies[i]))
  }

  lemma SameContentOn(a: Message, b: Message, c: Message)
    requires SameContent(a, b) && SameContent(b, c)
    ensures SameContent(a, c)
  {
    assert c.properties.(persistent := a.properties.persistent)
        == c.properties.(persistent := b.properties.persistent).(persistent := a.properties.persistent);
  }

  /** The next copy of a live one is again a copy in order, and it has a queue. */
  lemma HopOk(queue: string, cfg: RetryConfig, m: Message, c: Copy, reason: string)
    requires Finite(cfg) && Safe(RetryCount(m.headers), cfg) && CopyOk(queue, cfg, m, c) && !DeadLettered(queue, c)
    ensures var hop := NextHop(queue, c.message, reason, cfg);
            Declared(queue, cfg, hop.queue)
            && CopyOk(queue, cfg, m, Copy(InQueue(hop.queue), hop.message, c.failures + 1, c.rejected))
  {
    var count := RetryCount(c.message.headers);
    var hop := NextHop(queue, c.message, reason, cfg);
    TargetDeclaredExactlyWhen(queue, c.message, reason, cfg);
    HopKeepsContent(queue, c.message, reason, cfg);
    SameContentOn(m, c.message, hop.message);
    NamesStayApart(queue, count + 1);
  }

  lemma RejectOk(queue: string, cfg: RetryConfig, m: Message, c: Copy, reason: string)
    requires CopyOk(queue, cfg, m, c)
    ensures var dead := DeadAtOnce(c.message, reason);
            CopyOk(queue, cfg, m, Copy(InQueue(DlqName(queue)), dead, c.failures, true))
  {
    var dead := DeadAtOnce(c.message, reason);
    assert c.message.headers - {RETRY_HEADER, ERROR_HEADER} == dead.headers - {RETRY_HEADER, ERROR_HEADER};
    assert c.message.properties.(persistent := true).(persistent := c.message.properties.persistent)
        == c.message.properties;
    SameContentOn(m, c.message, dead);
  }

  lemma MoveOk(queue: string, cfg: RetryConfig, m: Message, w: World, i: nat, place: Place)
    requires Inv(queue, cfg, m, w) && i in w.copies && !DeadLettered(queue, w.copies[i])
    requires place.InQueue? ==> place.name == queue
    ensures forall j <- Moved(w, i, place).copies :: j < w.next && CopyOk(queue, cfg, m, Moved(w, i, place).copies[j])
    ensures Live(w.copies[i].(place := place)) ==> Inv(queue, cfg, m, Moved(w, i, place))
  {
    NamesStayApart(queue, 0);
    var after := Moved(w, i, place);
    if Live(after.copies[i]) { assert AnyLive(after.copies); }
  }

  /** A publish of the next copy, before anything is acked. */
  lemma SendOk(queue: string, cfg: RetryConfig, m: Message, w: World, i: nat, fate: Fate, name: string, copy: Copy)
    requires Inv(queue, cfg, m, w) && i in w.copies && w.copies[i].place.InHand?
    requires copy.place == InQueue(name) && Declared(queue, cfg, name) && CopyOk(queue, cfg, m, copy)
    ensures Inv(queue, cfg, m, Sent(queue, cfg, Behind(queue, w, i, fate), name, copy))
  {
    var place := if fate.Works? then Superseded else InQueue(queue);
    MoveOk(queue, cfg, m, w, i, place);
    var after := Sent(queue, cfg, Moved(w, i, place), name, copy);
    assert Live(after.copies[w.next]);
  }

  lemma FailKeeps(queue: string, cfg: RetryConfig, m: Message, w: World, i: nat, reason: string, fate: Fate)
    requires Finite(cfg) && Safe(RetryCount(m.headers), cfg) && Inv(queue, cfg, m, w)
    requires Enabled(queue, cfg, w, Fail(i, reason, fate))
    ensures Inv(queue, cfg, m, Do(queue, cfg, w, Fail(i, reason, fate)))
  {
    var c := w.copies[i];
    if fate.Refuses? {
      MoveOk(queue, cfg, m, w, i, InQueue(queue));
    } else {
      var hop := NextHop(queue, c.message, reason, cfg);
      HopOk(queue, cfg, m, c, reason);
      SendOk(queue, cfg, m, w, i, fate, hop.queue, Copy(InQueue(hop.queue), hop.message, c.failures + 1, c.rejected));
    }
  }

  lemma RejectKeeps(queue: string, cfg: RetryConfig, m: Message, w: World, i: nat, reason: string, fate: Fate)
    requires Inv(queue, cfg, m, w) && Enabled(queue, cfg, w, Reject(i, reason, fate))
    ensures Inv(queue, cfg, m, Do(queue, cfg, w, Reject(i, reason, fate)))
  {
    var c := w.copies[i];
    if fate.Refuses? {
      MoveOk(queue, cfg, m, w, i, InQueue(queue));
    } else {
      RejectOk(queue, cfg, m, c, reason);
      SendOk(queue, cfg, m, w, i, fate, DlqName(queue),
             Copy(InQueue(DlqName(queue)), DeadAtOnce(c.message, reason), c.failures, true));
    }
  }

  lemma LeaveKeeps(queue: string, cfg: RetryConfig, m: Message, w: World, e: Event)
    requires Inv(queue, cfg, m, w) && Enabled(queue, cfg, w, e) && (e.Succeed? || e.AckOld?)
    ensures Inv(queue, cfg, m, Do(queue, cfg, w, e))
  {
    if e.AckOld? && w.settled == 0 {
      var j :| j in w.copies && Live(w.copies[j]);
      assert j in (w.copies - {e.i}) && Live((w.copies - {e.i})[j]);
    }
  }

  lemma MoveKeeps(queue: string, cfg: RetryConfig, m: Message, w: World, e: Event)
    requires Inv(queue, cfg, m, w) && Enabled(queue, cfg, w, e) && (e.Deliver? || e.Elapse? || e.Lose?)
    ensures Inv(queue, cfg, m, Do(queue, cfg, w, e))
  {
    NamesStayApart(queue, 0);
    if e.Elapse? {
      NamesStayApart(queue, e.k);
      BackToTheQueue(queue, cfg, w, e.i, e.k);
    }
    MoveOk(queue, cfg, m, w, e.i, if e.Deliver? then InHand else InQueue(queue));
  }

  lemma StepKeeps(queue: string, cfg: RetryConfig, m: Message, w: World, e: Event)
    requires Finite(cfg) && Safe(RetryCount(m.headers), cfg) && Inv(queue, cfg, m, w) && Enabled(queue, cfg, w, e)
    ensures Inv(queue, cfg, m, Do(queue, cfg, w, e))
  {
    match e
    case Fail(i, reason, fate) => FailKeeps(queue, cfg, m, w, i, reason, fate);
    case Reject(i, reason, fate) => RejectKeeps(queue, cfg, m, w, i, reason, fate);
    case Succeed(_) => LeaveKeeps(queue, cfg, m, w, e);
    case AckOld(_) => LeaveKeeps(queue, cfg, m, w, e);
    case _ => MoveKeeps(queue, cfg, m, w, e);
  }

  lemma {:induction false} RunsKeep(queue: string, cfg: RetryConfig, m: Message, w: World, events: seq<Event>)
    requires Finite(cfg) && Safe(RetryCount(m.headers), cfg) && Inv(queue, cfg, m, w) && Legal(queue, cfg, w, events)
    ensures Inv(queue, cfg, m, Exec(queue, cfg, w, events))
    decreases |events|
  {
    if events != [] {
      StepKeeps(queue, cfg, m, w, events[0]);
      RunsKeep(queue, cfg, m, Do(queue, cfg, w, events[0]), events[1..]);
    }
  }

  lemma StartOk(queue: string, cfg: RetryConfig, m: Message)
    ensures Inv(queue, cfg, m, Start(queue, m))
  {
    NamesStayApart(queue, 0);
    assert Live(Start(queue, m).copies[0]);
    assert m.properties.(persistent := m.properties.persistent) == m.properties;
  }

  // ---------------------------------------------------------------- what a run promises

  /** Where a live copy can be: in the main queue, a delay queue, a hand or the dead letters. */
  ghost predicate Somewhere(queue: string, cfg: RetryConfig, c: Copy) {
    match c.place
    case InQueue(name) =>
      name == queue || name == DlqName(queue) || exists k :: 1 <= k <= |cfg.delays| && name == DelayName(queue, k)
    case InHand => true
    case Superseded => false
  }

  /** What a run leaves of one copy. */
  ghost predicate Accounted(queue: string, cfg: RetryConfig, m: Message, c: Copy) {
    var start := RetryCount(m.headers);
    && SameContent(m, c.message)
    && (Live(c) ==> Somewhere(queue, cfg, c))
    && (DeadLettered(queue, c) <==> c.rejected || c.failures == FailuresToDeath(start, cfg))
    && (start >= 0 && cfg.maxRetries >= 0 ==> c.failures <= cfg.maxRetries + 1)
  }

  /** Conservation: from a safe message, whatever fails, dies or is repeated, there is a copy in the main
      queue, a delay queue, a hand or the dead letters until some delivery has been handled and acked; every
      copy has the original's content; a copy waiting in a delay queue carries that queue's number; a copy is
      in the dead letters exactly when its body was found unreadable or it has behind it as many published
      retries as its first count allows. */
  lemma Conservation(queue: string, cfg: RetryConfig, m: Message, events: seq<Event>)
    requires Finite(cfg) && Safe(RetryCount(m.headers), cfg) && Legal(queue, cfg, Start(queue, m), events)
    ensures var w := Exec(queue, cfg, Start(queue, m), events);
            && (w.settled > 0 || exists i :: i in w.copies && Live(w.copies[i]) && Somewhere(queue, cfg, w.copies[i]))
            && (forall i <- w.copies :: Accounted(queue, cfg, m, w.copies[i]))
            && (forall i, k :: i in w.copies && w.copies[i].place == InQueue(DelayName(queue, k)) ==>
                  RetryCount(w.copies[i].message.headers) == k && 1 <= k <= |cfg.delays|)
  {
    StartOk(queue, cfg, m);
    RunsKeep(queue, cfg, m, Start(queue, m), events);
    var w := Exec(queue, cfg, Start(queue, m), events);
    forall i <- w.copies ensures Accounted(queue, cfg, m, w.copies[i]) {
      CopyIsAccounted(queue, cfg, m, w.copies[i]);
    }
    if w.settled == 0 {
      var i :| i in w.copies && Live(w.copies[i]);
      assert Somewhere(queue, cfg, w.copies[i]);
    }
    forall i, k | i in w.copies && w.copies[i].place == InQueue(DelayName(queue, k))
      ensures RetryCount(w.copies[i].message.headers) == k && 1 <= k <= |cfg.delays|
    {
      DelayedCarriesNumber(queue, cfg, m, w.copies[i], k);
    }
  }

  lemma DelayedCarriesNumber(queue: string, cfg: RetryConfig, m: Message, c: Copy, k: int)
    requires Finite(cfg) && Safe(RetryCount(m.headers), cfg) && CopyOk(queue, cfg, m, c)
    requires c.place == InQueue(DelayName(queue, k))
    ensures RetryCount(c.message.headers) == k && 1 <= k <= |cfg.delays|
  {
    NamesStayApart(queue, k);
    DelayNamesDiffer(queue, k, RetryCount(m.headers) + c.failures);
  }

  lemma CopyIsAccounted(queue: string, cfg: RetryConfig, m: Message, c: Copy)
    requires Finite(cfg) && Safe(RetryCount(m.headers), cfg) && CopyOk(queue, cfg, m, c)
    ensures Accounted(queue, cfg, m, c)
  {
    NamesStayApart(queue, RetryCount(m.headers) + c.failures);
    if c.place.InQueue? && !DeadLettered(queue, c) && c.place.name != queue {
      DelayedCarriesNumber(queue, cfg, m, c, RetryCount(m.headers) + c.failures);
    }
  }

  // ---------------------------------------------------------------- one copy in quiet runs

  predicate Quiet(e: Event) {
    match e
    case Fail(_, _, fate) => fate.Works?
    case Reject(_, _, fate) => fate.Works?
    case Lose(_) => false
    case _ => true
  }

  predicate OneCopy(w: World) {
    && (forall i, j :: i in w.copies && j in w.copies && Live(w.copies[i]) && Live(w.copies[j]) ==> i == j)
    && w.settled == (if AnyLive(w.copies) then 0 else 1)
  }

  lemma OnlyOne(w: World, i: nat)
    requires i in w.copies && Live(w.copies[i])
    requires forall j <- w.copies :: Live(w.copies[j]) ==> j == i
    requires w.settled == 0
    ensures OneCopy(w)
  {
  }

  /** The publish moves the liveness on to the new copy. */
  lemma OnlyTheNext(queue: string, cfg: RetryConfig, m: Message, w: World, i: nat, name: string, copy: Copy)
    requires Inv(queue, cfg, m, w) && OneCopy(w) && i in w.copies && Live(w.copies[i])
    requires Declared(queue, cfg, name) && Live(copy)
    ensures OneCopy(Sent(queue, cfg, Behind(queue, w, i, Works), name, copy))
  {
    var after := Sent(queue, cfg, Behind(queue, w, i, Works), name, copy);
    assert AnyLive(w.copies);
    OnlyOne(after, w.next);
  }

  lemma StillOne(w: World, i: nat)
    requires OneCopy(w) && i in w.copies && !Live(w.copies[i])
    ensures OneCopy(w.(copies := w.copies - {i}))
  {
    var after := w.copies - {i};
    forall j | j in w.copies && Live(w.copies[j]) ensures j in after && Live(after[j]) {}
    assert AnyLive(after) <==> AnyLive(w.copies);
  }

  lemma NoneAfterSuccess(w: World, i: nat)
    requires OneCopy(w) && i in w.copies && Live(w.copies[i])
    ensures OneCopy(World(w.copies - {i}, w.next, w.settled + 1))
  {
    assert AnyLive(w.copies);
    var after := w.copies - {i};
    assert forall j <- after :: !Live(after[j]);
  }

  /** A live copy's next publish has a queue to go to. */
  lemma HopDeclared(queue: string, cfg: RetryConfig, m: Message, c: Copy, reason: string)
    requires Finite(cfg) && Safe(RetryCount(m.headers), cfg) && CopyOk(queue, cfg, m, c) && !DeadLettered(queue, c)
    ensures Declared(queue, cfg, NextHop(queue, c.message, reason, cfg).queue)
  {
    HopOk(queue, cfg, m, c, reason);
  }

  lemma QuietFail(queue: string, cfg: RetryConfig, m: Message, w: World, i: nat, reason: string)
    requires Finite(cfg) && Safe(RetryCount(m.headers), cfg) && Inv(queue, cfg, m, w) && OneCopy(w)
    requires Enabled(queue, cfg, w, Fail(i, reason, Works))
    ensures OneCopy(Do(queue, cfg, w, Fail(i, reason, Works)))
  {
    var c := w.copies[i];
    var hop := NextHop(queue, c.message, reason, cfg);
    var copy := Copy(InQueue(hop.queue), hop.message, c.failures + 1, c.rejected);
    HopDeclared(queue, cfg, m, c, reason);
    OnlyTheNext(queue, cfg, m, w, i, hop.queue, copy);
    assert Do(queue, cfg, w, Fail(i, reason, Works)) == Sent(queue, cfg, Behind(queue, w, i, Works), hop.queue, copy);
  }

  lemma QuietReject(queue: string, cfg: RetryConfig, m: Message, w: World, i: nat, reason: string)
    requires Inv(queue, cfg, m, w) && OneCopy(w) && Enabled(queue, cfg, w, Reject(i, reason, Works))
    ensures OneCopy(Do(queue, cfg, w, Reject(i, reason, Works)))
  {
    var c := w.copies[i];
    var dead := DeadAtOnce(c.message, reason);
    OnlyTheNext(queue, cfg, m, w, i, DlqName(queue), Copy(InQueue(DlqName(queue)), dead, c.failures, true));
  }

  lemma QuietMove(w: World, i: nat, place: Place)
    requires OneCopy(w) && i in w.copies && Live(w.copies[i]) && !place.Superseded?
    ensures OneCopy(Moved(w, i, place))
  {
    assert AnyLive(w.copies);
    OnlyOne(Moved(w, i, place), i);
  }

  lemma QuietStepKeeps(queue: string, cfg: RetryConfig, m: Message, w: World, e: Event)
    requires Finite(cfg) && Safe(RetryCount(m.headers), cfg) && Inv(queue, cfg, m, w) && Enabled(queue, cfg, w, e)
    requires OneCopy(w) && Quiet(e)
    ensures OneCopy(Do(queue, cfg, w, e))
  {
    match e
    case Deliver(i) => QuietMove(w, i, InHand);
    case Elapse(i, k) =>
      BackToTheQueue(queue, cfg, w, i, k);
      QuietMove(w, i, InQueue(queue));
    case Succeed(i) => NoneAfterSuccess(w, i);
    case Fail(i, reason, _) => QuietFail(queue, cfg, m, w, i, reason);
    case Reject(i, reason, _) => QuietReject(queue, cfg, m, w, i, reason);
    case AckOld(i) => StillOne(w, i);
  }

  /** With a broker that does what it is told and consumers that do not die, there is exactly one copy at
      every moment until the message is handled, and none afterwards. */
  lemma {:induction false} ExactlyOneCopy(queue: string, cfg: RetryConfig, m: Message, w: World, events: seq<Event>)
    requires Finite(cfg) && Safe(RetryCount(m.headers), cfg) && Legal(queue, cfg, w, events)
    requires Inv(queue, cfg, m, w) && OneCopy(w) && forall e <- events :: Quiet(e)
    ensures OneCopy(Exec(queue, cfg, w, events))
    decreases |events|
  {
    if events != [] {
      StepKeeps(queue, cfg, m, w, events[0]);
      QuietStepKeeps(queue, cfg, m, w, events[0]);
      ExactlyOneCopy(queue, cfg, m, Do(queue, cfg, w, events[0]), events[1..]);
    }
  }

  lemma StartsWithOne(queue: string, cfg: RetryConfig, m: Message, events: seq<Event>)
    requires Finite(cfg) && Safe(RetryCount(m.headers), cfg) && Legal(queue, cfg, Start(queue, m), events)
    requires forall e <- events :: Quiet(e)
    ensures OneCopy(Exec(queue, cfg, Start(queue, m), events))
  {
    StartOk(queue, cfg, m);
    OnlyOne(Start(queue, m), 0);
    ExactlyOneCopy(queue, cfg, m, Start(queue, m), events);
  }

  // ---------------------------------------------------------------- when a message can be lost

  predicate Lost(w: World) {
    w.copies == map[] && w.settled == 0
  }

  ghost predicate CanBeLost(queue: string, cfg: RetryConfig, w: World) {
    exists events :: Legal(queue, cfg, w, events) && Lost(Exec(queue, cfg, w, events))
  }

  lemma StepBack(queue: string, cfg: RetryConfig, w: World, e: Event)
    requires Enabled(queue, cfg, w, e) && CanBeLost(queue, cfg, Do(queue, cfg, w, e))
    ensures CanBeLost(queue, cfg, w)
  {
    var events :| Legal(queue, cfg, Do(queue, cfg, w, e), events)
        && Lost(Exec(queue, cfg, Do(queue, cfg, w, e), events));
    var all := [e] + events;
    assert all[1..] == events;
    assert Legal(queue, cfg, w, all) && Exec(queue, cfg, w, all) == Exec(queue, cfg, Do(queue, cfg, w, e), events);
  }

  lemma LostNow(queue: string, cfg: RetryConfig, w: World)
    requires Lost(w)
    ensures CanBeLost(queue, cfg, w)
  {
    assert Legal(queue, cfg, w, []) && Exec(queue, cfg, w, []) == w;
  }

  function Single(i: nat, c: Copy): World {
    World(map[i := c], i + 1, 0)
  }

  /** An unroutable copy is published to no queue and then acked. */
  lemma DroppedAtOnce(queue: string, cfg: RetryConfig, i: nat, c: Copy)
    requires c.place == InQueue(queue) && !Routable(RetryCount(c.message.headers), cfg)
    ensures CanBeLost(queue, cfg, Single(i, c))
  {
    var w0 := Single(i, c);
    var w1 := Do(queue, cfg, w0, Deliver(i));
    TargetDeclaredExactlyWhen(queue, c.message, "", cfg);
    var w2 := Do(queue, cfg, w1, Fail(i, "", Works));
    var w3 := Do(queue, cfg, w2, AckOld(i));
    LostNow(queue, cfg, w3);
    StepBack(queue, cfg, w2, AckOld(i));
    StepBack(queue, cfg, w1, Fail(i, "", Works));
    StepBack(queue, cfg, w0, Deliver(i));
  }

  /** One failure, one wait: the same message comes back with its count one higher. */
  lemma ComesBack(queue: string, cfg: RetryConfig, i: nat, c: Copy)
    requires c.place == InQueue(queue)
    requires var next := RetryCount(c.message.headers) + 1;
               1 <= next <= |cfg.delays| && next <= cfg.maxRetries < 0x8000_0000
    ensures var again := Copy(InQueue(queue), NextHop(queue, c.message, "", cfg).message, c.failures + 1, c.rejected);
            && RetryCount(again.message.headers) == RetryCount(c.message.headers) + 1
            && (CanBeLost(queue, cfg, Single(i + 1, again)) ==> CanBeLost(queue, cfg, Single(i, c)))
  {
    var hop := NextHop(queue, c.message, "", cfg);
    var again := Copy(InQueue(queue), hop.message, c.failures + 1, c.rejected);
    HopKeepsContent(queue, c.message, "", cfg);
    TargetDeclaredExactlyWhen(queue, c.message, "", cfg);
    if CanBeLost(queue, cfg, Single(i + 1, again)) {
      var waiting := again.(place := InQueue(hop.queue));
      AckedAndBack(queue, cfg, i, c, waiting, RetryCount(c.message.headers) + 1);
      TakenAndFailed(queue, cfg, i, c, hop, waiting);
    }
  }

  lemma TakenAndFailed(queue: string, cfg: RetryConfig, i: nat, c: Copy, hop: Hop, waiting: Copy)
    requires c.place == InQueue(queue) && hop == NextHop(queue, c.message, "", cfg) && Declared(queue, cfg, hop.queue)
    requires waiting == Copy(InQueue(hop.queue), hop.message, c.failures + 1, c.rejected)
    requires CanBeLost(queue, cfg, World(map[i := c.(place := Superseded), i + 1 := waiting], i + 2, 0))
    ensures CanBeLost(queue, cfg, Single(i, c))
  {
    var w1 := Single(i, c.(place := InHand));
    assert Do(queue, cfg, w1, Fail(i, "", Works)) == World(map[i := c.(place := Superseded), i + 1 := waiting],
        i + 2, 0);
    StepBack(queue, cfg, w1, Fail(i, "", Works));
    assert Do(queue, cfg, Single(i, c), Deliver(i)) == w1;
    StepBack(queue, cfg, Single(i, c), Deliver(i));
  }

  lemma AckedAndBack(queue: string, cfg: RetryConfig, i: nat, c: Copy, waiting: Copy, k: int)
    requires 1 <= k <= |cfg.delays| && waiting.place == InQueue(DelayName(queue, k))
    requires CanBeLost(queue, cfg, Single(i + 1, waiting.(place := InQueue(queue))))
    ensures CanBeLost(queue, cfg, World(map[i := c.(place := Superseded), i + 1 := waiting], i + 2, 0))
  {
    var w2 := World(map[i := c.(place := Superseded), i + 1 := waiting], i + 2, 0);
    var w3 := Single(i + 1, waiting);
    BackToTheQueue(queue, cfg, w3, i + 1, k);
    assert Do(queue, cfg, w3, Elapse(i + 1, k)).copies == Single(i + 1, waiting.(place := InQueue(queue))).copies;
    StepBack(queue, cfg, w3, Elapse(i + 1, k));
    assert Do(queue, cfg, w2, AckOld(i)).copies == w3.copies;
    StepBack(queue, cfg, w2, AckOld(i));
  }

  /** Too few delays: fail, wait, and fail again until the delays run out. */
  lemma {:induction false} DroppedInTheEnd(queue: string, cfg: RetryConfig, i: nat, c: Copy)
    requires Finite(cfg) && c.place == InQueue(queue) && !Safe(RetryCount(c.message.headers), cfg)
    ensures CanBeLost(queue, cfg, Single(i, c))
    decreases |cfg.delays| - RetryCount(c.message.headers)
  {
    var count := RetryCount(c.message.headers);
    if !Routable(count, cfg) {
      DroppedAtOnce(queue, cfg, i, c);
    } else {
      assert 0 <= count < |cfg.delays| < cfg.maxRetries;
      ComesBack(queue, cfg, i, c);
      DroppedInTheEnd(queue, cfg, i + 1,
        Copy(InQueue(queue), NextHop(queue, c.message, "", cfg).message, c.failures + 1, c.rejected));
    }
  }

  /** A message can vanish without having been handled if and only if its first retry count is negative and
      below the maximum, or is too large to be counted on, or is below a maximum that the delays do not
      cover. */
  lemma LostExactlyWhen(queue: string, cfg: RetryConfig, m: Message)
    requires Finite(cfg)
    ensures CanBeLost(queue, cfg, Start(queue, m)) <==> !Safe(RetryCount(m.headers), cfg)
  {
    if !Safe(RetryCount(m.headers), cfg) {
      assert Start(queue, m) == Single(0, Copy(InQueue(queue), m, 0, false));
      DroppedInTheEnd(queue, cfg, 0, Copy(InQueue(queue), m, 0, false));
    } else if CanBeLost(queue, cfg, Start(queue, m)) {
      var events :| Legal(queue, cfg, Start(queue, m), events) && Lost(Exec(queue, cfg, Start(queue, m), events));
      StartOk(queue, cfg, m);
      RunsKeep(queue, cfg, m, Start(queue, m), events);
      assert false;
    }
  }

  /** A message without the header is never lost under the shipped configuration; one that arrives with the
      text "-1" can be. */
  lemma ShippedConfiguration(queue: string, m: Message)
    ensures RETRY_HEADER !in m.headers ==> !CanBeLost(queue, DEFAULT_RETRY_CONFIG, Start(queue, m))
    ensures RETRY_HEADER in m.headers && m.headers[RETRY_HEADER] == TextHeader(PrintInt(-1)) ==>
              CanBeLost(queue, DEFAULT_RETRY_CONFIG, Start(queue, m))
  {
    LostExactlyWhen(queue, DEFAULT_RETRY_CONFIG, m);
    AtoiReadsPrint(-1);
  }
}
