/** The retry, delay and dead-letter helpers over one broker channel: what each call publishes, where, and
    what becomes of the delivery. */
module Retry {
  import opened Basics
  import opened Decimal

  // ---------------------------------------------------------------- messages and headers

  /** A header as it arrives: any Go integer, a float by its exact value, a text, or anything else. */
  datatype HeaderValue = IntHeader(n: int) | FloatHeader(x: real) | TextHeader(text: string) | OtherHeader

  type Headers = map<string, HeaderValue>

  const RETRY_HEADER := "x-retry-count"
  const ERROR_HEADER := "x-final-error"

  datatype Properties = Properties(
    contentType: string, contentEncoding: string, persistent: bool, priority: int, correlationID: string,
    replyTo: string, expiration: string, messageID: string, timestamp: int, kind: string, userID: string, appID: string)

  datatype Message = Message(headers: Headers, properties: Properties, body: seq<int>)

  function ToInt64(n: int): (r: int)
    ensures MIN_INT64 <= r <= MAX_INT64
    ensures MIN_INT64 <= n <= MAX_INT64 ==> r == n
  {
    (n - MIN_INT64) % 0x1_0000_0000_0000_0000 + MIN_INT64
  }

  /** Go's conversion of a float in range to an integer: truncation toward zero. */
  function Truncate(x: real): int {
    if x >= 0.0 then x.Floor else -((-x).Floor)
  }

  /** The retry count a delivery carries; anything unreadable counts as none. */
  function RetryCount(headers: Headers): (count: int)
    ensures MIN_INT64 <= count <= MAX_INT64
  {
    if RETRY_HEADER !in headers then 0
    else match headers[RETRY_HEADER]
      case IntHeader(n) => ToInt64(n)
      case FloatHeader(x) => ToInt64(Truncate(x))
      case TextHeader(text) => (match Atoi(text) case Some(n) => n case None => 0)
      case OtherHeader => 0
  }

  datatype RetryConfig = RetryConfig(maxRetries: int, delays: seq<int>, dlqTtl: int)

  const SECOND := 1_000_000_000
  const DEFAULT_RETRY_CONFIG := RetryConfig(3, [SECOND, 10 * SECOND, 30 * SECOND], 7 * 24 * 3600 * SECOND)

  function DelayName(queue: string, attempt: int): string {
    queue + ".delay." + PrintInt(attempt)
  }

  function DlqName(queue: string): string {
    queue + ".dlq"
  }

  /** The names a consumer of `queue` declares: its own, the dead letters, and one delay queue a delay. */
  ghost predicate Declared(queue: string, cfg: RetryConfig, name: string) {
    name == queue || name == DlqName(queue) || exists k :: 1 <= k <= |cfg.delays| && name == DelayName(queue, k)
  }

  // ---------------------------------------------------------------- what a failed delivery becomes

  /** The next copy of a failed delivery and the queue it is published to. */
  datatype Hop = Hop(dead: bool, queue: string, message: Message)

  function NextAttempt(m: Message): int {
    ToInt64(RetryCount(m.headers) + 1)
  }

  function Redirected(m: Message, headers: Headers): Message {
    Message(headers, m.properties.(persistent := true), m.body)
  }

  function NextHop(queue: string, m: Message, reason: string, cfg: RetryConfig): Hop {
    var attempt := RetryCount(m.headers);
    var next := NextAttempt(m);
    if next <= cfg.maxRetries then
      Hop(false, DelayName(queue, next), Redirected(m, m.headers[RETRY_HEADER := IntHeader(ToInt32(next))]))
    else
      Hop(true, DlqName(queue), Redirected(m, m.headers[RETRY_HEADER := IntHeader(ToInt32(attempt))][ERROR_HEADER :=
          TextHeader(reason)]))
  }

  /** A copy differs from its origin only in the two headers and in being persistent. */
  predicate SameContent(a: Message, b: Message) {
    && b.body == a.body
    && b.properties.(persistent := a.properties.persistent) == a.properties
    && a.headers - {RETRY_HEADER, ERROR_HEADER} == b.headers - {RETRY_HEADER, ERROR_HEADER}
  }

  /** What a delivery's header counts as: a 64-bit integer as it is, a printed one as the number it prints, a
      fraction without what is behind the point, and anything else, or nothing, as zero. */
  lemma RetryCountReads(headers: Headers, n: int, text: string)
    requires MIN_INT64 <= n <= MAX_INT64
    ensures RetryCount(headers[RETRY_HEADER := IntHeader(n)]) == n
    ensures RetryCount(headers[RETRY_HEADER := TextHeader(PrintInt(n))]) == n
    ensures RetryCount(headers[RETRY_HEADER := FloatHeader(n as real)]) == n
    ensures 0 <= n < MAX_INT64 ==> RetryCount(headers[RETRY_HEADER := FloatHeader(n as real + 0.5)]) == n
    ensures MIN_INT64 < n <= 0 ==> RetryCount(headers[RETRY_HEADER := FloatHeader(n as real - 0.5)]) == n
    ensures Atoi(text).None? ==> RetryCount(headers[RETRY_HEADER := TextHeader(text)]) == 0
    ensures RetryCount(headers[RETRY_HEADER := OtherHeader]) == 0
    ensures RetryCount(headers - {RETRY_HEADER}) == 0
  {
    AtoiReadsPrint(n);
    TruncateDrops(n);
  }

  lemma TruncateDrops(n: int)
    ensures Truncate(n as real) == n
    ensures n >= 0 ==> Truncate(n as real + 0.5) == n
    ensures n <= 0 ==> Truncate(n as real - 0.5) == n
  {
    assert (n as real + 0.5).Floor == n;
    assert (-(n as real)).Floor == -n;
    assert -(n as real - 0.5) == (-n) as real + 0.5;
    assert ((-n) as real + 0.5).Floor == -n;
  }

  /** The next copy keeps the content and survives a broker's restart. It waits in the delay queue of the next
      attempt while the maximum allows one, and carries that attempt's number; otherwise it goes to the dead
      letters with the count it came with and the reason it failed. */
  lemma HopKeepsContent(queue: string, m: Message, reason: string, cfg: RetryConfig)
    ensures SameContent(m, NextHop(queue, m, reason, cfg).message)
    ensures var hop := NextHop(queue, m, reason, cfg);
            && hop.message.properties.persistent
            && (RetryCount(m.headers) < MAX_INT64 ==> (hop.dead <==> RetryCount(m.headers) + 1 > cfg.maxRetries))
            && (hop.dead ==>
                  && hop.queue == queue + ".dlq"
                  && ERROR_HEADER in hop.message.headers && hop.message.headers[ERROR_HEADER] == TextHeader(reason)
                  && (RetryCount(m.headers) == ToInt32(RetryCount(m.headers)) ==>
                        RetryCount(hop.message.headers) == RetryCount(m.headers)))
    ensures var hop := NextHop(queue, m, reason, cfg);
            !hop.dead && NextAttempt(m) == ToInt32(NextAttempt(m)) ==>
              RetryCount(hop.message.headers) == NextAttempt(m)
                  && hop.queue == DelayName(queue, RetryCount(hop.message.headers))
  {
    var hop := NextHop(queue, m, reason, cfg);
    assert m.headers - {RETRY_HEADER, ERROR_HEADER} == hop.message.headers - {RETRY_HEADER, ERROR_HEADER};
    assert m.properties.(persistent := true).(persistent := m.properties.persistent) == m.properties;
  }

  // ---------------------------------------------------------------- names

  lemma SameQueueSuffix(queue: string, a: string, b: string)
    requires queue + a == queue + b
    ensures a == b
  {
    assert (queue + a)[|queue|..] == a;
    assert (queue + b)[|queue|..] == b;
  }

  lemma DelayNamesDiffer(queue: string, j: int, k: int)
    ensures DelayName(queue, j) == DelayName(queue, k) ==> j == k
  {
    if DelayName(queue, j) == DelayName(queue, k) {
      assert queue + ".delay." + PrintInt(j) == (queue + ".delay.") + PrintInt(j);
      SameQueueSuffix(queue + ".delay.", PrintInt(j), PrintInt(k));
      PrintInjective(j, k);
    }
  }

  lemma NamesStayApart(queue: string, k: int)
    ensures DelayName(queue, k) != DlqName(queue) && DelayName(queue, k) != queue && DlqName(queue) != queue
  {
    var delay := DelayName(queue, k);
    assert delay == queue + (".delay." + PrintInt(k));
    assert |delay| > |queue| + 7;
    assert |DlqName(queue)| == |queue| + 4;
  }

  /** When the next publish has a queue to go to. */
  predicate Routable(count: int, cfg: RetryConfig) {
    var next := ToInt64(count + 1);
    next > cfg.maxRetries || 1 <= next <= |cfg.delays|
  }

  /** Exactly then: the target is declared if and only if the delivery goes to the dead letters or its next
      attempt has a delay. */
  lemma TargetDeclaredExactlyWhen(queue: string, m: Message, reason: string, cfg: RetryConfig)
    ensures Declared(queue, cfg, NextHop(queue, m, reason, cfg).queue) <==> Routable(RetryCount(m.headers), cfg)
  {
    var hop := NextHop(queue, m, reason, cfg);
    if !hop.dead {
      DelayDeclaredExactlyWhen(queue, cfg, NextAttempt(m));
    }
  }

  lemma DelayDeclaredExactlyWhen(queue: string, cfg: RetryConfig, next: int)
    ensures Declared(queue, cfg, DelayName(queue, next)) <==> 1 <= next <= |cfg.delays|
  {
    NamesStayApart(queue, next);
    forall k | 1 <= k <= |cfg.delays| && DelayName(queue, next) == DelayName(queue, k) ensures k == next {
      DelayNamesDiffer(queue, k, next);
    }
  }

  // ---------------------------------------------------------------- the channel

  datatype QueueArgs = QueueArgs(ttl: Option<int>, deadLetterTo: Option<string>)

  datatype Queue = Queue(args: QueueArgs, ready: seq<Message>)

  /** What a turn means for its loop: go on, go on and report exhaustion, or die. */
  datatype Outcome = Again | Exhausted | Panics

  type Queues = map<string, Queue>

  /** The default exchange: a message for a queue nobody declared is dropped, and the publish succeeds. */
  function Stored(queues: Queues, name: string, m: Message): Queues {
    if name in queues then queues[name := queues[name].(ready := queues[name].ready + [m])] else queues
  }

  function Millis(duration: int): int {
    ToInt32(Quotient(duration, 1_000_000))
  }

  /** The queues one consumer needs, as declared up to the k-th delay. */
  function DlqArgs(cfg: RetryConfig): QueueArgs {
    QueueArgs(if cfg.dlqTtl > 0 then Some(Millis(cfg.dlqTtl)) else None, None)
  }

  function DelayArgs(queue: string, delay: int): QueueArgs {
    QueueArgs(Some(Millis(delay)), Some(queue))
  }

  /** A delay is given to the broker in whole milliseconds, as far as they fit 32 bits. */
  predicate Fits(duration: int) {
    0 <= duration && duration / 1_000_000 < 0x8000_0000
  }

  lemma MillisAreWhole(duration: int)
    requires Fits(duration)
    ensures Millis(duration) == duration / 1_000_000
  {
  }

  /** The shipped delays wait one, ten and thirty seconds; a dead letter is kept for seven days. */
  lemma ShippedDelays(queue: string)
    ensures var cfg := DEFAULT_RETRY_CONFIG;
            && cfg.maxRetries == 3 && |cfg.delays| == 3
            && DelayArgs(queue, cfg.delays[0]).ttl == Some(1000)
            && DelayArgs(queue, cfg.delays[1]).ttl == Some(10000)
            && DelayArgs(queue, cfg.delays[2]).ttl == Some(30000)
            && DlqArgs(cfg).ttl == Some(604800000)
  {
    MillisAreWhole(SECOND);
    MillisAreWhole(10 * SECOND);
    MillisAreWhole(30 * SECOND);
    MillisAreWhole(7 * 24 * 3600 * SECOND);
  }

  class Channel {
    var queues: Queues
    /** Deliveries in somebody's hands: where each came from and what it is. */
    var unacked: map<nat, (string, Message)>
    var ops: nat
    const fate: nat -> Fate

    constructor (fate: nat -> Fate)
      ensures queues == map[] && unacked == map[] && ops == 0 && this.fate == fate
    {
      this.fate := fate;
      queues, unacked, ops := map[], map[], 0;
    }

    ghost function Holds(): Holdings
      reads this
    {
      Holdings(queues, unacked)
    }

    /** Declaring a queue that exists with other arguments is an error; otherwise it exists afterwards. */
    method DeclareQueue(name: string, args: QueueArgs) returns (ok: bool)
      modifies this
      ensures ops == old(ops) + 1 && unacked == old(unacked)
      ensures ok ==> name in queues && queues[name].args == args
      ensures queues == old(queues) || (name !in old(queues) && queues == old(queues)[name := Queue(args, [])])
      ensures ok <==> fate(old(ops)).Works? && (name in old(queues) ==> old(queues)[name].args == args)
    {
      var f := fate(ops);
      ops := ops + 1;
      if f.Refuses? || (name in queues && queues[name].args != args) {
        return false;
      }
      if name !in queues {
        queues := queues[name := Queue(args, [])];
      }
      return f.Works?;
    }

    method Publish(name: string, m: Message) returns (ok: bool)
      modifies this
      ensures ops == old(ops) + 1 && unacked == old(unacked)
      ensures ok <==> fate(old(ops)).Works?
      ensures queues == if fate(old(ops)).Refuses? then old(queues) else Stored(old(queues), name, m)
    {
      var f := fate(ops);
      ops := ops + 1;
      if !f.Refuses? && name in queues {
        queues := queues[name := queues[name].(ready := queues[name].ready + [m])];
      }
      return f.Works?;
    }

    method Ack(tag: nat)
      modifies this
      ensures ops == old(ops) + 1 && queues == old(queues)
      ensures unacked == if fate(old(ops)).Refuses? then old(unacked) else old(unacked) - {tag}
    {
      var f := fate(ops);
      ops := ops + 1;
      if !f.Refuses? {
        unacked := unacked - {tag};
      }
    }

    /** Nack with requeue: the delivery goes back to where it came from. */
    method Requeue(tag: nat)
      requires tag in unacked
      modifies this
      ensures ops == old(ops) + 1
      ensures if fate(old(ops)).Refuses? then queues == old(queues) && unacked == old(unacked)
              else && queues == Stored(old(queues), old(unacked)[tag].0, old(unacked)[tag].1)
                   && unacked == old(unacked) - {tag}
    {
      var f := fate(ops);
      ops := ops + 1;
      if !f.Refuses? {
        var (name, m) := unacked[tag];
        if name in queues {
          queues := queues[name := queues[name].(ready := queues[name].ready + [m])];
        }
        unacked := unacked - {tag};
      }
    }
  }

  /** The queue is free to be declared like this: absent, or there with the same arguments. */
  predicate Compatible(queues: Queues, name: string, args: QueueArgs) {
    name in queues ==> queues[name].args == args
  }

  /** Arguments of a queue that keeps a message for a delay and then hands it back to `queue`. */
  predicate WaitsFor(args: QueueArgs, queue: string, delay: int) {
    && args.deadLetterTo == Some(queue) && args.ttl.Some?
    && (Fits(delay) ==> args.ttl.value == delay / 1_000_000)
  }

  /** Arguments of a queue that hands nothing on; it keeps a message for a positive time, or for good. */
  predicate DeadEnd(args: QueueArgs, ttl: int) {
    && args.deadLetterTo.None? && (args.ttl.Some? <==> ttl > 0)
    && (ttl > 0 && Fits(ttl) ==> args.ttl == Some(ttl / 1_000_000))
  }

  lemma ArgsMean(queue: string, cfg: RetryConfig, delay: int)
    ensures DeadEnd(DlqArgs(cfg), cfg.dlqTtl) && WaitsFor(DelayArgs(queue, delay), queue, delay)
  {
    if Fits(delay) { MillisAreWhole(delay); }
    if Fits(cfg.dlqTtl) { MillisAreWhole(cfg.dlqTtl); }
  }

  /** The dead-letter queue, then the delay queues in order; the first error ends it. It succeeds exactly when
      no queue is there with other arguments and the broker does as it is told. Then every target of `NextHop`
      with a delay exists: the k-th delay queue keeps a message for the k-th delay and hands it back to `queue`,
      the dead-letter queue hands nothing on, and nothing that was there before has changed. */
  method DeclareRetryInfrastructure(ch: Channel, queue: string, cfg: RetryConfig) returns (ok: bool)
    modifies ch
    ensures ch.unacked == old(ch.unacked)
    ensures forall name <- old(ch.queues) :: name in ch.queues && ch.queues[name] == old(ch.queues)[name]
    ensures forall name <- ch.queues :: name in old(ch.queues)
              || (Declared(queue, cfg, name) && ch.queues[name].ready == [])
    ensures ok ==> DlqName(queue) in ch.queues && ch.queues[DlqName(queue)].args == DlqArgs(cfg)
    ensures ok ==> forall k :: 1 <= k <= |cfg.delays| ==>
              DelayName(queue, k) in ch.queues && ch.queues[DelayName(queue, k)].args
                  == DelayArgs(queue, cfg.delays[k - 1])
    ensures ok ==> queue + ".dlq" in ch.queues && DeadEnd(ch.queues[queue + ".dlq"].args, cfg.dlqTtl)
    ensures ok ==> forall k :: 1 <= k <= |cfg.delays| ==>
              var name := queue + ".delay." + PrintInt(k);
              name in ch.queues && WaitsFor(ch.queues[name].args, queue, cfg.delays[k - 1])
    ensures !ok ==>
              (exists t :: old(ch.ops) <= t <= old(ch.ops) + |cfg.delays| && !ch.fate(t).Works?)
              || !Compatible(old(ch.queues), DlqName(queue), DlqArgs(cfg))
              || exists k :: 1 <= k <= |cfg.delays| && !Compatible(old(ch.queues), DelayName(queue, k),
                  DelayArgs(queue, cfg.delays[k - 1]))
  {
    ok := ch.DeclareQueue(DlqName(queue), DlqArgs(cfg));
    if !ok {
      return;
    }
    NamesStayApart(queue, 0);
    var k := 0;
    while k < |cfg.delays|
      invariant 0 <= k <= |cfg.delays|
      invariant ch.unacked == old(ch.unacked) && ch.ops == old(ch.ops) + k + 1
      invariant DeclaredUpTo(old(ch.queues), ch.queues, queue, cfg, k)
    {
      var name := DelayName(queue, k + 1);
      ghost var before := ch.queues;
      ok := ch.DeclareQueue(name, DelayArgs(queue, cfg.delays[k]));
      if !ok {
        FreshDelay(old(ch.queues), before, queue, cfg, k);
        OneMoreOrNone(old(ch.queues), before, ch.queues, queue, cfg, k);
        assert !ch.fate(old(ch.ops) + k + 1).Works? || !Compatible(old(ch.queues), name,
            DelayArgs(queue, cfg.delays[k]));
        return;
      }
      OneMoreDeclared(old(ch.queues), before, ch.queues, queue, cfg, k);
      k := k + 1;
    }
    AllDeclared(old(ch.queues), ch.queues, queue, cfg);
    return true;
  }

  lemma AllDeclared(first: Queues, now: Queues, queue: string, cfg: RetryConfig)
    requires DeclaredUpTo(first, now, queue, cfg, |cfg.delays|)
    ensures queue + ".dlq" in now && DeadEnd(now[queue + ".dlq"].args, cfg.dlqTtl)
    ensures forall k :: 1 <= k <= |cfg.delays| ==>
              var name := queue + ".delay." + PrintInt(k);
              name in now && WaitsFor(now[name].args, queue, cfg.delays[k - 1])
  {
    ArgsMean(queue, cfg, 0);
    forall k | 1 <= k <= |cfg.delays|
      ensures var name := queue + ".delay." + PrintInt(k);
              name in now && WaitsFor(now[name].args, queue, cfg.delays[k - 1])
    {
      assert DelayName(queue, k) in now;
      ArgsMean(queue, cfg, cfg.delays[k - 1]);
    }
  }

  /** Nothing that was there has changed, nothing else than what a consumer needs is there, and the dead-letter
      queue and the first k delay queues are, as declared. */
  ghost predicate DeclaredUpTo(first: Queues, now: Queues, queue: string, cfg: RetryConfig, k: nat) {
    && OnlyDeclared(first, now, queue, cfg)
    && (forall j :: k < j ==> (DelayName(queue, j) in now ==> DelayName(queue, j) in first))
    && DlqName(queue) in now && now[DlqName(queue)].args == DlqArgs(cfg)
    && (forall j :: 1 <= j <= k && j <= |cfg.delays| ==>
          DelayName(queue, j) in now && now[DelayName(queue, j)].args == DelayArgs(queue, cfg.delays[j - 1]))
  }

  ghost predicate OnlyDeclared(first: Queues, now: Queues, queue: string, cfg: RetryConfig) {
    && (forall name <- first :: name in now && now[name] == first[name])
    && (forall name <- now :: name in first || (Declared(queue, cfg, name) && now[name].ready == []))
  }

  lemma FreshDelay(first: Queues, before: Queues, queue: string, cfg: RetryConfig, k: nat)
    requires DeclaredUpTo(first, before, queue, cfg, k)
    ensures DelayName(queue, k + 1) in before ==> DelayName(queue, k + 1) in first
  {
  }

  lemma OneMoreOrNone(first: Queues, before: Queues, now: Queues, queue: string, cfg: RetryConfig, k: nat)
    requires DeclaredUpTo(first, before, queue, cfg, k) && k < |cfg.delays|
    requires var name := DelayName(queue, k + 1);
             now == before || (name !in before && now == before[name := Queue(DelayArgs(queue, cfg.delays[k]), [])])
    ensures OnlyDeclared(first, now, queue, cfg)
  {
    assert Declared(queue, cfg, DelayName(queue, k + 1));
  }

  lemma OneMoreDeclared(first: Queues, before: Queues, now: Queues, queue: string, cfg: RetryConfig, k: nat)
    requires DeclaredUpTo(first, before, queue, cfg, k) && k < |cfg.delays|
    requires var name := DelayName(queue, k + 1);
             && name in now && now[name].args == DelayArgs(queue, cfg.delays[k])
             && (now == before || (name !in before && now
                 == before[name := Queue(DelayArgs(queue, cfg.delays[k]), [])]))
    ensures DeclaredUpTo(first, now, queue, cfg, k + 1)
  {
    OneMoreOrNone(first, before, now, queue, cfg, k);
    forall j | k + 1 < j ensures DelayName(queue, j) in now ==> DelayName(queue, j) in first {
      DelayNamesDiffer(queue, j, k + 1);
    }
  }

  /** The queues and the deliveries in hand. */
  datatype Holdings = Holdings(queues: Queues, unacked: map<nat, (string, Message)>)

  /** A delivery passed on: its next copy published, then the delivery acked; or, when the publish reports an
      error, requeued. `second` is the fate of the ack or the requeue. */
  function PassedOn(h: Holdings, tag: nat, name: string, copy: Message, publish: Fate, second: Fate): Holdings
    requires tag in h.unacked
  {
    var queues := if publish.Refuses? then h.queues else Stored(h.queues, name, copy);
    if second.Refuses? then Holdings(queues, h.unacked)
    else
      Holdings(if publish.Works? then queues else Stored(queues, h.unacked[tag].0, h.unacked[tag].1), h.unacked - {tag})
  }

  /** No delivery leaves the hand before its next copy is stored, or itself is back on its queue. */
  lemma PassedOnLosesNothing(h: Holdings, tag: nat, name: string, copy: Message, publish: Fate, second: Fate)
    requires tag in h.unacked && name in h.queues && h.unacked[tag].0 in h.queues
    ensures var after := PassedOn(h, tag, name, copy, publish, second);
            && after.queues.Keys == h.queues.Keys
            && (tag in after.unacked || copy in after.queues[name].ready
                || h.unacked[tag].1 in after.queues[h.unacked[tag].0].ready)
            && (forall q <- h.queues :: h.queues[q].ready <= after.queues[q].ready)
            && (forall t <- h.unacked :: t != tag ==> t in after.unacked && after.unacked[t] == h.unacked[t])
  {
  }

  /** Nor is anything left twice when the broker answers as it acts: the copy alone comes on its queue and the
      delivery is gone, or the delivery alone is back on its own, and no other queue changes. */
  lemma PassedOnLeavesOne(h: Holdings, tag: nat, name: string, copy: Message, publish: Fate)
    requires tag in h.unacked && name in h.queues && h.unacked[tag].0 in h.queues && !publish.WorksUnheard?
    ensures var after := PassedOn(h, tag, name, copy, publish, Works);
            var (to, m) := if publish.Works? then (name, copy) else h.unacked[tag];
            && after.unacked == h.unacked - {tag}
            && after.queues.Keys == h.queues.Keys
            && (forall q <- h.queues ::
                  && after.queues[q].args == h.queues[q].args
                  && after.queues[q].ready == if q == to then h.queues[q].ready + [m] else h.queues[q].ready)
  {
  }

  /** Publish the copy, then ack the delivery; when the publish reports an error, requeue it instead. */
  method PassOn(ch: Channel, tag: nat, name: string, copy: Message) returns (ok: bool)
    requires tag in ch.unacked
    modifies ch
    ensures ch.Holds() == PassedOn(old(ch.Holds()), tag, name, copy, ch.fate(old(ch.ops)), ch.fate(old(ch.ops) + 1))
    ensures ok <==> ch.fate(old(ch.ops)).Works?
  {
    ok := ch.Publish(name, copy);
    if ok {
      ch.Ack(tag);
    } else {
      ch.Requeue(tag);
    }
  }

  /** A failed delivery: publish the next copy, then ack the old one; when the publish reports an error the
      delivery is requeued instead. The answer is `Exhausted` exactly when the dead-letter publish succeeded,
      and the log line after the ack panics exactly when the attempt has no delay. */
  method HandleRetry(ch: Channel, tag: nat, queue: string, reason: string, cfg: RetryConfig) returns (out: Outcome)
    requires tag in ch.unacked
    modifies ch
    ensures var m := old(ch.unacked)[tag].1;
            var hop := NextHop(queue, m, reason, cfg);
            var publish := ch.fate(old(ch.ops));
            && ch.Holds() == PassedOn(old(ch.Holds()), tag, hop.queue, hop.message, publish, ch.fate(old(ch.ops) + 1))
            && (out.Exhausted? <==> publish.Works? && hop.dead)
            && (out.Panics? <==> publish.Works? && !Routable(RetryCount(m.headers), cfg))
  {
    var m := ch.unacked[tag].1;
    var attempt := RetryCount(m.headers);
    var next := ToInt64(attempt + 1);
    if next <= cfg.maxRetries {
      out := RetryLater(ch, tag, queue, reason, cfg, next);
    } else {
      out := DeadLetter(ch, tag, queue, reason, cfg, attempt);
    }
  }

  method RetryLater(ch: Channel, tag: nat, queue: string, ghost reason: string, cfg: RetryConfig, next: int)
    returns (out: Outcome)
    requires tag in ch.unacked && next == NextAttempt(ch.unacked[tag].1) <= cfg.maxRetries
    modifies ch
    ensures var hop := NextHop(queue, old(ch.unacked)[tag].1, reason, cfg);
            var publish := ch.fate(old(ch.ops));
            && ch.Holds() == PassedOn(old(ch.Holds()), tag, hop.queue, hop.message, publish, ch.fate(old(ch.ops) + 1))
            && !hop.dead && !out.Exhausted?
            && (out.Panics? <==> publish.Works? && !(1 <= next <= |cfg.delays|))
  {
    var m := ch.unacked[tag].1;
    var headers := m.headers[RETRY_HEADER := IntHeader(ToInt32(next))];
    var ok := PassOn(ch, tag, DelayName(queue, next), Redirected(m, headers));
    if !ok {
      return Again;
    }
    return if 0 <= next - 1 < |cfg.delays| then Again else Panics;
  }

  method DeadLetter(ch: Channel, tag: nat, queue: string, reason: string, cfg: RetryConfig, attempt: int)
    returns (out: Outcome)
    requires tag in ch.unacked && attempt == RetryCount(ch.unacked[tag].1.headers)
    requires NextAttempt(ch.unacked[tag].1) > cfg.maxRetries
    modifies ch
    ensures var hop := NextHop(queue, old(ch.unacked)[tag].1, reason, cfg);
            var publish := ch.fate(old(ch.ops));
            && ch.Holds() == PassedOn(old(ch.Holds()), tag, hop.queue, hop.message, publish, ch.fate(old(ch.ops) + 1))
            && hop.dead && (out == if publish.Works? then Exhausted else Again)
  {
    var m := ch.unacked[tag].1;
    var headers := m.headers[RETRY_HEADER := IntHeader(ToInt32(attempt))];
    headers := headers[ERROR_HEADER := TextHeader(reason)];
    var ok := PassOn(ch, tag, DlqName(queue), Redirected(m, headers));
    return if ok then Exhausted else Again;
  }

  function DeadAtOnce(m: Message, reason: string): Message {
    Redirected(m, m.headers[ERROR_HEADER := TextHeader(reason)])
  }

  /** A delivery whose body cannot be read goes to the dead letters at once, content and retry count as they
      are. */
  method SendToDLQ(ch: Channel, tag: nat, queue: string, reason: string)
    requires tag in ch.unacked
    modifies ch
    ensures var m := old(ch.unacked)[tag].1;
            var dead := DeadAtOnce(m, reason);
            && SameContent(m, dead) && RetryCount(dead.headers) == RetryCount(m.headers)
            && dead.properties.persistent
            && ERROR_HEADER in dead.headers && dead.headers[ERROR_HEADER] == TextHeader(reason)
            && ch.Holds() == PassedOn(old(ch.Holds()), tag, DlqName(queue), dead, ch.fate(old(ch.ops)),
                ch.fate(old(ch.ops) + 1))
  {
    var m := ch.unacked[tag].1;
    var dead := DeadAtOnce(m, reason);
    assert m.headers - {RETRY_HEADER, ERROR_HEADER} == dead.headers - {RETRY_HEADER, ERROR_HEADER};
    assert RETRY_HEADER != ERROR_HEADER;
    var _ := PassOn(ch, tag, DlqName(queue), dead);
  }

  /** What a consumer's handler makes of one delivery. */
  datatype Handling = Unreadable(reason: string) | Failed(reason: string) | Handled

  /** One turn of a consume loop: an unreadable body goes straight to the dead letters and reports nothing, a
      failure is retried, anything else is acked. Exhaustion is what the worker loops report; after a panic
      there is no next turn. */
  method ConsumeDelivery(ch: Channel, tag: nat, queue: string, handling: Handling, cfg: RetryConfig)
    returns (out: Outcome)
    requires tag in ch.unacked
    modifies ch
    ensures var m := old(ch.unacked)[tag].1;
            var first, second := ch.fate(old(ch.ops)), ch.fate(old(ch.ops) + 1);
            match handling
            case Unreadable(reason) =>
              && out.Again?
              && ch.Holds() == PassedOn(old(ch.Holds()), tag, DlqName(queue), DeadAtOnce(m, reason), first, second)
            case Failed(reason) =>
              var hop := NextHop(queue, m, reason, cfg);
              && (out.Exhausted? <==> first.Works? && hop.dead)
              && (out.Panics? <==> first.Works? && !Routable(RetryCount(m.headers), cfg))
              && ch.Holds() == PassedOn(old(ch.Holds()), tag, hop.queue, hop.message, first, second)
            case Handled =>
              && out.Again? && ch.queues == old(ch.queues)
              && ch.unacked == if first.Refuses? then old(ch.unacked) else old(ch.unacked) - {tag}
  {
    match handling
    case Unreadable(reason) =>
      SendToDLQ(ch, tag, queue, reason);
      out := Again;
    case Failed(reason) =>
      out := HandleRetry(ch, tag, queue, reason, cfg);
    case Handled =>
      ch.Ack(tag);
      out := Again;
  }
}
