/** A channel can be lost while a handler is at work: the broker puts the delivery back on its queue at once, and
    the handler goes on all the same, beside whoever takes the delivery up again. What the pipeline promises
    holds with that too. */
module LostChannels {
  import opened Basics
  import opened StepTable
  import opened Pipeline
  import opened PipelineInvariant
  import opened PipelineSteps
  import opened PipelineTheorems

  /** A channel may be lost any number of times; the handler is even left free to requeue its message once more
      in the end, which only adds deliveries. */
  datatype Event = Ordinary(a: Action) | ChannelLost(i: nat)

  predicate Possible(cfg: Config, s: State, e: Event) {
    match e
    case Ordinary(a) => Enabled(cfg, s, a)
    case ChannelLost(i) => i in s.items && s.items[i].Hand? && !s.items[i].acked
  }

  function Happen(cfg: Config, s: State, e: Event): State
    requires Possible(cfg, s, e)
  {
    match e
    case Ordinary(a) => Do(cfg, s, a)
    case ChannelLost(i) => Add(s, Some(Queued(Main, s.items[i].msg, s.items[i].retries)))
  }

  ghost predicate Feasible(cfg: Config, s: State, events: seq<Event>)
    decreases |events|
  {
    events == [] || (Possible(cfg, s, events[0]) && Feasible(cfg, Happen(cfg, s, events[0]), events[1..]))
  }

  ghost function Outcome(cfg: Config, s: State, events: seq<Event>): State
    requires Feasible(cfg, s, events)
    decreases |events|
  {
    if events == [] then s else Outcome(cfg, Happen(cfg, s, events[0]), events[1..])
  }

  lemma EventKeeps(cfg: Config, s: State, e: Event)
    requires Inv(cfg, s) && Possible(cfg, s, e)
    ensures Inv(cfg, Happen(cfg, s, e)) && RowsEvolve(s.shared.rows, Happen(cfg, s, e).shared.rows)
  {
    match e
    case Ordinary(a) => StepKeeps(cfg, s, a);
    case ChannelLost(i) =>
      assert ItemOk(cfg, s.shared, i, s.items[i]);
      AddKeeps(cfg, s, Some(Queued(Main, s.items[i].msg, s.items[i].retries)));
  }

  lemma {:induction false} EventsKeep(cfg: Config, s: State, events: seq<Event>)
    requires Inv(cfg, s) && Feasible(cfg, s, events)
    ensures Inv(cfg, Outcome(cfg, s, events))
    decreases |events|
  {
    if events != [] {
      EventKeeps(cfg, s, events[0]);
      EventsKeep(cfg, Happen(cfg, s, events[0]), events[1..]);
    }
  }

  /** With channels lost at any time and handlers going on behind them, every promise to the upload is kept. */
  lemma PromisesKept(cfg: Config, s0: State, events: seq<Event>)
    requires Init(s0) && Feasible(cfg, s0, events)
    ensures Promises(Outcome(cfg, s0, events).shared)
  {
    InitOk(cfg, s0);
    EventsKeep(cfg, s0, events);
    InvPromises(cfg, Outcome(cfg, s0, events));
  }

  lemma StalledEvent(cfg: Config, s: State, e: Event)
    requires cfg.shipped && Inv(cfg, s) && Stalled(s) && Possible(cfg, s, e)
    ensures Stalled(Happen(cfg, s, e))
  {
    if e.Ordinary? { StalledStep(cfg, s, e.a); }
  }

  lemma {:induction false} StalledEvents(cfg: Config, s: State, events: seq<Event>)
    requires cfg.shipped && Inv(cfg, s) && Stalled(s) && Feasible(cfg, s, events)
    ensures Stalled(Outcome(cfg, s, events))
    decreases |events|
  {
    if events != [] {
      EventKeeps(cfg, s, events[0]);
      StalledEvent(cfg, s, events[0]);
      StalledEvents(cfg, Happen(cfg, s, events[0]), events[1..]);
    }
  }

  /** Nor does it help: with workers that always close their own row first, the pipeline stalls all the same. */
  lemma StallsAllTheSame(cfg: Config, s0: State, events: seq<Event>)
    requires cfg.shipped && Init(s0) && Feasible(cfg, s0, events)
    ensures Stalled(Outcome(cfg, s0, events))
  {
    InitOk(cfg, s0);
    StalledEvents(cfg, s0, events);
  }
}
