/** `LoggedInstance`: runs a unit of work with the calling thread group
    registered in the log appender, after four metadata signals, and
    unregisters the group however the work ends. */
module Conveyer {
  import opened Wrappers
  import opened UtcStamp

  /** The thread group of the calling thread. */
  datatype Group = Group(id: nat)

  /** The work being done, as the text of its owner URN, its name and the
      text of its spec. */
  datatype Work = Work(owner: string, unit: string, spec: string)

  /** An exception thrown by the wrapped instance. */
  datatype Exn = Exn(kind: string, message: string)

  /** A signal `Pulse.Signal(name, value)`. */
  type Signal = (string, string)

  /** The four signals logged before delegating, in order. */
  function MetaSignals(work: Work, now: UtcTime): seq<Signal>
  {
    [("started", Started(now)), ("owner", work.owner), ("unit", work.unit), ("spec", work.spec)]
  }

  /** The steps of one `pulse`, each recorded by the object that takes it.
      The wrapped instance notes the registry it runs under. */
  datatype Event =
    | Registered(group: Group, work: Work)
    | Signalled(signal: Signal)
    | Delegated(state: State, registry: map<Group, Work>)
    | Unregistered(group: Group)

  function SignalEvents(signals: seq<Signal>): (es: seq<Event>)
    ensures |es| == |signals|
    ensures forall i :: 0 <= i < |signals| ==> es[i] == Signalled(signals[i])
    decreases |signals|
  {
    if signals == [] then [] else [Signalled(signals[0])] + SignalEvents(signals[1..])
  }

  /** The events of one `pulse` started with the registry `before`, in
      which the delegate logs `emitted`, whether it returns or throws. */
  function Lifecycle(group: Group, work: Work, now: UtcTime, state: State, before: map<Group, Work>,
                     emitted: seq<Signal>): seq<Event>
  {
    [Registered(group, work)] + SignalEvents(MetaSignals(work, now))
      + [Delegated(state, before[group := work])] + SignalEvents(emitted) + [Unregistered(group)]
  }

  function UnregistrationsOf(es: seq<Event>, group: Group): nat
    decreases |es|
  {
    if es == [] then 0
    else (if es[0] == Unregistered(group) then 1 else 0) + UnregistrationsOf(es[1..], group)
  }

  lemma {:induction false} UnregistrationsOfAppend(xs: seq<Event>, ys: seq<Event>, group: Group)
    ensures UnregistrationsOf(xs + ys, group) == UnregistrationsOf(xs, group) + UnregistrationsOf(ys, group)
    decreases |xs|
  {
    if xs == [] {
      assert xs + ys == ys;
    } else {
      assert (xs + ys)[1..] == xs[1..] + ys;
      UnregistrationsOfAppend(xs[1..], ys, group);
    }
  }

  /** Signals are not unregistrations. */
  lemma {:induction false} NoUnregistrationsInSignals(signals: seq<Signal>, group: Group)
    ensures UnregistrationsOf(SignalEvents(signals), group) == 0
    decreases |signals|
  {
    if signals != [] {
      NoUnregistrationsInSignals(signals[1..], group);
    }
  }

  /** The order `pulse` keeps: registration first, then the four signals
      `started`, `owner`, `unit`, `spec`, then the delegate with the caller's
      state, running while its group is registered with the work and every
      other group keeps its registration, then the delegate's own signals,
      still before the group is unregistered, and one unregistration of the
      same group last. */
  lemma LifecycleOrder(group: Group, work: Work, now: UtcTime, state: State, before: map<Group, Work>,
                       emitted: seq<Signal>)
    ensures var es := Lifecycle(group, work, now, state, before, emitted);
      && |es| == 7 + |emitted|
      && es[0] == Registered(group, work)
      && es[1] == Signalled(("started", Started(now)))
      && es[2] == Signalled(("owner", work.owner))
      && es[3] == Signalled(("unit", work.unit))
      && es[4] == Signalled(("spec", work.spec))
      && es[5].Delegated? && es[5].state == state
      && group in es[5].registry && es[5].registry[group] == work
      && (forall g :: g != group ==> (g in es[5].registry <==> g in before))
      && (forall g :: g != group && g in before ==> es[5].registry[g] == before[g])
      && (forall i :: 0 <= i < |emitted| ==> es[6 + i] == Signalled(emitted[i]))
      && es[6 + |emitted|] == Unregistered(group)
      && UnregistrationsOf(es, group) == 1
  {
    var head := [Registered(group, work)] + SignalEvents(MetaSignals(work, now))
      + [Delegated(state, before[group := work])];
    var last := [Unregistered(group)];
    NoUnregistrationsBeforeDelegating(group, work, now, state, before);
    NoUnregistrationsInSignals(emitted, group);
    UnregistrationsOfAppend(head + SignalEvents(emitted), last, group);
    UnregistrationsOfAppend(head, SignalEvents(emitted), group);
    assert last[1..] == [];
    assert UnregistrationsOf(last, group) == 1;
  }

  /** Registration, the four signals and the delegation are not
      unregistrations. */
  lemma NoUnregistrationsBeforeDelegating(group: Group, work: Work, now: UtcTime, state: State,
                                          before: map<Group, Work>)
    ensures UnregistrationsOf([Registered(group, work)] + SignalEvents(MetaSignals(work, now))
      + [Delegated(state, before[group := work])], group) == 0
  {
    var first := [Registered(group, work)];
    var middle := SignalEvents(MetaSignals(work, now));
    var delegated := [Delegated(state, before[group := work])];
    UnregistrationsOfAppend(first + middle, delegated, group);
    UnregistrationsOfAppend(first, middle, group);
    NoUnregistrationsInSignals(MetaSignals(work, now), group);
    assert first[1..] == [] && delegated[1..] == [];
  }

  /** The events of the four signals, one by one. */
  lemma MetaSignalEvents(work: Work, now: UtcTime)
    ensures SignalEvents(MetaSignals(work, now))
      == [Signalled(("started", Started(now))), Signalled(("owner", work.owner)),
          Signalled(("unit", work.unit)), Signalled(("spec", work.spec))]
  {
  }

  /** The steps of a pulse, appended one after another to a journal,
      extend it by the lifecycle. */
  lemma LifecycleAppends(start: seq<Event>, group: Group, work: Work, now: UtcTime, state: State,
                         before: map<Group, Work>, emitted: seq<Signal>)
    ensures start + [Registered(group, work)] + SignalEvents(MetaSignals(work, now))
      + [Delegated(state, before[group := work])] + SignalEvents(emitted) + [Unregistered(group)]
      == start + Lifecycle(group, work, now, state, before, emitted)
  {
  }

  /** The `started` signal carries the minute the work started, in the
      fixed stamp format. */
  lemma StartedSignalReadsBack(work: Work, now: UtcTime)
    requires ValidTime(now) && now.year < 10000
    ensures var s := MetaSignals(work, now)[0];
      s.0 == "started" && |s.1| == 17 && ParseStarted(s.1) == Some(MinuteOf(now))
  {
    StartedShape(now);
    ParseStartedInverts(now);
  }

  /** Where the steps of every `pulse` are recorded, in the order taken. */
  class Journal {
    ghost var events: seq<Event>

    constructor ()
      ensures events == []
    {
      events := [];
    }
  }

  /** The registry from thread groups to the work whose log they feed. */
  class ConveyerAppender {
    const journal: Journal
    var works: map<Group, Work>

    constructor (journal: Journal)
      ensures this.journal == journal && works == map[]
    {
      this.journal := journal;
      works := map[];
    }

    method Register(group: Group, work: Work)
      modifies this, journal
      ensures works == old(works)[group := work]
      ensures journal.events == old(journal.events) + [Registered(group, work)]
    {
      works := works[group := work];
      journal.events := journal.events + [Registered(group, work)];
    }

    method Unregister(group: Group)
      modifies this, journal
      ensures works == old(works) - {group}
      ensures journal.events == old(journal.events) + [Unregistered(group)]
    {
      works := works - {group};
      journal.events := journal.events + [Unregistered(group)];
    }
  }

  /** The mutable state handle the conveyer passes to an instance. */
  class State {
    constructor ()
    {
    }
  }

  /** The wrapped instance. What it returns or throws for a state is
      `behaviour`, and the signals it logs on the way are `emits`;
      `received` is every state it has been given. Its own logging goes
      through `appender`, so it records the registry it runs under and then
      what it logs. */
  class Instance {
    const behaviour: State -> Result<Unit, Exn>
    const emits: State -> seq<Signal>
    const appender: ConveyerAppender
    var received: seq<State>

    constructor (behaviour: State -> Result<Unit, Exn>, emits: State -> seq<Signal>, appender: ConveyerAppender)
      ensures this.behaviour == behaviour && this.emits == emits && this.appender == appender
      ensures received == []
    {
      this.behaviour := behaviour;
      this.emits := emits;
      this.appender := appender;
      received := [];
    }

    method Pulse(state: State) returns (r: Result<Unit, Exn>)
      modifies this, appender.journal
      ensures received == old(received) + [state]
      ensures appender.journal.events
        == old(appender.journal.events) + [Delegated(state, appender.works)] + SignalEvents(emits(state))
      ensures r == behaviour(state)
    {
      received := received + [state];
      appender.journal.events := appender.journal.events + [Delegated(state, appender.works)]
        + SignalEvents(emits(state));
      r := behaviour(state);
    }
  }

  class LoggedInstance {
    const origin: Instance
    const work: Work
    const appender: ConveyerAppender
    /** The signals logged so far. */
    var log: seq<Signal>

    /** The wrapped instance logs through the same appender. */
    ghost predicate Valid()
    {
      origin.appender == appender
    }

    constructor (origin: Instance, work: Work, appender: ConveyerAppender)
      requires origin.appender == appender
      ensures Valid()
      ensures this.origin == origin && this.work == work && this.appender == appender
      ensures log == []
    {
      this.origin := origin;
      this.work := work;
      this.appender := appender;
      log := [];
    }

    /** `meta(name, value)`: log one signal. */
    method Meta(name: string, value: string)
      modifies this`log, appender.journal
      ensures log == old(log) + [(name, value)]
      ensures appender.journal.events == old(appender.journal.events) + [Signalled((name, value))]
    {
      log := log + [(name, value)];
      appender.journal.events := appender.journal.events + [Signalled((name, value))];
    }

    /** `pulse(state)` called from thread group `group` at time `now`. The
        delegate's outcome, normal or exceptional, is returned unchanged; the
        group is unregistered on both paths. */
    method Pulse(state: State, group: Group, now: UtcTime) returns (r: Result<Unit, Exn>)
      requires Valid()
      modifies this`log, appender, origin, appender.journal
      ensures r == origin.behaviour(state)
      ensures origin.received == old(origin.received) + [state]
      ensures appender.works == old(appender.works) - {group}
      ensures log == old(log) + MetaSignals(work, now)
      ensures appender.journal.events
        == old(appender.journal.events) + Lifecycle(group, work, now, state, old(appender.works), origin.emits(state))
    {
      ghost var start := appender.journal.events;
      appender.Register(group, work);
      Meta("started", Started(now));
      Meta("owner", work.owner);
      Meta("unit", work.unit);
      Meta("spec", work.spec);
      ghost var logged := appender.journal.events;
      MetaSignalEvents(work, now);
      assert logged == start + [Registered(group, work)] + SignalEvents(MetaSignals(work, now));
      r := origin.Pulse(state);
      appender.Unregister(group);
      LifecycleAppends(start, group, work, now, state, old(appender.works), origin.emits(state));
    }
  }
}
