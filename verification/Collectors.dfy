/** The event collector: a bounded buffer filled by a listener until the first of several racing
    terminators ends it. Message, interaction and reaction collectors are this one machine. */
module Collectors {
  import opened Wrappers

  const TIME := "time"
  const IDLE := "idle"
  const LIMIT := "limit"
  const STOPPED := "stopped"
  const CONTEXT := "context"
  const OVERFLOW := "overflow"
  const CLOSED := "client_closed"

  datatype Error = CollectorError(reason: string) | OtherError(text: string)

  const DEFAULT_BUFFER := 16

  /** max 0 means unlimited; idles says whether an idle limit is set. */
  datatype Options = Options(max: int, buffer: int, idles: bool) {
    predicate Valid() { max >= 0 && buffer >= 0 }

    function Capacity(): int { if buffer == 0 then DEFAULT_BUFFER else buffer }
  }

  /** What the mutex guards, and the channel's buffer. closes counts the closings of done and events. */
  datatype Core<T> = Core(options: Options, buffer: seq<T>, collected: nat, ended: bool, reason: string,
                          err: Option<Error>, remove: bool, generation: nat, closes: nat)

  function ErrorFor(reason: string, err: Option<Error>): Option<Error> {
    if err.None? && reason in [TIME, IDLE, OVERFLOW, CONTEXT, CLOSED] then Some(CollectorError(reason)) else err
  }

  /** The new state, and whether the caller must run the remove function after unlocking. */
  function FinishLocked<T>(c: Core<T>, reason: string, err: Option<Error>): (Core<T>, bool) {
    if c.ended then (c, false)
    else
      var why := if reason == "" then STOPPED else reason;
      (c.(ended := true, reason := why, err := ErrorFor(why, err), remove := false, closes := c.closes + 1), c.remove)
  }

  function HandleEvent<T>(c: Core<T>, event: T): (Core<T>, bool) {
    if c.ended then (c, false)
    else if |c.buffer| >= c.options.Capacity() then FinishLocked(c, OVERFLOW, Some(CollectorError(OVERFLOW)))
    else
      var d := c.(buffer := c.buffer + [event], collected := c.collected + 1,
                  generation := if c.options.idles then c.generation + 1 else c.generation);
      if c.options.max > 0 && d.collected >= c.options.max then FinishLocked(d, LIMIT, None) else (d, false)
  }

  function FireIdle<T>(c: Core<T>, generation: nat): (Core<T>, bool) {
    if c.ended || c.generation != generation then (c, false) else FinishLocked(c, IDLE, None)
  }

  function Register<T>(c: Core<T>): (Core<T>, bool) {
    if c.ended then (c, true) else (c.(remove := true), false)
  }

  datatype Taken<T> = Event(event: T) | Ended(error: Error) | Blocked

  class Collector<T> {
    const options: Options
    var events: seq<T>
    var collected: nat
    var reason: string
    var err: Option<Error>
    var ended: bool
    var remove: bool
    var idleGeneration: nat
    var closes: nat

    function View(): Core<T>
      reads this
    {
      Core(options, events, collected, ended, reason, err, remove, idleGeneration, closes)
    }

    constructor (options: Options)
      requires options.Valid()
      ensures View() == Core(options, [], 0, false, "", None, false, if options.idles then 1 else 0, 0)
    {
      this.options := options;
      events, collected, reason, err, ended, remove, closes := [], 0, "", None, false, false, 0;
      idleGeneration := if options.idles then 1 else 0;
    }

    method EndLocked(why: string, cause: Option<Error>) returns (run: bool)
      modifies this
      ensures (View(), run) == FinishLocked(old(View()), why, cause)
      ensures old(ended) ==> View() == old(View()) && !run
      ensures !old(ended) ==>
        && ended && closes == old(closes) + 1 && !remove && run == old(remove)
        && events == old(events) && collected == old(collected) && idleGeneration == old(idleGeneration)
        && reason == (if why == "" then "stopped" else why)
        && err == if cause.Some? then cause
                  else if reason in {"time", "idle", "overflow", "context", "client_closed"}
                  then Some(CollectorError(reason)) else None
    {
      if ended {
        return false;
      }
      var end := why;
      if end == "" {
        end := STOPPED;
      }
      var final := cause;
      if final.None? && end in [TIME, IDLE, OVERFLOW, CONTEXT, CLOSED] {
        final := Some(CollectorError(end));
      }
      ended := true;
      reason := end;
      err := final;
      closes := closes + 1;
      run := remove;
      remove := false;
    }

    method Handle(event: T) returns (run: bool)
      modifies this
      ensures (View(), run) == HandleEvent(old(View()), event)
    {
      if ended {
        return false;
      }
      if |events| < options.Capacity() {
        events := events + [event];
        collected := collected + 1;
        if options.idles {
          idleGeneration := idleGeneration + 1;
        }
        run := false;
        if options.max > 0 && collected >= options.max {
          run := EndLocked(LIMIT, None);
        }
      } else {
        run := EndLocked(OVERFLOW, Some(CollectorError(OVERFLOW)));
      }
    }

    method EndIdle(generation: nat) returns (run: bool)
      modifies this
      ensures (View(), run) == FireIdle(old(View()), generation)
    {
      if ended || idleGeneration != generation {
        return false;
      }
      run := EndLocked(IDLE, None);
    }

    /** A receive on the events channel, as Next performs it: an event while any is buffered, then the
        reason for the end, else the reader blocks. */
    method Take() returns (r: Taken<T>)
      modifies this
      ensures old(events) != [] ==> r == Event(old(events)[0]) && View() == old(View()).(buffer := old(events)[1..])
      ensures old(events) == [] ==> View() == old(View())
      ensures old(events) == [] && !ended ==> r == Blocked
      ensures old(events) == [] && ended ==>
        r == Ended(if err.Some? then err.value else CollectorError(if reason == "" then STOPPED else reason))
    {
      if events != [] {
        var event := events[0];
        events := events[1..];
        return Event(event);
      }
      if !ended {
        return Blocked;
      }
      if err.Some? {
        return Ended(err.value);
      }
      return Ended(CollectorError(if reason == "" then STOPPED else reason));
    }

    method SetRemove() returns (run: bool)
      modifies this
      ensures (View(), run) == Register(old(View()))
    {
      if !ended {
        remove := true;
        return false;
      }
      return true;
    }
  }

  // ---------- Runs ----------

  /** An idle timer: the generation it was armed with, and how many events had been accepted by then. */
  datatype Timer = Timer(generation: nat, accepted: nat)

  /** The core, and the history: events offered by the listener, accepted and consumed; callbacks owed
      and run; every idle timer armed so far. */
  datatype State<T> = State(core: Core<T>, offered: seq<T>, accepted: seq<T>, consumed: seq<T>, registered: bool,
                            owed: nat, ran: nat, armed: seq<Timer>)

  datatype Step<T> =
    | Offer(event: T)                          // a matching event reaches the listener
    | Idle(timer: nat)                         // an idle timer fires, stopped or not
    | Finish(reason: string, err: Option<Error>) // time, context, client close, Stop, a reader's context
    | SetRemove
    | RunRemove
    | Consume

  predicate Enabled<T>(s: State<T>, step: Step<T>) {
    match step
    case Idle(timer) => timer < |s.armed|
    case SetRemove => !s.registered
    case RunRemove => s.owed > 0
    case Consume => s.core.buffer != []
    case _ => true
  }

  function Owe<T>(s: State<T>, r: (Core<T>, bool)): State<T> {
    s.(core := r.0, owed := if r.1 then s.owed + 1 else s.owed)
  }

  function Next<T>(s: State<T>, step: Step<T>): State<T> {
    match step
    case Offer(event) =>
      var r := HandleEvent(s.core, event);
      var t := Owe(s, r).(offered := s.offered + [event]);
      if r.0.collected == s.core.collected then t
      else
        t.(accepted := s.accepted + [event],
           armed := if s.core.options.idles then s.armed + [Timer(r.0.generation, |s.accepted| + 1)] else s.armed)
    case Idle(timer) => if timer < |s.armed| then Owe(s, FireIdle(s.core, s.armed[timer].generation)) else s
    case Finish(reason, err) => Owe(s, FinishLocked(s.core, reason, err))
    case SetRemove => Owe(s, Register(s.core)).(registered := true)
    case RunRemove => if s.owed > 0 then s.(owed := s.owed - 1, ran := s.ran + 1) else s
    case Consume =>
      if s.core.buffer == [] then s
      else s.(core := s.core.(buffer := s.core.buffer[1..]), consumed := s.consumed + [s.core.buffer[0]])
  }

  function Init<T>(options: Options): State<T> {
    State(Core(options, [], 0, false, "", None, false, if options.idles then 1 else 0, 0), [], [], [], false, 0, 0,
          if options.idles then [Timer(1, 0)] else [])
  }

  ghost predicate Inv<T(!new)>(s: State<T>) {
    var c := s.core;
    && c.options.Valid()
    && s.consumed + c.buffer == s.accepted && c.collected == |s.accepted| && |c.buffer| <= c.options.Capacity()
    && s.accepted <= s.offered && (!c.ended ==> s.accepted == s.offered)
    && (c.options.max > 0 ==> c.collected <= c.options.max)
    && (c.options.max > 0 && c.collected == c.options.max ==> c.ended && c.reason == LIMIT)
    && c.closes == (if c.ended then 1 else 0)
    && (c.remove <==> s.registered && !c.ended)
    && s.owed + s.ran == (if s.registered && c.ended then 1 else 0)
    && (if c.options.idles then c.generation == |s.accepted| + 1 == |s.armed| else s.armed == [])
    && (forall i :: 0 <= i < |s.armed| ==> s.armed[i] == Timer(i + 1, i))
  }

  /** t ended as s did. */
  predicate SameEnd<T(==)>(s: State<T>, t: State<T>) {
    var c, d := s.core, t.core;
    && d.ended && d.reason == c.reason && d.err == c.err && d.collected == c.collected && d.closes == c.closes
    && t.accepted == s.accepted
  }

  lemma OfferKeeps<T(!new)>(s: State<T>, event: T)
    requires Inv(s)
    ensures Inv(Next(s, Offer(event)))
  {
  }

  lemma NextKeepsInv<T(!new)>(s: State<T>, step: Step<T>)
    requires Inv(s) && Enabled(s, step)
    ensures Inv(Next(s, step))
  {
    if step.Offer? { OfferKeeps(s, step.event); }
  }

  lemma EndsStay<T(!new)>(s: State<T>, step: Step<T>)
    requires Enabled(s, step) && s.core.ended
    ensures SameEnd(s, Next(s, step))
  {
  }

  ghost predicate IsRun<T(!new)>(options: Options, states: seq<State<T>>, steps: seq<Step<T>>) {
    && options.Valid()
    && |states| == |steps| + 1
    && states[0] == Init(options)
    && forall i {:trigger steps[i]} :: 0 <= i < |steps| ==>
         Enabled(states[i], steps[i]) && states[i + 1] == Next(states[i], steps[i])
  }

  lemma {:induction false} RunKeepsInv<T(!new)>(options: Options, states: seq<State<T>>, steps: seq<Step<T>>, i: nat)
    requires IsRun(options, states, steps) && i < |states|
    ensures Inv(states[i]) && states[i].core.options == options
  {
    if i > 0 {
      var k := i - 1;
      RunKeepsInv(options, states, steps, k);
      NextKeepsInv(states[k], steps[k]);
    }
  }

  /** In every interleaving the consumed and then the buffered events are the accepted ones in order, a
      prefix of those offered, all of them until the end. The buffer keeps its bound, the count is
      exact and within the maximum, and reaching the maximum ends the collector for that reason. */
  lemma CollectorStream<T(!new)>(options: Options, states: seq<State<T>>, steps: seq<Step<T>>, i: nat)
    requires IsRun(options, states, steps) && i < |states|
    ensures var s := states[i];
      && s.consumed + s.core.buffer == s.accepted && s.accepted <= s.offered
      && (!s.core.ended ==> s.accepted == s.offered)
      && |s.core.buffer| <= options.Capacity() && s.core.collected == |s.accepted|
      && (options.max > 0 ==> s.core.collected <= options.max)
      && (options.max > 0 && s.core.collected == options.max ==> s.core.ended && s.core.reason == LIMIT)
  {
    RunKeepsInv(options, states, steps, i);
  }

  /** The first terminator wins: from then on the result and the accepted events are fixed, both
      channels have been closed once, and nothing more is sent. */
  lemma {:induction false} FirstTerminatorWins<T(!new)>(options: Options, states: seq<State<T>>, steps: seq<Step<T>>,
        i: nat, j: nat)
    requires IsRun(options, states, steps) && i <= j < |states| && states[i].core.ended
    ensures SameEnd(states[i], states[j]) && states[j].core.closes == 1
    decreases j
  {
    if i == j {
      RunKeepsInv(options, states, steps, i);
    } else {
      var k := j - 1;
      FirstTerminatorWins(options, states, steps, i, k);
      EndsStay(states[k], steps[k]);
      EndTrans(states[i], states[k], states[k + 1]);
    }
  }

  /** A reader takes the oldest buffered event; a remove function is registered once and a callback that is
      owed is run, neither of which changes what is accepted or buffered. */
  lemma ReadersAndCallbacks<T(!new)>(options: Options, states: seq<State<T>>, steps: seq<Step<T>>, i: nat)
    requires IsRun(options, states, steps) && i < |steps|
    ensures var s, t := states[i], states[i + 1];
      match steps[i]
      case Consume => s.core.buffer != [] && t.consumed == s.consumed + [s.core.buffer[0]]
                      && t.core.buffer == s.core.buffer[1..]
      case SetRemove => !s.registered && t.registered && t.core.buffer == s.core.buffer && t.consumed == s.consumed
      case RunRemove => t.ran == s.ran + 1 && t.core.buffer == s.core.buffer && t.consumed == s.consumed
      case _ => t.consumed == s.consumed && t.registered == s.registered && t.ran == s.ran
  {
    assert states[i + 1] == Next(states[i], steps[i]);
  }

  /** When an open collector ends, and how: a terminator always ends it, an idle timer exactly if nothing was
      accepted since it was armed, an event exactly if it finds the buffer full or is the last allowed; nothing
      else does. */
  lemma EndsExactlyWhen<T(!new)>(options: Options, states: seq<State<T>>, steps: seq<Step<T>>, i: nat)
    requires IsRun(options, states, steps) && i < |steps| && !states[i].core.ended
    ensures var s := states[i];
      states[i + 1].core.ended <==>
      match steps[i]
      case Finish(_, _) => true
      case Idle(timer) => timer < |s.armed| && s.armed[timer].accepted == |s.accepted|
      case Offer(_) =>
        || |s.core.buffer| == (if options.buffer == 0 then 16 else options.buffer)
        || (options.max > 0 && |s.accepted| + 1 == options.max)
      case _ => false
  {
    RunKeepsInv(options, states, steps, i);
    assert states[i + 1] == Next(states[i], steps[i]);
  }

  /** The result of a collector is its first terminator's, at every later moment: the reason given, "stopped"
      if that is empty, "idle", "overflow" or "limit"; and the cause given, if any, else an error of the reason
      exactly for a time or idle limit, an overflow, a context or the client's close. */
  lemma ResultIsTheTerminators<T(!new)>(options: Options, states: seq<State<T>>, steps: seq<Step<T>>, i: nat, j: nat)
    requires IsRun(options, states, steps) && i < |steps| && i < j < |states|
    requires !states[i].core.ended && states[i + 1].core.ended
    ensures var s, t := states[i], states[j].core;
      match steps[i]
      case Finish(reason, cause) =>
        && t.reason == (if reason == "" then "stopped" else reason)
        && t.err == (if cause.Some? then cause
                     else if t.reason in {"time", "idle", "overflow", "context", "client_closed"}
                     then Some(CollectorError(t.reason)) else None)
        && states[j].accepted == s.accepted
      case Idle(_) => t.reason == "idle" && t.err == Some(CollectorError("idle")) && states[j].accepted == s.accepted
      case Offer(event) =>
        if |s.core.buffer| == (if options.buffer == 0 then 16 else options.buffer)
        then t.reason == "overflow" && t.err == Some(CollectorError("overflow")) && states[j].accepted == s.accepted
        else t.reason == "limit" && t.err == None && states[j].accepted == s.accepted + [event]
      case _ => false
  {
    RunKeepsInv(options, states, steps, i);
    assert states[i + 1] == Next(states[i], steps[i]);
    FirstTerminatorWins(options, states, steps, i + 1, j);
  }

  lemma EndTrans<T(!new)>(s: State<T>, t: State<T>, u: State<T>)
    requires SameEnd(s, t) && SameEnd(t, u)
    ensures SameEnd(s, u)
  {
  }

  /** The listener is removed at most once, only after the end, and exactly once when the collector has
      ended, its remove function is known and no callback is still owed: in either order. */
  lemma RemovedExactlyOnce<T(!new)>(options: Options, states: seq<State<T>>, steps: seq<Step<T>>, i: nat)
    requires IsRun(options, states, steps) && i < |states|
    ensures var s := states[i];
      && s.ran <= 1 && (s.ran == 1 ==> s.core.ended && s.registered)
      && (s.core.ended && s.registered && s.owed == 0 ==> s.ran == 1)
      && (s.owed > 0 ==> s.ran == 0 && s.owed == 1)
  {
    RunKeepsInv(options, states, steps, i);
  }

  /** An idle timer ends the collector only if nothing was accepted since it was armed. */
  lemma IdleEndsOnlyWhenQuiet<T(!new)>(options: Options, states: seq<State<T>>, steps: seq<Step<T>>, i: nat)
    requires IsRun(options, states, steps) && i < |steps| && steps[i].Idle?
    requires !states[i].core.ended && states[i + 1].core.ended
    ensures steps[i].timer < |states[i].armed| && states[i].armed[steps[i].timer].accepted == |states[i].accepted|
    ensures states[i + 1].core.reason == IDLE && states[i + 1].core.err == Some(CollectorError(IDLE))
  {
    RunKeepsInv(options, states, steps, i);
    assert states[i + 1] == Next(states[i], steps[i]);
  }

  /** An event that finds the buffer full ends the collector and is not accepted. From then on the events
      buffered at that moment, and no others, are read in order, down to the last. */
  lemma OverflowKeepsTheBuffer<T(!new)>(options: Options, states: seq<State<T>>, steps: seq<Step<T>>, i: nat, j: nat)
    requires IsRun(options, states, steps) && i < |steps| && i < j < |states| && steps[i].Offer?
    requires !states[i].core.ended && |states[i].core.buffer| == options.Capacity()
    ensures states[i + 1].core.ended && states[i + 1].core.reason == OVERFLOW
    ensures states[j].consumed + states[j].core.buffer == states[i].consumed + states[i].core.buffer
    ensures states[j].core.buffer == [] || Enabled(states[j], Consume)
  {
    RunKeepsInv(options, states, steps, i);
    assert states[i + 1] == Next(states[i], steps[i]);
    FirstTerminatorWins(options, states, steps, i + 1, j);
    RunKeepsInv(options, states, steps, j);
  }
}
