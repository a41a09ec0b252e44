/** The client's lifecycle: the state with its ready channel, the run-once flags and the waiters. */
module Lifecycle {
  import opened Wrappers

  datatype ClientState = Disconnected | Connecting | Initializing | Authenticating | Ready | Closing

  // ---------- The ready gate ----------

  /** The state and, for every ready channel made so far, how often it was closed; the last is current. */
  datatype Gate = Gate(state: ClientState, closes: seq<nat>) {
    function Current(): nat
      requires closes != []
    {
      |closes| - 1
    }

    predicate Open(channel: nat) { channel < |closes| && closes[channel] == 0 }
  }

  function CloseReady(closes: seq<nat>): (r: seq<nat>)
    requires closes != []
    ensures |r| == |closes|
  {
    var last := |closes| - 1;
    if closes[last] == 0 then closes[last := 1] else closes
  }

  function SetState(g: Gate, next: ClientState): (r: Gate)
    requires g.closes != []
    ensures r.closes != [] && r.state == next
  {
    var a := if next == Ready && g.state != Ready then CloseReady(g.closes) else g.closes;
    var b := if (next == Disconnected || next == Closing) && g.state != next then CloseReady(a) else a;
    Gate(next, if next == Disconnected && g.state != Disconnected then b + [0] else b)
  }

  /** Replaced channels are closed, no channel is closed twice, and the current one is closed while
      ready or closing and open while disconnected. */
  ghost predicate GateOk(g: Gate) {
    && g.closes != []
    && (forall i :: 0 <= i < |g.closes| - 1 ==> g.closes[i] == 1)
    && g.closes[|g.closes| - 1] <= 1
    && (g.state == Ready || g.state == Closing ==> g.closes[|g.closes| - 1] == 1)
    && (g.state == Disconnected ==> g.closes[|g.closes| - 1] == 0)
  }

  lemma SetStateKeepsGate(g: Gate, next: ClientState)
    requires GateOk(g)
    ensures GateOk(SetState(g, next))
    ensures |g.closes| <= |SetState(g, next).closes|
    ensures forall i :: 0 <= i < |g.closes| && g.closes[i] == 1 ==> SetState(g, next).closes[i] == 1
  {
  }

  /** What setState does to the channels: entering Disconnected replaces the current one, closed, by an open
      one; Ready and Closing leave it closed; nothing else changes any. */
  lemma SetStateIsExact(g: Gate, next: ClientState)
    requires GateOk(g)
    ensures var n, after := |g.closes|, SetState(g, next).closes;
      if next == Disconnected && g.state != Disconnected then
        |after| == n + 1 && after[n] == 0 && forall i :: 0 <= i < n ==> after[i] == 1
      else if next == Ready || next == Closing then |after| == n && forall i :: 0 <= i < n ==> after[i] == 1
      else after == g.closes
  {
  }

  class Signal {
    var closes: nat

    constructor ()
      ensures closes == 0
    {
      closes := 0;
    }

    method CloseOnce()
      modifies this
      ensures closes == if old(closes) == 0 then 1 else old(closes)
    {
      if closes == 0 {
        closes := 1;
      }
    }
  }

  /** The client's state and current ready channel. */
  class StateGate {
    var state: ClientState
    var ready: Signal
    ghost var made: seq<Signal>

    ghost predicate Valid()
      reads this, made
    {
      && made != [] && ready == made[|made| - 1]
      && (forall i, j :: 0 <= i < j < |made| ==> made[i] != made[j])
    }

    ghost function Model(): Gate
      reads this, made
    {
      Gate(state, seq(|made|, i requires 0 <= i < |made| reads this, made => made[i].closes))
    }

    constructor ()
      ensures Valid() && fresh(made) && Model() == Gate(Disconnected, [0])
    {
      state := Disconnected;
      var signal := new Signal();
      ready := signal;
      made := [signal];
    }

    method Set(next: ClientState)
      requires Valid()
      modifies this, ready
      ensures Valid() && Model() == SetState(old(Model()), next)
      ensures fresh(set s | s in made && s !in old(made))
    {
      var previous := state;
      state := next;
      if next == Ready && previous != Ready {
        ready.CloseOnce();
      }
      if (next == Disconnected || next == Closing) && previous != next {
        ready.CloseOnce();
      }
      if next == Disconnected && previous != Disconnected {
        var signal := new Signal();
        ready := signal;
        made := made + [signal];
      }
      assert Model().closes == SetState(old(Model()), next).closes;
    }
  }

  // ---------- The run flags ----------

  datatype Flags = Flags(running: bool, closed: bool, runStarted: bool, runFinished: bool)

  const ERR_CLOSED := "osmose client closed"
  const ERR_RUNNING := "osmose client is already running"
  const ERR_COMPLETED := "osmose client run has completed"

  /** Run's first region: it goes on, or is refused. */
  function EnterRun(f: Flags): (r: (Flags, Option<string>)) {
    if f.closed then (f, Some(ERR_CLOSED))
    else if f.running then (f, Some(ERR_RUNNING))
    else if f.runStarted then (f, Some(ERR_COMPLETED))
    else (f.(runStarted := true, running := true), None)
  }

  /** Its last region. */
  function LeaveRun(f: Flags): Flags { f.(running := false, runFinished := true) }

  /** What a Close has still to do: nothing, close the client, or only announce the end; noRun is
      whether no run had started. */
  datatype Verdict = RunOver | First(noRun: bool) | Again(noRun: bool)

  function BeginClose(f: Flags): (r: (Flags, Verdict)) {
    if f.closed then (f, Again(!f.runStarted))
    else if f.runFinished then (f, RunOver)
    else (f.(closed := true), First(!f.runStarted))
  }

  class RunFlags {
    var running: bool
    var closed: bool
    var runStarted: bool
    var runFinished: bool

    function View(): Flags
      reads this
    {
      Flags(running, closed, runStarted, runFinished)
    }

    constructor ()
      ensures View() == Flags(false, false, false, false)
    {
      running, closed, runStarted, runFinished := false, false, false, false;
    }

    method Enter() returns (refused: Option<string>)
      modifies this
      ensures (View(), refused) == EnterRun(old(View()))
    {
      if closed {
        return Some(ERR_CLOSED);
      }
      if running {
        return Some(ERR_RUNNING);
      }
      if runStarted {
        return Some(ERR_COMPLETED);
      }
      runStarted := true;
      running := true;
      return None;
    }

    method Leave()
      modifies this
      ensures View() == LeaveRun(old(View()))
      ensures old(runStarted) ==> EnterRun(View()).1.Some?
    {
      running := false;
      runFinished := true;
    }

    method Close() returns (verdict: Verdict)
      modifies this
      ensures (View(), verdict) == BeginClose(old(View()))
    {
      if closed {
        return Again(!runStarted);
      }
      if runFinished {
        return RunOver;
      }
      closed := true;
      return First(!runStarted);
    }
  }

  // ---------- Run, Close and WaitReady, interleaved ----------

  datatype Runner = Entering | Looping | Leaving | Flagged | Finished | Refused(error: string)

  datatype Closer = Called | MustClose(noRun: bool) | MustSignal(noRun: bool) | Through

  datatype Waiter = Start | Read(state: ClientState, channel: nat) | Blocked(channel: nat) | Woken(ok: bool)

  /** signalled is whether some Close has set the state to Closing. */
  datatype State = State(gate: Gate, flags: Flags, signalled: bool, doneCloses: nat, runners: seq<Runner>,
                         closers: seq<Closer>, waiters: seq<Waiter>)

  datatype Step =
    | Spawn(runner: bool, waiter: bool)     // a goroutine calls Run, WaitReady, or else Close
    | Enter(r: nat)                         // Run's first region
    | Report(r: nat, next: ClientState)     // setState by the run loop
    | Leave(r: nat)                         // setState(Disconnected) in Run's deferred cleanup
    | Flag(r: nat)                          // its last region
    | Finish(r: nat)                        // doneOnce
    | CloseFlags(c: nat)
    | CloseState(c: nat)
    | CloseDone(c: nat)
    | ReadGate(w: nat)
    | Check(w: nat)
    | Wake(w: nat)

  predicate Enabled(s: State, step: Step) {
    match step
    case Spawn(_, _) => true
    case Enter(r) => r < |s.runners| && s.runners[r].Entering?
    case Report(r, _) => r < |s.runners| && s.runners[r].Looping?
    case Leave(r) => r < |s.runners| && s.runners[r].Looping?
    case Flag(r) => r < |s.runners| && s.runners[r].Leaving?
    case Finish(r) => r < |s.runners| && s.runners[r].Flagged?
    case CloseFlags(c) => c < |s.closers| && s.closers[c].Called?
    case CloseState(c) => c < |s.closers| && s.closers[c].MustClose?
    case CloseDone(c) => c < |s.closers| && s.closers[c].MustSignal?
    case ReadGate(w) => w < |s.waiters| && s.waiters[w].Start?
    case Check(w) => w < |s.waiters| && s.waiters[w].Read?
    case Wake(w) => w < |s.waiters| && s.waiters[w].Blocked? && !s.gate.Open(s.waiters[w].channel)
  }

  /** sync.Once around closing the done channel. */
  function DoneOnce(closes: nat): nat { if closes == 0 then 1 else closes }

  function Next(s: State, step: Step): State
    requires Enabled(s, step) && s.gate.closes != []
  {
    match step
    case Spawn(runner, waiter) =>
      if runner then s.(runners := s.runners + [Entering])
      else if waiter then s.(waiters := s.waiters + [Start])
      else s.(closers := s.closers + [Called])
    case Enter(r) =>
      var (flags, refused) := EnterRun(s.flags);
      s.(flags := flags, runners := s.runners[r := if refused.None? then Looping else Refused(refused.value)])
    case Report(_, next) => s.(gate := SetState(s.gate, next))
    case Leave(r) => s.(gate := SetState(s.gate, Disconnected), runners := s.runners[r := Leaving])
    case Flag(r) => s.(flags := LeaveRun(s.flags), runners := s.runners[r := Flagged])
    case Finish(r) => s.(doneCloses := DoneOnce(s.doneCloses), runners := s.runners[r := Finished])
    case CloseFlags(c) =>
      var (flags, verdict) := BeginClose(s.flags);
      s.(flags := flags, closers := s.closers[c := match verdict
        case RunOver => Through
        case First(noRun) => MustClose(noRun)
        case Again(noRun) => MustSignal(noRun)])
    case CloseState(c) =>
      s.(gate := SetState(s.gate, Closing), signalled := true,
         closers := s.closers[c := MustSignal(s.closers[c].noRun)])
    case CloseDone(c) =>
      s.(doneCloses := if s.closers[c].noRun then DoneOnce(s.doneCloses) else s.doneCloses,
         closers := s.closers[c := Through])
    case ReadGate(w) => s.(waiters := s.waiters[w := Read(s.gate.state, s.gate.Current())])
    case Check(w) =>
      var seen := s.waiters[w];
      s.(waiters := s.waiters[w :=
        if seen.state == Ready then Woken(true)
        else if s.flags.closed || seen.state == Closing then Woken(false)
        else Blocked(seen.channel)])
    case Wake(w) => s.(waiters := s.waiters[w := Start])
  }

  predicate Active(r: Runner) { r.Looping? || r.Leaving? }

  predicate Entered(r: Runner) { r.Looping? || r.Leaving? || r.Flagged? || r.Finished? }

  /** The flags, as far as runner r's place tells. */
  predicate RunnerOk(s: State, r: Runner) {
    && (Entered(r) ==> s.flags.runStarted)
    && (Active(r) ==> s.flags.running && !s.flags.runFinished)
    && (r.Flagged? || r.Finished? ==> s.flags.runFinished)
  }

  /** One run at most has entered, and it sets the flags. */
  ghost predicate RunnersOk(s: State) {
    && (forall i, j :: 0 <= i < j < |s.runners| ==> !(Entered(s.runners[i]) && Entered(s.runners[j])))
    && (forall i :: 0 <= i < |s.runners| ==> RunnerOk(s, s.runners[i]))
    && (s.flags.running || s.flags.runFinished ==> s.flags.runStarted)
    && (s.flags.running == (s.flags.runStarted && !s.flags.runFinished))
  }

  /** A run that started is some runner's. */
  ghost predicate StartedOk(s: State) {
    s.flags.runStarted ==> exists r :: 0 <= r < |s.runners| && Entered(s.runners[r])
  }

  predicate CloserOk(s: State, c: Closer) {
    && (c.MustClose? || c.MustSignal? ==> s.flags.closed && c.noRun == !s.flags.runStarted)
    && (c.Through? ==> (s.flags.closed || s.flags.runFinished) && (s.flags.runStarted || s.doneCloses == 1))
  }

  ghost predicate DoneOk(s: State) {
    && s.doneCloses <= 1
    && (s.doneCloses == 1 ==> s.flags.runFinished || (s.flags.closed && !s.flags.runStarted))
    && (forall r :: 0 <= r < |s.runners| && s.runners[r].Finished? ==> s.doneCloses == 1)
    && (forall c :: 0 <= c < |s.closers| ==> CloserOk(s, s.closers[c]))
  }

  predicate WaiterOk(s: State, w: Waiter) {
    && (w.Read? || w.Blocked? ==> w.channel < |s.gate.closes|)
    && (w.Blocked? && s.signalled ==> !s.gate.Open(w.channel))
  }

  ghost predicate WaitersOk(s: State) {
    && (s.signalled ==> s.flags.closed)
    && (forall w :: 0 <= w < |s.waiters| ==> WaiterOk(s, s.waiters[w]))
  }

  /** A closed client is announced, or some Close is still to announce it. */
  ghost predicate ClosingOk(s: State) {
    s.flags.closed && !s.signalled ==> exists c :: 0 <= c < |s.closers| && s.closers[c].MustClose?
  }

  ghost predicate Inv(s: State) {
    GateOk(s.gate) && RunnersOk(s) && StartedOk(s) && DoneOk(s) && WaitersOk(s) && ClosingOk(s)
  }

  /** Channels stay, and stay closed once closed. */
  ghost predicate Keeps(before: Gate, after: Gate) {
    && |before.closes| <= |after.closes|
    && forall i :: 0 <= i < |before.closes| && before.closes[i] == 1 ==> after.closes[i] == 1
  }

  lemma NextKeepsGate(s: State, step: Step)
    requires GateOk(s.gate) && Enabled(s, step)
    ensures GateOk(Next(s, step).gate) && Keeps(s.gate, Next(s, step).gate)
    ensures step.CloseState? ==> forall i :: 0 <= i < |s.gate.closes| ==> Next(s, step).gate.closes[i] == 1
  {
    match step
    case Report(_, next) => SetStateKeepsGate(s.gate, next);
    case Leave(_) => SetStateKeepsGate(s.gate, Disconnected);
    case CloseState(_) => SetStateKeepsGate(s.gate, Closing);
    case _ =>
  }

  predicate MovesRunner(step: Step) { step.Enter? || step.Leave? || step.Flag? || step.Finish? }

  predicate MovesWaiter(step: Step) { step.ReadGate? || step.Check? || step.Wake? }

  lemma RunnerMoves(s: State, step: Step)
    requires GateOk(s.gate) && RunnersOk(s) && Enabled(s, step) && MovesRunner(step)
    ensures RunnersOk(Next(s, step))
  {
    var t := Next(s, step);
    assert RunnerOk(s, s.runners[step.r]);
    forall i | 0 <= i < |t.runners| ensures RunnerOk(t, t.runners[i]) { assert RunnerOk(s, s.runners[i]); }
  }

  lemma NextKeepsRunners(s: State, step: Step)
    requires GateOk(s.gate) && RunnersOk(s) && Enabled(s, step)
    ensures RunnersOk(Next(s, step))
  {
    var t := Next(s, step);
    if MovesRunner(step) {
      RunnerMoves(s, step);
    } else {
      assert t.flags.(closed := s.flags.closed) == s.flags;
      forall i | 0 <= i < |t.runners| ensures RunnerOk(t, t.runners[i]) {
        if i < |s.runners| { assert RunnerOk(s, s.runners[i]); }
      }
    }
  }

  lemma CloserMoves(s: State, step: Step)
    requires GateOk(s.gate) && RunnersOk(s) && DoneOk(s) && Enabled(s, step)
    requires step.CloseFlags? || step.CloseState? || step.CloseDone?
    ensures DoneOk(Next(s, step))
  {
    var t := Next(s, step);
    assert CloserOk(s, s.closers[step.c]);
    forall c | 0 <= c < |t.closers| ensures CloserOk(t, t.closers[c]) { assert CloserOk(s, s.closers[c]); }
  }

  lemma NextKeepsDone(s: State, step: Step)
    requires GateOk(s.gate) && RunnersOk(s) && DoneOk(s) && Enabled(s, step)
    ensures DoneOk(Next(s, step))
  {
    var t := Next(s, step);
    if step.CloseFlags? || step.CloseState? || step.CloseDone? {
      CloserMoves(s, step);
    } else {
      if step.Finish? { assert RunnerOk(s, s.runners[step.r]); }
      forall c | 0 <= c < |t.closers| ensures CloserOk(t, t.closers[c]) {
        if c < |s.closers| { assert CloserOk(s, s.closers[c]); }
      }
    }
  }

  lemma WaiterMoves(s: State, step: Step)
    requires GateOk(s.gate) && WaitersOk(s) && Enabled(s, step) && MovesWaiter(step)
    ensures WaitersOk(Next(s, step))
  {
    var t := Next(s, step);
    assert WaiterOk(s, s.waiters[step.w]);
    forall w | 0 <= w < |t.waiters| ensures WaiterOk(t, t.waiters[w]) { assert WaiterOk(s, s.waiters[w]); }
  }

  lemma WaitersStay(s: State, t: State)
    requires WaitersOk(s) && Keeps(s.gate, t.gate) && GateOk(s.gate) && GateOk(t.gate)
    requires t.signalled ==> t.flags.closed
    requires t.signalled && !s.signalled ==> forall i :: 0 <= i < |s.gate.closes| ==> t.gate.closes[i] == 1
    requires t.waiters == s.waiters || t.waiters == s.waiters + [Start]
    ensures WaitersOk(t)
  {
    forall w | 0 <= w < |t.waiters| ensures WaiterOk(t, t.waiters[w]) {
      if w < |s.waiters| {
        assert WaiterOk(s, s.waiters[w]);
        var waiter := s.waiters[w];
        if waiter.Blocked? { assert s.gate.closes[waiter.channel] <= 1; }
      }
    }
  }

  lemma NextKeepsWaiters(s: State, step: Step)
    requires GateOk(s.gate) && DoneOk(s) && WaitersOk(s) && Enabled(s, step)
    ensures WaitersOk(Next(s, step))
  {
    if MovesWaiter(step) {
      WaiterMoves(s, step);
    } else {
      NextKeepsGate(s, step);
      if step.CloseState? { assert CloserOk(s, s.closers[step.c]); }
      WaitersStay(s, Next(s, step));
    }
  }

  lemma NextKeepsClosing(s: State, step: Step)
    requires GateOk(s.gate) && ClosingOk(s) && Enabled(s, step)
    ensures ClosingOk(Next(s, step))
  {
    var t := Next(s, step);
    if t.flags.closed && !t.signalled {
      if s.flags.closed {
        var c :| 0 <= c < |s.closers| && s.closers[c].MustClose?;
        assert t.closers[c].MustClose?;
      } else {
        assert t.closers[step.c].MustClose?;
      }
    }
  }

  lemma NextKeepsStarted(s: State, step: Step)
    requires GateOk(s.gate) && StartedOk(s) && Enabled(s, step)
    ensures StartedOk(Next(s, step))
  {
    var t := Next(s, step);
    if step.Enter? && t.runners[step.r].Looping? {
      assert Entered(t.runners[step.r]);
    } else if s.flags.runStarted {
      var r :| 0 <= r < |s.runners| && Entered(s.runners[r]);
      assert Entered(t.runners[r]);
    }
  }

  lemma NextKeepsInv(s: State, step: Step)
    requires Inv(s) && Enabled(s, step)
    ensures Inv(Next(s, step))
  {
    NextKeepsClosing(s, step);
    NextKeepsGate(s, step);
    NextKeepsRunners(s, step);
    NextKeepsStarted(s, step);
    NextKeepsDone(s, step);
    NextKeepsWaiters(s, step);
  }

  function Init(): State {
    State(Gate(Disconnected, [0]), Flags(false, false, false, false), false, 0, [], [], [])
  }

  predicate StepAt(states: seq<State>, steps: seq<Step>, i: nat)
    requires |states| == |steps| + 1 && i < |steps|
  {
    states[i].gate.closes != [] && Enabled(states[i], steps[i]) && states[i + 1] == Next(states[i], steps[i])
  }

  ghost predicate IsRun(states: seq<State>, steps: seq<Step>) {
    && |states| == |steps| + 1
    && states[0] == Init()
    && forall i {:trigger steps[i]} {:trigger StepAt(states, steps, i)} :: 0 <= i < |steps| ==>
         StepAt(states, steps, i)
  }

  lemma {:induction false} RunKeepsInv(states: seq<State>, steps: seq<Step>, i: nat)
    requires IsRun(states, steps) && i < |states|
    ensures Inv(states[i])
  {
    if i > 0 {
      var k := i - 1;
      RunKeepsInv(states, steps, k);
      NextKeepsInv(states[k], steps[k]);
    }
  }

  /** In every interleaving a waiter blocked on an open channel holds the current one, the client is
      neither ready nor closing, and no Close has announced itself: a signal to come will close the
      channel it holds, if one comes. No ready channel is ever closed twice. */
  lemma NoLostWakeup(states: seq<State>, steps: seq<Step>, i: nat, w: nat)
    requires IsRun(states, steps) && i < |states| && w < |states[i].waiters|
    requires states[i].waiters[w].Blocked? && !Enabled(states[i], Wake(w))
    ensures var s := states[i];
      && s.gate.closes != [] && s.waiters[w].channel == s.gate.Current()
      && s.gate.state != Ready && s.gate.state != Closing && !s.signalled
    ensures forall c :: 0 <= c < |states[i].gate.closes| ==> states[i].gate.closes[c] <= 1
  {
    RunKeepsInv(states, steps, i);
    assert WaiterOk(states[i], states[i].waiters[w]);
  }

  /** The state is the one last set: by the run loop's reports, its cleanup, or a Close that announces itself;
      and a blocked waiter that is woken reads it again. */
  lemma StateIsLastSet(states: seq<State>, steps: seq<Step>, i: nat)
    requires IsRun(states, steps) && i < |steps|
    ensures states[i + 1].gate.state ==
      match steps[i]
      case Report(_, next) => next
      case Leave(_) => Disconnected
      case CloseState(_) => Closing
      case _ => states[i].gate.state
    ensures steps[i].Wake? ==>
      steps[i].w < |states[i + 1].waiters| && states[i + 1].waiters[steps[i].w] == Start
      && Enabled(states[i + 1], ReadGate(steps[i].w))
  {
    assert StepAt(states, steps, i);
  }

  lemma {:induction false} ChannelsStay(states: seq<State>, steps: seq<Step>, i: nat, j: nat)
    requires IsRun(states, steps) && i <= j < |states|
    ensures Keeps(states[i].gate, states[j].gate)
    decreases j
  {
    if i == j {
      KeepsSelf(states[i].gate);
    } else {
      var k := j - 1;
      ChannelsStay(states, steps, i, k);
      StepKeeps(states, steps, k);
      KeepsTrans(states[i].gate, states[k].gate, states[k + 1].gate);
    }
  }

  lemma KeepsSelf(g: Gate)
    ensures Keeps(g, g)
  {
  }

  lemma StepKeeps(states: seq<State>, steps: seq<Step>, i: nat)
    requires IsRun(states, steps) && i < |steps|
    ensures Keeps(states[i].gate, states[i + 1].gate)
  {
    RunKeepsInv(states, steps, i);
    NextKeepsGate(states[i], steps[i]);
  }

  lemma KeepsTrans(a: Gate, b: Gate, c: Gate)
    requires Keeps(a, b) && Keeps(b, c)
    ensures Keeps(a, c)
  {
    assert forall i :: 0 <= i < |a.closes| && a.closes[i] == 1 ==> b.closes[i] == 1;
  }

  /** A signal is never missed: if the client was ready or closing at any moment after a waiter blocked,
      the channel it blocked on is closed from then on, whatever state came since. */
  lemma SignalsAreKept(states: seq<State>, steps: seq<Step>, blocked: nat, signal: nat, i: nat, w: nat)
    requires IsRun(states, steps) && blocked <= signal <= i < |states|
    requires w < |states[blocked].waiters| && states[blocked].waiters[w].Blocked?
    requires states[signal].gate.state == Ready || states[signal].gate.state == Closing
    ensures !states[i].gate.Open(states[blocked].waiters[w].channel)
  {
    var channel := states[blocked].waiters[w].channel;
    RunKeepsInv(states, steps, blocked);
    assert WaiterOk(states[blocked], states[blocked].waiters[w]);
    ChannelsStay(states, steps, blocked, signal);
    RunKeepsInv(states, steps, signal);
    ChannelsStay(states, steps, signal, i);
  }

  /** Step j is w's latest reading of the gate before moment i, and it saw the given state. */
  ghost predicate LastSaw(states: seq<State>, steps: seq<Step>, j: nat, i: nat, w: nat, seen: ClientState) {
    && j < i <= |steps| < |states| && steps[j] == ReadGate(w) && states[j].gate.state == seen
    && forall m :: j < m < i ==> steps[m] != ReadGate(w)
  }

  lemma LastSawStays(states: seq<State>, steps: seq<Step>, j: nat, i: nat, w: nat, seen: ClientState)
    requires LastSaw(states, steps, j, i, w, seen) && i < |steps| && steps[i] != ReadGate(w)
    ensures LastSaw(states, steps, j, i + 1, w, seen)
  {
  }

  /** What a waiter's place in WaitReady says about its latest reading of the gate. */
  ghost predicate PlaceOk(states: seq<State>, steps: seq<Step>, i: nat, w: nat)
    requires i < |states| && w < |states[i].waiters|
  {
    match states[i].waiters[w]
    case Start => true
    case Read(seen, _) => exists j :: LastSaw(states, steps, j, i, w, seen)
    case Blocked(_) =>
      exists j, seen :: LastSaw(states, steps, j, i, w, seen) && seen != Ready && seen != Closing
    case Woken(true) => exists j :: LastSaw(states, steps, j, i, w, Ready)
    case Woken(false) =>
      exists j, seen :: LastSaw(states, steps, j, i, w, seen) && seen != Ready
                        && (seen == Closing || states[i].flags.closed)
  }

  lemma MovedPlaceOk(states: seq<State>, steps: seq<Step>, i: nat, w: nat)
    requires IsRun(states, steps) && i < |steps| && w < |states[i].waiters| && PlaceOk(states, steps, i, w)
    requires MovesWaiter(steps[i]) && steps[i].w == w
    ensures w < |states[i + 1].waiters| && PlaceOk(states, steps, i + 1, w)
  {
    assert StepAt(states, steps, i);
    if steps[i].ReadGate? {
      assert LastSaw(states, steps, i, i + 1, w, states[i].gate.state);
    } else if steps[i].Check? {
      var seen := states[i].waiters[w].state;
      var j :| LastSaw(states, steps, j, i, w, seen);
      LastSawStays(states, steps, j, i, w, seen);
    }
  }

  lemma UnmovedPlaceOk(states: seq<State>, steps: seq<Step>, i: nat, w: nat)
    requires IsRun(states, steps) && i < |steps| && w < |states[i].waiters| && PlaceOk(states, steps, i, w)
    requires !(MovesWaiter(steps[i]) && steps[i].w == w)
    ensures w < |states[i + 1].waiters| && states[i + 1].waiters[w] == states[i].waiters[w]
    ensures PlaceOk(states, steps, i + 1, w)
  {
    assert StepAt(states, steps, i);
    if !states[i].waiters[w].Start? {
      var j, seen :| LastSaw(states, steps, j, i, w, seen) && match states[i].waiters[w]
        case Read(state, _) => seen == state
        case Woken(ok) => (seen == Ready <==> ok) && (!ok ==> seen == Closing || states[i].flags.closed)
        case _ => seen != Ready && seen != Closing;
      LastSawStays(states, steps, j, i, w, seen);
    }
  }

  /** What WaitReady returns, in every interleaving: success only after it read the state Ready; ErrClosed
      only after it read another state and that was Closing or the client is closed. It blocks only after
      reading neither Ready nor Closing. */
  lemma {:induction false} WaitReadyVerdict(states: seq<State>, steps: seq<Step>, i: nat, w: nat)
    requires IsRun(states, steps) && i < |states| && w < |states[i].waiters|
    ensures PlaceOk(states, steps, i, w)
  {
    if i > 0 {
      var k := i - 1;
      assert StepAt(states, steps, k);
      if w < |states[k].waiters| {
        WaitReadyVerdict(states, steps, k, w);
        if MovesWaiter(steps[k]) && steps[k].w == w {
          MovedPlaceOk(states, steps, k, w);
        } else {
          UnmovedPlaceOk(states, steps, k, w);
        }
      }
    }
  }

  /** And the other way: a waiter that has read Ready succeeds at its next step, even if the client has been
      closed since; one that read another state gets ErrClosed if that was Closing or the client is closed
      by then, and blocks on the channel it read otherwise. */
  lemma CheckDecides(states: seq<State>, steps: seq<Step>, i: nat, w: nat)
    requires IsRun(states, steps) && i < |steps| && steps[i] == Check(w)
    ensures w < |states[i].waiters| == |states[i + 1].waiters| && states[i].waiters[w].Read?
    ensures var seen, after := states[i].waiters[w], states[i + 1].waiters[w];
      && (exists j :: LastSaw(states, steps, j, i, w, seen.state))
      && (after == Woken(true) <==> seen.state == Ready)
      && (after == Woken(false) <==> seen.state != Ready && (seen.state == Closing || states[i].flags.closed))
      && (after.Woken? || after == Blocked(seen.channel))
  {
    assert StepAt(states, steps, i);
    WaitReadyVerdict(states, steps, i, w);
  }

  /** At most one Run ever enters its loop; done closes at most once, and only when that run has finished
      or the client was closed before any run started. */
  lemma RunsOnce(states: seq<State>, steps: seq<Step>, i: nat, a: nat, b: nat)
    requires IsRun(states, steps) && i < |states| && a < |states[i].runners| && b < |states[i].runners|
    ensures Entered(states[i].runners[a]) && Entered(states[i].runners[b]) ==> a == b
    ensures states[i].doneCloses <= 1
    ensures states[i].doneCloses == 1 ==>
      states[i].flags.runFinished || (states[i].flags.closed && !states[i].flags.runStarted)
  {
    RunKeepsInv(states, steps, i);
  }

  /** done does close: it has closed once a run is through, and once a Close is through if no run has
      started. A Close that is through leaves the client closed or its run over. */
  lemma DoneIsReached(states: seq<State>, steps: seq<Step>, i: nat)
    requires IsRun(states, steps) && i < |states|
    ensures var s := states[i];
      && (forall r :: 0 <= r < |s.runners| && s.runners[r].Finished? ==> s.doneCloses == 1)
      && (forall c :: 0 <= c < |s.closers| && s.closers[c].Through? ==>
            && (s.flags.closed || s.flags.runFinished)
            && (s.flags.runStarted || s.doneCloses == 1))
  {
    RunKeepsInv(states, steps, i);
    forall c | 0 <= c < |states[i].closers| ensures CloserOk(states[i], states[i].closers[c]) {}
  }

  /** Which Run goes on, and what a refused one returns: that the client is closed, or that another Run is
      in its loop or its cleanup, or that another has been through them. */
  lemma RefusalsAreExact(states: seq<State>, steps: seq<Step>, i: nat)
    requires IsRun(states, steps) && i < |steps| && steps[i].Enter?
    ensures var s, r := states[i], steps[i].r;
      && r < |s.runners| == |states[i + 1].runners|
      && states[i + 1].runners[r] ==
         if s.flags.closed then Refused("osmose client closed")
         else if exists q :: 0 <= q < |s.runners| && Active(s.runners[q])
         then Refused("osmose client is already running")
         else if exists q :: 0 <= q < |s.runners| && (s.runners[q].Flagged? || s.runners[q].Finished?)
         then Refused("osmose client run has completed")
         else Looping
  {
    var s := states[i];
    RunKeepsInv(states, steps, i);
    assert StepAt(states, steps, i);
    forall q | 0 <= q < |s.runners| ensures RunnerOk(s, s.runners[q]) {}
    if s.flags.runStarted {
      var q :| 0 <= q < |s.runners| && Entered(s.runners[q]);
      assert RunnerOk(s, s.runners[q]);
    }
  }

  lemma NextKeepsFinish(s: State, step: Step)
    requires Inv(s) && Enabled(s, step) && s.flags.runFinished
    ensures Next(s, step).flags.runFinished
    ensures step.Enter? ==> Next(s, step).runners[step.r].Refused?
  {
    if step.Enter? { assert s.flags.runStarted; }
  }

  lemma {:induction false} FinishStays(states: seq<State>, steps: seq<Step>, i: nat, j: nat)
    requires IsRun(states, steps) && i <= j < |states| && states[i].flags.runFinished
    ensures states[j].flags.runFinished
    decreases j
  {
    if i < j {
      var k := j - 1;
      FinishStays(states, steps, i, k);
      RunKeepsInv(states, steps, k);
      NextKeepsFinish(states[k], steps[k]);
    }
  }

  /** A run leaves for good: every Run that enters later is refused. */
  lemma NoRunAfterTheFirst(states: seq<State>, steps: seq<Step>, i: nat, j: nat)
    requires IsRun(states, steps) && i <= j < |steps| && states[i].flags.runFinished && steps[j].Enter?
    ensures steps[j].r < |states[j + 1].runners| && states[j + 1].runners[steps[j].r].Refused?
  {
    FinishStays(states, steps, i, j);
    RunKeepsInv(states, steps, j);
    NextKeepsFinish(states[j], steps[j]);
  }

  // ---------- Waits that never end ----------

  predicate Waits(s: State, w: nat) { w < |s.waiters| && s.waiters[w].Blocked? && s.gate.Open(s.waiters[w].channel) }

  /** The run ended without a Close, so nothing will ever signal again. */
  predicate Over(s: State) { s.flags.runFinished && !s.flags.closed }

  lemma NextKeepsOver(s: State, step: Step, w: nat)
    requires Inv(s) && Enabled(s, step) && Over(s) && Waits(s, w)
    ensures var t := Next(s, step); Over(t) && t.gate == s.gate && Waits(t, w) && t.waiters[w] == s.waiters[w]
  {
    assert forall r :: 0 <= r < |s.runners| ==> RunnerOk(s, s.runners[r]) && !Active(s.runners[r]);
    assert forall c :: 0 <= c < |s.closers| ==> CloserOk(s, s.closers[c]) && !s.closers[c].MustClose?;
  }

  /** The code does not always end a wait: once the run ended without a Close, a waiter blocked on the open
      channel stays blocked in every continuation, for a later Close returns without a signal. */
  lemma {:induction false} StuckForever(states: seq<State>, steps: seq<Step>, i: nat, j: nat, w: nat)
    requires IsRun(states, steps) && i <= j < |states| && Over(states[i]) && Waits(states[i], w)
    ensures Over(states[j]) && Waits(states[j], w) && !Enabled(states[j], Wake(w))
    decreases j
  {
    if i < j {
      var k := j - 1;
      StuckForever(states, steps, i, k, w);
      RunKeepsInv(states, steps, k);
      NextKeepsOver(states[k], steps[k], w);
    }
  }

  lemma Extends(states: seq<State>, steps: seq<Step>, more: seq<State>, longer: seq<Step>)
    requires IsRun(states, steps) && |longer| == |steps| + 1 && |more| == |states| + 1
    requires steps <= longer && states <= more
    requires var s, step := more[|steps|], longer[|steps|];
      s.gate.closes != [] && Enabled(s, step) && more[|longer|] == Next(s, step)
    ensures IsRun(more, longer)
  {
    forall i | 0 <= i < |longer| ensures StepAt(more, longer, i) {
      if i < |steps| {
        assert longer[i] == steps[i] && more[i] == states[i] && more[i + 1] == states[i + 1];
        assert StepAt(states, steps, i);
      }
    }
    assert more[0] == states[0];
  }

  lemma Continue(states: seq<State>, steps: seq<Step>, step: Step) returns (more: seq<State>, longer: seq<Step>)
    requires IsRun(states, steps) && states[|steps|].gate.closes != [] && Enabled(states[|steps|], step)
    ensures IsRun(more, longer) && steps <= longer && states <= more && |longer| == |steps| + 1
    ensures more[|longer|] == Next(states[|steps|], step)
  {
    more, longer := states + [Next(states[|steps|], step)], steps + [step];
    Extends(states, steps, more, longer);
  }

  /** Otherwise some continuation wakes the waiter: the run can be closed, or is about to be. */
  lemma WakeIsPossible(states: seq<State>, steps: seq<Step>, w: nat) returns (more: seq<State>, longer: seq<Step>)
    requires IsRun(states, steps) && Waits(states[|steps|], w) && !Over(states[|steps|])
    ensures IsRun(more, longer) && steps <= longer && states <= more
    ensures more[|longer|].waiters == states[|steps|].waiters && Enabled(more[|longer|], Wake(w))
  {
    more, longer := states, steps;
    RunKeepsInv(states, steps, |steps|);
    if !states[|steps|].flags.closed {
      var c := |states[|steps|].closers|;
      more, longer := Continue(more, longer, Spawn(false, false));
      more, longer := Continue(more, longer, CloseFlags(c));
      RunKeepsInv(more, longer, |longer|);
    }
    var s := more[|longer|];
    assert WaiterOk(s, s.waiters[w]);
    var c :| 0 <= c < |s.closers| && s.closers[c].MustClose?;
    NextKeepsGate(s, CloseState(c));
    more, longer := Continue(more, longer, CloseState(c));
  }

  /** Such a wait exists: a Run that begins and ends without getting ready, and then a WaitReady. */
  lemma StuckExists() returns (states: seq<State>, steps: seq<Step>)
    ensures IsRun(states, steps) && Over(states[|steps|]) && Waits(states[|steps|], 0)
  {
    states, steps := [Init()], [];
    states, steps := Continue(states, steps, Spawn(true, false));
    states, steps := Continue(states, steps, Enter(0));
    states, steps := Continue(states, steps, Leave(0));
    states, steps := Continue(states, steps, Flag(0));
    states, steps := Continue(states, steps, Spawn(false, true));
    states, steps := Continue(states, steps, ReadGate(0));
    states, steps := Continue(states, steps, Check(0));
  }
}
