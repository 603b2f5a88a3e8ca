/** internal/database/listener.go: a bounded buffer filled by the receive loop, and the collection of signals
    that ends when the stream goes quiet. */
module Listener {
  import opened Basics

  /** Buffer size of the signal channel, and of the error channel. */
  const SIGNALS := 1000
  const ERRORS := 10

  datatype Notification = Notification(channel: string, payload: string)

  /** The signal channel and the drop counter. */
  datatype Queue = Queue(buffer: seq<string>, dropped: nat)

  /** A notification of another channel is ignored; one that finds the buffer full is counted as dropped. */
  function Handled(q: Queue, channel: string, n: Notification): Queue {
    if n.channel != channel then q
    else if |q.buffer| < SIGNALS then q.(buffer := q.buffer + [n.payload])
    else q.(dropped := q.dropped + 1)
  }

  class Listener {
    const channel: string
    var signals: seq<string>
    var droppedSignals: nat

    constructor (channel: string)
      ensures this.channel == channel && Value() == Queue([], 0)
    {
      this.channel := channel;
      signals := [];
      droppedSignals := 0;
    }

    function Value(): Queue
      reads this
    {
      Queue(signals, droppedSignals)
    }

    method HandleNotification(n: Notification)
      modifies this
      ensures Value() == Handled(old(Value()), channel, n)
      ensures Value() == if n.channel != channel then old(Value())
                         else if |old(signals)| < 1000 then Queue(old(signals) + [n.payload], old(droppedSignals))
                         else Queue(old(signals), old(droppedSignals) + 1)
    {
      if n.channel != channel {
        return;
      }
      if |signals| < SIGNALS {
        signals := signals + [n.payload];
      } else {
        droppedSignals := droppedSignals + 1;
      }
    }

    /** `drain`, run while nothing arrives: takes everything that is buffered, in order. */
    method Drain(collected: seq<string>) returns (all: seq<string>)
      modifies this`signals
      ensures all == collected + old(signals) && signals == []
    {
      all := collected;
      assert collected + signals == collected + old(signals);
      while signals != []
        invariant all + signals == collected + old(signals)
        decreases |signals|
      {
        assert all + signals == all + [signals[0]] + signals[1..];
        all := all + [signals[0]];
        signals := signals[1..];
      }
      assert all + [] == all;
    }
  }

  // ----- the protocol -----

  datatype Reason = Closed | Deadline | Cancelled

  /** `CollectSignals` selects, drains before it returns for a reason, or has returned. */
  datatype Phase = Selecting | Draining(why: Reason) | Returned(reason: Reason)

  /** `history` is every matching notification handled so far and whether it was accepted. `closing` says that `Close`
      was called, which uses the connection until `disconnected`; `panicked` that the program died. */
  datatype State = State(
    queue: Queue, signalsClosed: bool,
    errors: nat, errorsClosed: bool, errorsDisabled: bool,
    loopRunning: bool, cancelled: bool, closing: bool, disconnected: bool, panicked: bool,
    now: nat, deadline: nat,
    phase: Phase, collected: seq<string>,
    history: seq<(string, bool)>)

  /** What the receive loop, the clock and the caller do; what `Close` does, whose UNLISTEN reads the connection and
      may come upon notifications; and what `CollectSignals` does. */
  datatype Step =
    | Notify(n: Notification) | ReceiveError | LoopEnds | CloseErrors | CloseSignals | Tick(time: nat) | Cancel
    | Close | Unlisten(n: Notification) | Disconnect
    | Receive | SeeClosed | TakeError | TakeClosedErrors | Expire | SeeCancelled | DrainOne | DrainEnds

  datatype Config = Config(channel: string, timeout: nat)

  function Init(c: Config, now: nat): State {
    State(Queue([], 0), false, 0, false, false, true, false, false, false, false, now,
          now + c.timeout, Selecting, [], [])
  }

  predicate Enabled(s: State, step: Step) {
    !s.panicked &&
    match step
    case Notify(_) => s.loopRunning && !s.disconnected
    case ReceiveError => s.loopRunning
    case Close => !s.closing
    case Unlisten(_) => s.closing && !s.loopRunning && !s.disconnected
    case Disconnect => s.closing && !s.disconnected
    case LoopEnds => s.loopRunning
    case CloseErrors => !s.loopRunning && !s.errorsClosed
    case CloseSignals => s.errorsClosed && !s.signalsClosed
    case Tick(_) => true
    case Cancel => !s.cancelled
    case Receive => s.phase.Selecting? && s.queue.buffer != []
    case SeeClosed => s.phase.Selecting? && s.queue.buffer == [] && s.signalsClosed
    case TakeError => s.phase.Selecting? && !s.errorsDisabled && s.errors > 0
    case TakeClosedErrors => s.phase.Selecting? && !s.errorsDisabled && s.errors == 0 && s.errorsClosed
    case Expire => s.phase.Selecting? && s.deadline <= s.now
    case SeeCancelled => s.phase.Selecting? && s.cancelled
    case DrainOne => s.phase.Draining? && s.queue.buffer != []
    case DrainEnds => s.phase.Draining? && s.queue.buffer == []
  }

  function Take(s: State): State
    requires s.queue.buffer != []
  {
    s.(queue := s.queue.(buffer := s.queue.buffer[1..]), collected := s.collected + [s.queue.buffer[0]])
  }

  function ReturnFor(s: State, why: Reason): State {
    s.(phase := Returned(why))
  }

  function Accept(c: Config, s: State, n: Notification): State {
    s.(queue := Handled(s.queue, c.channel, n),
       history := if n.channel == c.channel then s.history + [(n.payload, |s.queue.buffer| < SIGNALS)] else s.history)
  }

  function Next(c: Config, s: State, step: Step): State
    requires Enabled(s, step)
  {
    match step
    case Notify(n) => Accept(c, s, n)
    case Close => s.(closing := true)
    case Unlisten(n) =>
      if n.channel == c.channel && s.signalsClosed then s.(panicked := true) else Accept(c, s, n)
    case Disconnect => s.(disconnected := true)
    case ReceiveError => s.(errors := if s.errors < ERRORS then s.errors + 1 else s.errors)
    case LoopEnds => s.(loopRunning := false)
    case CloseErrors => s.(errorsClosed := true)
    case CloseSignals => s.(signalsClosed := true)
    case Tick(time) => s.(now := s.now + time)
    case Cancel => s.(cancelled := true)
    case Receive => Take(s).(deadline := s.now + c.timeout)
    case SeeClosed => ReturnFor(s, Closed)
    case TakeError => s.(errors := s.errors - 1)
    case TakeClosedErrors => s.(errorsDisabled := true)
    case Expire => s.(phase := Draining(Deadline))
    case SeeCancelled => s.(phase := Draining(Cancelled))
    case DrainOne => Take(s)
    case DrainEnds => ReturnFor(s, s.phase.why)
  }

  /** The signals that were accepted, in the order they arrived. */
  function Accepted(history: seq<(string, bool)>): seq<string> {
    if history == [] then []
    else
      var last := |history| - 1;
      Accepted(history[..last]) + (if history[last].1 then [history[last].0] else [])
  }

  lemma AcceptedSnoc(history: seq<(string, bool)>, e: (string, bool))
    ensures Accepted(history + [e]) == Accepted(history) + (if e.1 then [e.0] else [])
  {
    assert (history + [e])[..|history|] == history;
  }

  ghost predicate Inv(c: Config, s: State) {
    && Accounted(s.history, s.collected, s.queue) && s.errors <= ERRORS
    && (s.errorsDisabled ==> s.errorsClosed)
    && (s.errorsClosed ==> !s.loopRunning) && (s.signalsClosed ==> s.errorsClosed)
    && s.phase != Draining(Closed)
  }

  /** The first clauses of the invariant: what arrived is accounted for. */
  predicate Accounted(history: seq<(string, bool)>, collected: seq<string>, q: Queue) {
    && Accepted(history) == collected + q.buffer
    && |history| == |collected| + |q.buffer| + q.dropped
    && |q.buffer| <= SIGNALS
  }

  lemma AcceptAccounted(history: seq<(string, bool)>, collected: seq<string>, q: Queue, payload: string)
    requires Accounted(history, collected, q)
    ensures var room := |q.buffer| < SIGNALS;
            Accounted(history + [(payload, room)], collected,
                      if room then q.(buffer := q.buffer + [payload]) else q.(dropped := q.dropped + 1))
  {
    AcceptedSnoc(history, (payload, |q.buffer| < SIGNALS));
    assert collected + q.buffer + [payload] == collected + (q.buffer + [payload]);
    assert Accepted(history) + [] == Accepted(history);
  }

  lemma AcceptKeeps(c: Config, s: State, n: Notification)
    requires Inv(c, s)
    ensures Inv(c, Accept(c, s, n))
  {
    hide Accepted, Accounted;
    if n.channel == c.channel {
      AcceptAccounted(s.history, s.collected, s.queue, n.payload);
    }
  }

  lemma TakeKeeps(c: Config, s: State, step: Step)
    requires Inv(c, s) && Enabled(s, step) && (step.Receive? || step.DrainOne?)
    ensures Inv(c, Next(c, s, step))
  {
    hide Accepted;
    assert Take(s).collected + Take(s).queue.buffer == s.collected + s.queue.buffer;
  }

  /** Steps that leave the signals alone. */
  lemma OtherKeeps(c: Config, s: State, step: Step)
    requires Inv(c, s) && Enabled(s, step)
    requires !step.Notify? && !step.Unlisten? && !step.Receive? && !step.DrainOne?
    ensures Inv(c, Next(c, s, step))
  {
    hide Accepted;
  }

  lemma NotifyAccepts(c: Config, s: State, n: Notification)
    requires Enabled(s, Notify(n))
    ensures Next(c, s, Notify(n)) == Accept(c, s, n)
  {
  }

  lemma UnlistenKeeps(c: Config, s: State, n: Notification)
    requires Inv(c, s) && Enabled(s, Unlisten(n)) && Inv(c, Accept(c, s, n))
    ensures Inv(c, Next(c, s, Unlisten(n)))
  {
    hide Accepted, Accept;
  }

  lemma StepKeeps(c: Config, s: State, step: Step)
    requires Inv(c, s) && Enabled(s, step)
    ensures Inv(c, Next(c, s, step))
  {
    hide Inv, Next, Enabled, Accept;
    match step
    case Notify(n) => AcceptKeeps(c, s, n); NotifyAccepts(c, s, n);
    case Unlisten(n) => AcceptKeeps(c, s, n); UnlistenKeeps(c, s, n);
    case Receive => TakeKeeps(c, s, step);
    case DrainOne => TakeKeeps(c, s, step);
    case _ => OtherKeeps(c, s, step);
  }

  predicate Runs(c: Config, s: State, steps: seq<Step>)
    decreases |steps|
  {
    steps == [] || (Enabled(s, steps[0]) && Runs(c, Next(c, s, steps[0]), steps[1..]))
  }

  function After(c: Config, s: State, steps: seq<Step>): State
    requires Runs(c, s, steps)
    decreases |steps|
  {
    if steps == [] then s else After(c, Next(c, s, steps[0]), steps[1..])
  }

  lemma {:induction false} RunKeeps(c: Config, s: State, steps: seq<Step>)
    requires Inv(c, s) && Runs(c, s, steps)
    ensures Inv(c, After(c, s, steps))
    decreases |steps|
  {
    if steps != [] {
      StepKeeps(c, s, steps[0]);
      hide Inv, Enabled, Next;
      RunKeeps(c, Next(c, s, steps[0]), steps[1..]);
    }
  }

  /** The receive loop never puts anything into a channel that has been closed. */
  lemma NoSendOnClosed(c: Config, start: nat, steps: seq<Step>, step: Step)
    requires Runs(c, Init(c, start), steps) && Enabled(After(c, Init(c, start), steps), step)
    requires step.Notify? || step.ReceiveError?
    ensures var s := After(c, Init(c, start), steps); !s.signalsClosed && !s.errorsClosed
  {
    RunKeeps(c, Init(c, start), steps);
  }

  /** The UNLISTEN of `Close` comes upon a notification of the channel when the loop has closed the signals. */
  predicate ReadLate(c: Config, s: State, steps: seq<Step>)
    requires Runs(c, s, steps)
    decreases |steps|
  {
    steps != [] &&
    ((s.signalsClosed && steps[0].Unlisten? && steps[0].n.channel == c.channel)
     || ReadLate(c, Next(c, s, steps[0]), steps[1..]))
  }

  /** `Close` does: the program dies of a send on the closed channel exactly if its UNLISTEN reads a notification of the
      channel after the loop has closed the signals. */
  lemma {:induction false} SendOnClosedIff(c: Config, s: State, steps: seq<Step>)
    requires Runs(c, s, steps)
    ensures After(c, s, steps).panicked <==> s.panicked || ReadLate(c, s, steps)
    decreases |steps|
  {
    if steps != [] {
      PanicStep(c, s, steps[0]);
      hide Next, Enabled;
      SendOnClosedIff(c, Next(c, s, steps[0]), steps[1..]);
    }
  }

  lemma PanicStep(c: Config, s: State, step: Step)
    requires Enabled(s, step)
    ensures Next(c, s, step).panicked
            <==> s.panicked || (s.signalsClosed && step.Unlisten? && step.n.channel == c.channel)
  {
    hide Handled;
    if !step.Unlisten? {
      NoPanic(c, s, step);
    }
  }

  lemma NoPanic(c: Config, s: State, step: Step)
    requires Enabled(s, step) && !step.Unlisten?
    ensures Next(c, s, step).panicked == s.panicked
  {
    hide Handled;
    match step {
      case Receive =>
      case DrainOne =>
      case SeeClosed =>
      case DrainEnds =>
      case Notify(n) =>
      case _ =>
    }
  }

  lemma AfterFirst(c: Config, s: State, step: Step, rest: seq<Step>)
    requires Enabled(s, step) && Runs(c, Next(c, s, step), rest)
    ensures Runs(c, s, [step] + rest) && After(c, s, [step] + rest) == After(c, Next(c, s, step), rest)
  {
    assert ([step] + rest)[1..] == rest;
  }

  /** That happens: the loop ends, closes both channels, and one more notification is read. */
  lemma SendOnClosed(c: Config, start: nat, payload: string)
    ensures var steps := [Close, LoopEnds, CloseErrors, CloseSignals, Unlisten(Notification(c.channel, payload))];
            Runs(c, Init(c, start), steps) && After(c, Init(c, start), steps).panicked
  {
    hide Runs, After;
    var late := Unlisten(Notification(c.channel, payload));
    var s0 := Init(c, start);
    var s1 := Next(c, s0, Close);
    var s2 := Next(c, s1, LoopEnds);
    var s3 := Next(c, s2, CloseErrors);
    var s4 := Next(c, s3, CloseSignals);
    NoSteps(c, Next(c, s4, late));
    assert [late] + [] == [late] && [CloseSignals] + [late] == [CloseSignals, late];
    assert [CloseErrors] + [CloseSignals, late] == [CloseErrors, CloseSignals, late];
    assert [LoopEnds] + [CloseErrors, CloseSignals, late] == [LoopEnds, CloseErrors, CloseSignals, late];
    assert [Close] + [LoopEnds, CloseErrors, CloseSignals, late] == [Close, LoopEnds, CloseErrors, CloseSignals, late];
    AfterFirst(c, s4, late, []);
    AfterFirst(c, s3, CloseSignals, [late]);
    AfterFirst(c, s2, CloseErrors, [CloseSignals, late]);
    AfterFirst(c, s1, LoopEnds, [CloseErrors, CloseSignals, late]);
    AfterFirst(c, s0, Close, [LoopEnds, CloseErrors, CloseSignals, late]);
  }

  lemma NoSteps(c: Config, s: State)
    ensures Runs(c, s, []) && After(c, s, []) == s
  {
  }

  // ----- what the steps alone tell -----

  /** The time behind the steps. */
  function Clock(start: nat, steps: seq<Step>): nat {
    if steps == [] then start
    else
      var last := |steps| - 1;
      Clock(start, steps[..last]) + (if steps[last].Tick? then steps[last].time else 0)
  }

  /** The time of the last `Receive`, or of the start. */
  function QuietSince(start: nat, steps: seq<Step>): nat {
    if steps == [] then start
    else
      var last := |steps| - 1;
      if steps[last].Receive? then Clock(start, steps[..last]) else QuietSince(start, steps[..last])
  }

  predicate OfChannel(c: Config, step: Step) {
    (step.Notify? || step.Unlisten?) && step.n.channel == c.channel
  }

  /** The payloads of the notifications of the channel, in the order they arrive. */
  function Arrived(c: Config, steps: seq<Step>): seq<string> {
    if steps == [] then []
    else
      var last := |steps| - 1;
      Arrived(c, steps[..last]) + (if OfChannel(c, steps[last]) then [steps[last].n.payload] else [])
  }

  lemma StepsNext(c: Config, start: nat, steps: seq<Step>, step: Step)
    ensures var steps' := steps + [step];
            && Clock(start, steps') == Clock(start, steps) + (if step.Tick? then step.time else 0)
            && QuietSince(start, steps') == (if step.Receive? then Clock(start, steps) else QuietSince(start, steps))
            && Arrived(c, steps') == Arrived(c, steps) + (if OfChannel(c, step) then [step.n.payload] else [])
  {
    assert (steps + [step])[..|steps|] == steps;
  }

  /** `timeout` has gone by at the clock of the steps since the start and since every `Receive`. */
  predicate WindowOver(c: Config, start: nat, steps: seq<Step>) {
    && start + c.timeout <= Clock(start, steps)
    && forall k :: 0 <= k < |steps| && steps[k].Receive?
                   ==> Clock(start, steps[..k]) + c.timeout <= Clock(start, steps)
  }

  lemma {:induction false} QuietIsLatest(start: nat, steps: seq<Step>)
    ensures start <= QuietSince(start, steps) <= Clock(start, steps)
    ensures forall k :: 0 <= k < |steps| && steps[k].Receive? ==> Clock(start, steps[..k]) <= QuietSince(start, steps)
    ensures QuietSince(start, steps) == start
            || exists k :: 0 <= k < |steps| && steps[k].Receive? && Clock(start, steps[..k]) == QuietSince(start, steps)
    decreases |steps|
  {
    if steps != [] {
      var init := steps[..|steps| - 1];
      QuietIsLatest(start, init);
      assert forall k :: 0 <= k < |steps| ==> steps[..k] == init[..k];
      assert forall k :: 0 <= k < |init| ==> init[k] == steps[k];
      assert steps[|steps| - 1].Receive? ==> Clock(start, steps[..|steps| - 1]) == QuietSince(start, steps);
    }
  }

  lemma WindowOverIff(c: Config, start: nat, steps: seq<Step>)
    ensures WindowOver(c, start, steps) <==> QuietSince(start, steps) + c.timeout <= Clock(start, steps)
  {
    QuietIsLatest(start, steps);
  }

  /** The window expires at step `e`. */
  ghost predicate ExpiresAt(c: Config, start: nat, steps: seq<Step>, e: nat) {
    e < |steps| && steps[e].Expire? && WindowOver(c, start, steps[..e])
  }

  ghost predicate Timing(c: Config, start: nat, steps: seq<Step>, s: State) {
    && s.now == Clock(start, steps) && s.deadline == QuietSince(start, steps) + c.timeout
    && (s.cancelled <==> Cancel in steps) && (s.signalsClosed <==> CloseSignals in steps)
    && (s.errorsDisabled <==> TakeClosedErrors in steps)
    && (s.phase == Draining(Deadline) || s.phase == Returned(Deadline) ==>
          exists e: nat :: ExpiresAt(c, start, steps, e))
    && (s.phase == Draining(Cancelled) || s.phase == Returned(Cancelled) ==> s.cancelled)
    && (s.phase == Returned(Closed) ==> s.signalsClosed)
    && s.phase != Draining(Closed)
  }

  lemma TimingNext(c: Config, start: nat, steps: seq<Step>, s: State, step: Step)
    requires Timing(c, start, steps, s) && Enabled(s, step)
    ensures Timing(c, start, steps + [step], Next(c, s, step))
  {
    hide WindowOver, Handled, Arrived, Clock, QuietSince;
    var s', steps' := Next(c, s, step), steps + [step];
    StepsNext(c, start, steps, step);
    if step.Expire? {
      WindowOverIff(c, start, steps);
      assert steps'[..|steps|] == steps;
      assert ExpiresAt(c, start, steps', |steps|);
    } else if s'.phase == Draining(Deadline) || s'.phase == Returned(Deadline) {
      var e: nat :| ExpiresAt(c, start, steps, e);
      assert steps'[..e] == steps[..e];
      assert ExpiresAt(c, start, steps', e);
    }
  }

  function Payloads(history: seq<(string, bool)>): (p: seq<string>)
    ensures |p| == |history| && forall k :: 0 <= k < |p| ==> p[k] == history[k].0
  {
    seq(|history|, k requires 0 <= k < |history| => history[k].0)
  }

  /** The collection returns at step `e` with everything accepted by then. */
  ghost predicate ReturnsAt(c: Config, steps: seq<Step>, e: nat, collected: seq<string>, history: seq<(string, bool)>) {
    && e < |steps| && (steps[e].SeeClosed? || steps[e].DrainEnds?)
    && |Arrived(c, steps[..e])| <= |history|
    && collected == Accepted(history[..|Arrived(c, steps[..e])|])
  }

  /** A notification the program dies of is not handled. */
  function Unhandled(s: State): nat {
    if s.panicked then 1 else 0
  }

  ghost predicate Contents(c: Config, steps: seq<Step>, s: State) {
    && Payloads(s.history) <= Arrived(c, steps) && |Arrived(c, steps)| == |s.history| + Unhandled(s)
    && (s.phase.Returned? ==> exists e: nat :: ReturnsAt(c, steps, e, s.collected, s.history))
  }

  lemma ReturnsAtNext(c: Config, steps: seq<Step>, step: Step, e: nat, s: State, s': State)
    requires ReturnsAt(c, steps, e, s.collected, s.history) && s'.collected == s.collected && s.history <= s'.history
    ensures ReturnsAt(c, steps + [step], e, s'.collected, s'.history)
  {
    assert (steps + [step])[..e] == steps[..e];
    var n := |Arrived(c, steps[..e])|;
    assert s'.history[..n] == s.history[..n];
  }

  lemma ReturnNow(c: Config, steps: seq<Step>, s: State, step: Step)
    requires Inv(c, s) && Contents(c, steps, s) && Enabled(s, step) && (step.SeeClosed? || step.DrainEnds?)
    ensures ReturnsAt(c, steps + [step], |steps|, s.collected, s.history)
  {
    assert (steps + [step])[..|steps|] == steps;
    assert s.history[..|s.history|] == s.history && s.collected + [] == s.collected;
  }

  lemma HistoryNext(c: Config, s: State, step: Step)
    requires Enabled(s, step)
    ensures var s' := Next(c, s, step);
            && s.history <= s'.history
            && Payloads(s'.history)
               == Payloads(s.history) + (if OfChannel(c, step) && !s'.panicked then [step.n.payload] else [])
            && (s'.panicked ==> OfChannel(c, step))
            && (s.phase.Returned? ==> s'.phase == s.phase && s'.collected == s.collected)
            && (!s.phase.Returned? && s'.phase.Returned? ==>
                  (step.SeeClosed? || step.DrainEnds?) && s'.collected == s.collected && s'.history == s.history)
            && !s.panicked
  {
    hide Handled;
    match step {
      case Notify(n) =>
      case Unlisten(n) =>
      case Receive =>
      case DrainOne =>
      case _ =>
    }
  }

  lemma ContentsNext(c: Config, start: nat, steps: seq<Step>, s: State, step: Step)
    requires Inv(c, s) && Contents(c, steps, s) && Enabled(s, step)
    ensures Contents(c, steps + [step], Next(c, s, step))
  {
    StepsNext(c, start, steps, step);
    HistoryNext(c, s, step);
    hide Inv, Next, Enabled, Accepted, Arrived, Payloads, ReturnsAt, OfChannel, QuietSince, Clock;
    var s', steps' := Next(c, s, step), steps + [step];
    if s.phase.Returned? {
      var e: nat :| ReturnsAt(c, steps, e, s.collected, s.history);
      ReturnsAtNext(c, steps, step, e, s, s');
    } else if s'.phase.Returned? {
      ReturnNow(c, steps, s, step);
    }
  }

  ghost predicate Story(c: Config, start: nat, steps: seq<Step>, s: State) {
    Inv(c, s) && Timing(c, start, steps, s) && Contents(c, steps, s)
  }

  lemma {:induction false} RunStory(c: Config, start: nat, done: seq<Step>, s: State, steps: seq<Step>)
    requires Story(c, start, done, s) && Runs(c, s, steps)
    ensures Story(c, start, done + steps, After(c, s, steps))
    decreases |steps|
  {
    hide Inv, Timing, Contents, Enabled, Next;
    if steps == [] {
      assert done + steps == done;
    } else {
      StepKeeps(c, s, steps[0]);
      TimingNext(c, start, done, s, steps[0]);
      ContentsNext(c, start, done, s, steps[0]);
      RunStory(c, start, done + [steps[0]], Next(c, s, steps[0]), steps[1..]);
      assert done + [steps[0]] + steps[1..] == done + steps;
    }
  }

  lemma RunHasStory(c: Config, start: nat, steps: seq<Step>)
    requires Runs(c, Init(c, start), steps)
    ensures Story(c, start, steps, After(c, Init(c, start), steps))
  {
    assert [] + steps == steps;
    RunStory(c, start, [], Init(c, start), steps);
  }

  /** In every reachable state each notification of the channel is collected, buffered or counted as dropped - but
      the one the program dies of - and those not dropped are collected and buffered in the order they arrived. */
  lemma SignalsConserved(c: Config, start: nat, steps: seq<Step>)
    requires Runs(c, Init(c, start), steps)
    ensures var s := After(c, Init(c, start), steps);
            && |Arrived(c, steps)| == |s.collected| + |s.queue.buffer| + s.queue.dropped + Unhandled(s)
            && Payloads(s.history) <= Arrived(c, steps) && |Arrived(c, steps)| == |s.history| + Unhandled(s)
            && Accepted(s.history) == s.collected + s.queue.buffer
            && |s.queue.buffer| <= 1000
  {
    RunHasStory(c, start, steps);
  }

  /** As many were accepted as there are entries exactly if every entry was accepted. */
  lemma {:induction false} AllAccepted(history: seq<(string, bool)>)
    ensures |Accepted(history)| <= |history|
    ensures |Accepted(history)| == |history| <==> forall k :: 0 <= k < |history| ==> history[k].1
    ensures |Accepted(history)| == |history| ==> Accepted(history) == Payloads(history)
    decreases |history|
  {
    if history != [] {
      var init := history[..|history| - 1];
      AllAccepted(init);
      assert forall k :: 0 <= k < |init| ==> init[k] == history[k];
    }
  }

  /** Everything that has arrived by step `e`, at which the collection returns. */
  ghost predicate ReturnsAll(c: Config, steps: seq<Step>, e: nat, collected: seq<string>) {
    e < |steps| && (steps[e].SeeClosed? || steps[e].DrainEnds?) && collected == Arrived(c, steps[..e])
  }

  /** Whatever the reason, a collection that returns has everything that was accepted by then; and if the drop
      counter is zero, that is every notification of the channel that has arrived by then, in order. */
  lemma NothingLost(c: Config, start: nat, steps: seq<Step>)
    requires Runs(c, Init(c, start), steps) && After(c, Init(c, start), steps).phase.Returned?
    ensures var s := After(c, Init(c, start), steps);
            && (exists e: nat :: ReturnsAt(c, steps, e, s.collected, s.history))
            && (s.queue.dropped == 0 ==> exists e: nat :: ReturnsAll(c, steps, e, s.collected))
  {
    RunHasStory(c, start, steps);
    var s := After(c, Init(c, start), steps);
    var e: nat :| ReturnsAt(c, steps, e, s.collected, s.history);
    if s.queue.dropped == 0 {
      AllReturned(c, steps, e, s);
    }
  }

  lemma {:induction false} ArrivedPrefix(c: Config, steps: seq<Step>, e: nat)
    requires e <= |steps|
    ensures Arrived(c, steps[..e]) <= Arrived(c, steps)
    decreases |steps|
  {
    if e == |steps| {
      assert steps[..e] == steps;
    } else {
      var init := steps[..|steps| - 1];
      ArrivedPrefix(c, init, e);
      assert init[..e] == steps[..e];
    }
  }

  lemma AllReturned(c: Config, steps: seq<Step>, e: nat, s: State)
    requires Inv(c, s) && Contents(c, steps, s) && ReturnsAt(c, steps, e, s.collected, s.history)
    requires s.queue.dropped == 0
    ensures ReturnsAll(c, steps, e, s.collected)
  {
    var n := |Arrived(c, steps[..e])|;
    ArrivedPrefix(c, steps, e);
    AllAccepted(s.history);
    AllAccepted(s.history[..n]);
    assert s.collected == Payloads(s.history[..n]);
    assert Payloads(s.history[..n]) == Payloads(s.history)[..n] == Arrived(c, steps[..e]);
  }

  /** The timeout is an idle window: a return by deadline goes back to an `Expire` when `timeout` has gone by since
      the start and since every signal received while selecting. It may expire then, and not before. */
  lemma IdleWindow(c: Config, start: nat, steps: seq<Step>)
    requires Runs(c, Init(c, start), steps)
    ensures var s := After(c, Init(c, start), steps);
            && (s.phase == Returned(Deadline) ==> exists e: nat :: ExpiresAt(c, start, steps, e))
            && (Enabled(s, Expire) <==> s.phase.Selecting? && !s.panicked && WindowOver(c, start, steps))
  {
    RunHasStory(c, start, steps);
    WindowOverIff(c, start, steps);
  }

  /** The other reasons: a cancellation, or that the signal channel was closed. A closed error channel is noticed
      once at most, so that it does not keep the collection busy. */
  lemma ReasonsToReturn(c: Config, start: nat, steps: seq<Step>)
    requires Runs(c, Init(c, start), steps)
    ensures var s := After(c, Init(c, start), steps);
            && (s.phase == Returned(Cancelled) ==> Cancel in steps)
            && (s.phase == Returned(Closed) ==> CloseSignals in steps)
            && (Enabled(s, TakeClosedErrors) ==> TakeClosedErrors !in steps)
  {
    RunHasStory(c, start, steps);
  }

  // ----- the collection ends when the stream does -----

  predicate OfCollector(step: Step) {
    step.Receive? || step.SeeClosed? || step.TakeError? || step.TakeClosedErrors? || step.Expire?
    || step.SeeCancelled? || step.DrainOne? || step.DrainEnds?
  }

  /** Steps `CollectSignals` can still take if nothing more arrives. */
  function Work(s: State): nat {
    |s.queue.buffer| + s.errors + (if s.errorsDisabled then 0 else 1)
    + (match s.phase case Selecting => 2 case Draining(_) => 1 case Returned(_) => 0)
  }

  lemma CollectorWorks(c: Config, s: State, step: Step)
    requires Enabled(s, step) && OfCollector(step)
    ensures Work(Next(c, s, step)) < Work(s)
  {
  }

  /** Once the window is over, the listener has closed or the context is cancelled, the collector is never
      blocked: with the decrease above it returns after finitely many of its steps. */
  lemma CollectorCanStep(s: State)
    requires !s.phase.Returned? && !s.panicked
    requires s.deadline <= s.now || s.cancelled || s.signalsClosed || s.phase.Draining?
    ensures exists step: Step :: OfCollector(step) && Enabled(s, step)
  {
    if s.phase.Draining? {
      assert Enabled(s, if s.queue.buffer == [] then DrainEnds else DrainOne);
    } else if s.deadline <= s.now {
      assert Enabled(s, Expire);
    } else if s.cancelled {
      assert Enabled(s, SeeCancelled);
    } else {
      assert Enabled(s, if s.queue.buffer == [] then SeeClosed else Receive);
    }
  }
}
