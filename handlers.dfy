/**
 * The command handlers of main.go: handleTapCommand, handleSwipeCommand,
 * handleKeyCommand and handleTextCommand. Each parses its body, then drives
 * the device `amount` times with an optional pause after each repetition,
 * and answers with an "OK|..." or "ERROR|..." line.
 *
 * The input command (app_process running the Android `input` tool) is an
 * executor whose i-th run of a handler returns `answer(i)`; the touch device
 * is only observed. What the handlers do to the outside world is recorded as
 * a trace of events, and each handler method is proved equal to a function
 * that describes its reply and its trace without a loop.
 */
module Handlers {
  import opened Wrappers
  import opened Strings
  import opened Strconv
  import opened Commands

  /** What one run of the input command gives back: its combined output, and an error when it failed. */
  datatype ExecResult = ExecResult(output: string, err: Option<string>)

  /** The result of every run of the input command a handler makes, by the run's position. */
  type Executor = nat -> ExecResult

  /** One run of the input command: its time limit and the parameters after the tool's class name. */
  datatype Invocation = Invocation(timeoutMs: nat, params: seq<string>)

  /** What a handler does to the device, in order. */
  datatype Event =
    | OpenDevice(path: string)
    | Touch(x: int, y: int)
    | CloseDevice
    | Run(call: Invocation)
    | Sleep(ms: int)

  const DevicePath: string := "/dev/input/event5"

  /** The per-run time limits, in milliseconds. */
  const InputTimeoutMs: nat := 3000
  const TextTimeoutMs: nat := 5000

  /** The answer to a failed run: the error's text and the command's output. */
  function FailureReply(e: ExecResult): (r: string)
    requires e.err.Some?
    ensures |r| >= 6 && r[..6] == "ERROR|"
  {
    "ERROR|executing command failed: " + e.err.value + " output:" + e.output
  }

  /** The answer to a command that did not parse. */
  function ParseErrorReply(e: Error): (r: string)
    ensures |r| >= 6 && r[..6] == "ERROR|"
  {
    "ERROR|" + e.Message()
  }

  /** The pause after a repetition: none when the delay is 0. */
  function Pause(delay: int): seq<Event>
  {
    if delay > 0 then [Sleep(delay)] else []
  }

  /** unit, n times over. */
  function Repeat<T>(unit: seq<T>, n: nat): seq<T>
  {
    if n == 0 then [] else Repeat(unit, n - 1) + unit
  }

  /** The index of the first failed run among the first n, or n when they all succeed. */
  function FirstFailure(answer: Executor, n: nat): (k: nat)
    ensures k <= n
    ensures forall i | 0 <= i < k :: answer(i).err.None?
    ensures k < n ==> answer(k).err.Some?
  {
    if n == 0 then 0
    else
      var k := FirstFailure(answer, n - 1);
      if k < n - 1 then k
      else if answer(n - 1).err.Some? then n - 1
      else n
  }

  /** A handler's answer together with what it did. */
  datatype Outcome = Outcome(reply: string, events: seq<Event>)

  /**
   * The repetition loop of the swipe and key handlers: run `call` up to
   * `amount` times, pausing after each successful run; the first failed run
   * ends the loop and its error is the answer.
   */
  function Repeated(call: Invocation, amount: nat, delay: int, answer: Executor, ok: string): Outcome {
    var k := FirstFailure(answer, amount);
    if k < amount then Outcome(FailureReply(answer(k)), Attempts(call, delay, k, amount))
    else Outcome(ok, Attempts(call, delay, k, amount))
  }

  /**
   * What the repetition loop does when run k is the first to fail (k <
   * amount) or when none does (k == amount).
   */
  function Attempts(call: Invocation, delay: int, k: nat, amount: nat): seq<Event> {
    var unit := [Run(call)] + Pause(delay);
    if k < amount then Repeat(unit, k) + [Run(call)] else Repeat(unit, amount)
  }

  /** The runs of the input command a trace holds, in order. */
  function Runs(events: seq<Event>): seq<Invocation>
  {
    if events == [] then []
    else Runs(events[..|events| - 1]) + (if events[|events| - 1].Run? then [events[|events| - 1].call] else [])
  }

  /** The touches a trace holds, in order, as their coordinates. */
  function Touches(events: seq<Event>): seq<(int, int)>
  {
    if events == [] then []
    else
      var e := events[|events| - 1];
      Touches(events[..|events| - 1]) + (if e.Touch? then [(e.x, e.y)] else [])
  }

  /** The pauses a trace holds, in order, as their lengths. */
  function Sleeps(events: seq<Event>): seq<int>
  {
    if events == [] then []
    else
      var e := events[|events| - 1];
      Sleeps(events[..|events| - 1]) + (if e.Sleep? then [e.ms] else [])
  }

  // ---------------------------------------------------------------------
  // The four handlers, as functions of the command and the executor

  function SwipeCall(s: Swipe): Invocation {
    Invocation(InputTimeoutMs, ["swipe", Itoa(s.x1), Itoa(s.y1), Itoa(s.x2), Itoa(s.y2), Itoa(s.duration)])
  }

  function KeyCall(k: Key): Invocation {
    Invocation(InputTimeoutMs, ["keyevent", k.keycode])
  }

  function TextCall(cmd: string): Invocation {
    Invocation(TextTimeoutMs, ["text", cmd])
  }

  /** The touch of one repetition of a tap: x*60 and y*33 in the device's 64-bit int. */
  function TapTouch(t: Tap): Event {
    Touch(Wrap64(t.x * 60), Wrap64(t.y * 33))
  }

  function TapReply(t: Tap): string { "OK|tapped " + FormatTap(t) }

  function SwipeReply(s: Swipe): string { "OK|swiped " + FormatSwipe(s) }

  function KeyReply(k: Key): string {
    "OK|key " + k.keycode + " x" + Itoa(k.amount) + " delay=" + Itoa(k.delay)
  }

  function TextReply(cmd: string): string { "OK|text sent len=" + Itoa(Utf8Len(cmd)) }

  /** handleTapCommand: touches are sent and their errors ignored, so a tap that parses always succeeds. */
  function TapOutcome(cmd: string): Outcome {
    Tapped(ParseTap(cmd))
  }

  /** handleTapCommand from the parser's results on. */
  function Tapped(p: Result<Tap>): Outcome
    requires p.err.None? ==> p.values.amount >= 1
  {
    if p.err.Some? then Outcome(ParseErrorReply(p.err.value), [])
    else
      var t := p.values;
      Outcome(TapReply(t), [OpenDevice(DevicePath)] + Repeat([TapTouch(t)] + Pause(t.delay), t.amount) + [CloseDevice])
  }

  /** handleSwipeCommand. */
  function SwipeOutcome(cmd: string, answer: Executor): Outcome {
    Swiped(ParseSwipe(cmd), answer)
  }

  /** handleSwipeCommand from the parser's results on. */
  function Swiped(p: Result<Swipe>, answer: Executor): Outcome
    requires p.err.None? ==> p.values.amount >= 1
  {
    if p.err.Some? then Outcome(ParseErrorReply(p.err.value), [])
    else Repeated(SwipeCall(p.values), p.values.amount, p.values.delay, answer, SwipeReply(p.values))
  }

  /** handleKeyCommand. */
  function KeyOutcome(cmd: string, answer: Executor): Outcome {
    Keyed(ParseKey(cmd), answer)
  }

  /** handleKeyCommand from the parser's results on. */
  function Keyed(p: Result<Key>, answer: Executor): Outcome
    requires p.err.None? ==> p.values.amount >= 1
  {
    if p.err.Some? then Outcome(ParseErrorReply(p.err.value), [])
    else Repeated(KeyCall(p.values), p.values.amount, p.values.delay, answer, KeyReply(p.values))
  }

  /** handleTextCommand: one run for the whole body; its length is counted in bytes. */
  function TextOutcome(cmd: string, answer: Executor): Outcome {
    if cmd == "" then Outcome("ERROR|empty text", [])
    else if answer(0).err.Some? then Outcome(FailureReply(answer(0)), [Run(TextCall(cmd))])
    else Outcome(TextReply(cmd), [Run(TextCall(cmd))])
  }

  // ---------------------------------------------------------------------
  // The handlers as loops

  /** The `for i := 0; i < amount; i++` loop shared by the swipe and key handlers. */
  method RunRepeated(call: Invocation, amount: nat, delay: int, answer: Executor, ok: string)
    returns (reply: string, events: seq<Event>)
    ensures Outcome(reply, events) == Repeated(call, amount, delay, answer, ok)
  {
    var unit := [Run(call)] + Pause(delay);
    events := [];
    var i := 0;
    while i < amount
      invariant 0 <= i <= amount
      invariant events == Repeat(unit, i)
      invariant forall j | 0 <= j < i :: answer(j).err.None?
    {
      var res := answer(i);
      events := events + [Run(call)];
      if res.err.Some? {
        assert FirstFailure(answer, amount) == i;
        return FailureReply(res), events;
      }
      if delay > 0 {
        events := events + [Sleep(delay)];
      }
      i := i + 1;
    }
    assert FirstFailure(answer, amount) == amount;
    reply := ok;
  }

  /** The `for i := 0; i < amount; i++` loop of the tap handler; a failed touch is only logged. */
  method TouchRepeated(touch: Event, amount: nat, delay: int) returns (events: seq<Event>)
    ensures events == Repeat([touch] + Pause(delay), amount)
  {
    events := [];
    var i := 0;
    while i < amount
      invariant 0 <= i <= amount
      invariant events == Repeat([touch] + Pause(delay), i)
    {
      events := events + [touch];
      if delay > 0 {
        events := events + [Sleep(delay)];
      }
      i := i + 1;
    }
  }

  method HandleTap(cmd: string) returns (reply: string, events: seq<Event>)
    ensures Outcome(reply, events) == TapOutcome(cmd)
  {
    var p := ParseTap(cmd);
    if p.err.Some? {
      return ParseErrorReply(p.err.value), [];
    }
    var t := p.values;
    var touches := TouchRepeated(TapTouch(t), t.amount, t.delay);
    events := [OpenDevice(DevicePath)] + touches + [CloseDevice];
    reply := TapReply(t);
  }

  method HandleSwipe(cmd: string, answer: Executor) returns (reply: string, events: seq<Event>)
    ensures Outcome(reply, events) == SwipeOutcome(cmd, answer)
  {
    var p := ParseSwipe(cmd);
    if p.err.Some? {
      return ParseErrorReply(p.err.value), [];
    }
    var s := p.values;
    reply, events := RunRepeated(SwipeCall(s), s.amount, s.delay, answer, SwipeReply(s));
  }

  method HandleKey(cmd: string, answer: Executor) returns (reply: string, events: seq<Event>)
    ensures Outcome(reply, events) == KeyOutcome(cmd, answer)
  {
    var p := ParseKey(cmd);
    if p.err.Some? {
      return ParseErrorReply(p.err.value), [];
    }
    var k := p.values;
    reply, events := RunRepeated(KeyCall(k), k.amount, k.delay, answer, KeyReply(k));
  }

  method HandleText(cmd: string, answer: Executor) returns (reply: string, events: seq<Event>)
    ensures Outcome(reply, events) == TextOutcome(cmd, answer)
  {
    if cmd == "" {
      return "ERROR|empty text", [];
    }
    var res := answer(0);
    events := [Run(TextCall(cmd))];
    if res.err.Some? {
      return FailureReply(res), events;
    }
    reply := TextReply(cmd);
  }

  // ---------------------------------------------------------------------
  // Lemmas: what a trace holds

  lemma {:induction false} RunsAppend(a: seq<Event>, b: seq<Event>)
    ensures Runs(a + b) == Runs(a) + Runs(b)
    decreases |b|
  {
    if b == [] {
      assert a + b == a;
    } else {
      assert (a + b)[..|a + b| - 1] == a + b[..|b| - 1];
      RunsAppend(a, b[..|b| - 1]);
    }
  }

  lemma {:induction false} TouchesAppend(a: seq<Event>, b: seq<Event>)
    ensures Touches(a + b) == Touches(a) + Touches(b)
    decreases |b|
  {
    if b == [] {
      assert a + b == a;
    } else {
      assert (a + b)[..|a + b| - 1] == a + b[..|b| - 1];
      TouchesAppend(a, b[..|b| - 1]);
    }
  }

  lemma {:induction false} SleepsAppend(a: seq<Event>, b: seq<Event>)
    ensures Sleeps(a + b) == Sleeps(a) + Sleeps(b)
    decreases |b|
  {
    if b == [] {
      assert a + b == a;
    } else {
      assert (a + b)[..|a + b| - 1] == a + b[..|b| - 1];
      SleepsAppend(a, b[..|b| - 1]);
    }
  }

  /** What a repeated piece of trace holds is what the piece holds, repeated. */
  lemma {:induction false} RunsRepeat(unit: seq<Event>, n: nat)
    ensures Runs(Repeat(unit, n)) == Repeat(Runs(unit), n)
  {
    if n > 0 {
      RunsRepeat(unit, n - 1);
      RunsAppend(Repeat(unit, n - 1), unit);
    }
  }

  lemma {:induction false} TouchesRepeat(unit: seq<Event>, n: nat)
    ensures Touches(Repeat(unit, n)) == Repeat(Touches(unit), n)
  {
    if n > 0 {
      TouchesRepeat(unit, n - 1);
      TouchesAppend(Repeat(unit, n - 1), unit);
    }
  }

  lemma {:induction false} SleepsRepeat(unit: seq<Event>, n: nat)
    ensures Sleeps(Repeat(unit, n)) == Repeat(Sleeps(unit), n)
  {
    if n > 0 {
      SleepsRepeat(unit, n - 1);
      SleepsAppend(Repeat(unit, n - 1), unit);
    }
  }

  /** Nothing, repeated, is nothing. */
  lemma {:induction false} RepeatEmpty<T>(n: nat)
    ensures Repeat<T>([], n) == []
  {
    if n > 0 {
      RepeatEmpty<T>(n - 1);
    }
  }

  /** One event other than a pause, followed by its pause. */
  lemma ProjectUnit(e: Event, d: int)
    requires !e.Sleep?
    ensures Runs([e] + Pause(d)) == (if e.Run? then [e.call] else [])
    ensures Touches([e] + Pause(d)) == (if e.Touch? then [(e.x, e.y)] else [])
    ensures Sleeps([e] + Pause(d)) == (if d > 0 then [d] else [])
  {
    RunsAppend([e], Pause(d));
    TouchesAppend([e], Pause(d));
    SleepsAppend([e], Pause(d));
    assert [e][..0] == [];
    if d > 0 {
      assert [Sleep(d)][..0] == [];
    }
  }

  // ---------------------------------------------------------------------
  // Lemmas: the repetition loop

  /**
   * The repetition loop runs the same invocation every time: one time more
   * than it has successful runs when a run fails, and `amount` times when
   * none does.
   */
  lemma RepeatedRuns(call: Invocation, amount: nat, delay: int, answer: Executor, ok: string)
    ensures var k := FirstFailure(answer, amount);
      Runs(Repeated(call, amount, delay, answer, ok).events) == Repeat([call], if k < amount then k + 1 else amount)
  {
    AttemptsRuns(call, delay, FirstFailure(answer, amount), amount);
  }

  lemma AttemptsRuns(call: Invocation, delay: int, k: nat, amount: nat)
    requires k <= amount
    ensures Runs(Attempts(call, delay, k, amount)) == Repeat([call], if k < amount then k + 1 else amount)
  {
    var unit := [Run(call)] + Pause(delay);
    RunsRepeat(unit, k);
    ProjectUnit(Run(call), delay);
    if k < amount {
      RunsUntilFailure(Repeat(unit, k), call, k);
    }
  }

  /** k repetitions followed by one more run of the same call run it k + 1 times. */
  lemma RunsUntilFailure(prefix: seq<Event>, call: Invocation, k: nat)
    requires Runs(prefix) == Repeat([call], k)
    ensures Runs(prefix + [Run(call)]) == Repeat([call], k + 1)
  {
    RunsAppend(prefix, [Run(call)]);
    assert [Run(call)][..0] == [];
  }

  /** The loop pauses after every successful run, and only then. */
  lemma RepeatedSleeps(call: Invocation, amount: nat, delay: int, answer: Executor, ok: string)
    ensures Sleeps(Repeated(call, amount, delay, answer, ok).events)
         == Repeat(if delay > 0 then [delay] else [], FirstFailure(answer, amount))
  {
    AttemptsSleeps(call, delay, FirstFailure(answer, amount), amount);
  }

  lemma AttemptsSleeps(call: Invocation, delay: int, k: nat, amount: nat)
    requires k <= amount
    ensures Sleeps(Attempts(call, delay, k, amount)) == Repeat(if delay > 0 then [delay] else [], k)
  {
    var unit := [Run(call)] + Pause(delay);
    SleepsRepeat(unit, k);
    ProjectUnit(Run(call), delay);
    if k < amount {
      SleepsUntilFailure(Repeat(unit, k), call);
    }
  }

  /** The failing run at the end adds no pause. */
  lemma SleepsUntilFailure(prefix: seq<Event>, call: Invocation)
    ensures Sleeps(prefix + [Run(call)]) == Sleeps(prefix)
  {
    SleepsAppend(prefix, [Run(call)]);
    assert [Run(call)][..0] == [];
  }

  /** The loop answers with the first failure's error or, when every run succeeds, with `ok`. */
  lemma RepeatedReply(call: Invocation, amount: nat, delay: int, answer: Executor, ok: string)
    ensures (forall i | 0 <= i < amount :: answer(i).err.None?) ==> Repeated(call, amount, delay, answer, ok).reply == ok
    ensures FirstFailure(answer, amount) < amount
        ==> Repeated(call, amount, delay, answer, ok).reply == FailureReply(answer(FirstFailure(answer, amount)))
  {
  }

  /** The loop never runs the command more often than `amount`, and stops at the first failure. */
  lemma RepeatedBounded(call: Invocation, amount: nat, delay: int, answer: Executor, ok: string)
    ensures |Runs(Repeated(call, amount, delay, answer, ok).events)| <= amount
    ensures forall i | 0 <= i < |Runs(Repeated(call, amount, delay, answer, ok).events)| - 1 :: answer(i).err.None?
  {
    RepeatedRuns(call, amount, delay, answer, ok);
    RepeatLength([call], if FirstFailure(answer, amount) < amount then FirstFailure(answer, amount) + 1 else amount);
  }

  lemma {:induction false} RepeatLength<T>(unit: seq<T>, n: nat)
    requires |unit| == 1
    ensures |Repeat(unit, n)| == n
  {
    if n > 0 {
      RepeatLength(unit, n - 1);
    }
  }

  // ---------------------------------------------------------------------
  // Lemmas: the four handlers

  /**
   * handleTapCommand: a tap that does not parse answers with its error and
   * touches nothing; one that parses opens the device, touches the scaled
   * point exactly `amount` times, pauses after each touch when it has a delay,
   * closes the device and answers OK with the unscaled values. It never runs
   * the input command.
   */
  lemma TapSpec(p: Result<Tap>)
    requires p.err.None? ==> p.values.amount >= 1
    ensures var o := Tapped(p);
      && (p.err.Some? ==> o == Outcome(ParseErrorReply(p.err.value), []))
      && (p.err.None? ==>
            && o.reply == "OK|tapped " + FormatTap(p.values)
            && o.events[0] == OpenDevice(DevicePath) && o.events[|o.events| - 1] == CloseDevice
            && Touches(o.events) == Repeat([(Wrap64(p.values.x * 60), Wrap64(p.values.y * 33))], p.values.amount)
            && Sleeps(o.events) == Repeat(if p.values.delay > 0 then [p.values.delay] else [], p.values.amount))
      && Runs(o.events) == []
  {
    if p.err.None? {
      var t := p.values;
      var middle := Repeat([TapTouch(t)] + Pause(t.delay), t.amount);
      RunsRepeat([TapTouch(t)] + Pause(t.delay), t.amount);
      TouchesRepeat([TapTouch(t)] + Pause(t.delay), t.amount);
      SleepsRepeat([TapTouch(t)] + Pause(t.delay), t.amount);
      ProjectUnit(TapTouch(t), t.delay);
      RepeatEmpty<Invocation>(t.amount);
      Framed(middle);
    }
  }

  /** Opening and closing the device runs nothing, touches nothing and sleeps for nothing. */
  lemma Framed(middle: seq<Event>)
    ensures var evs := [OpenDevice(DevicePath)] + middle + [CloseDevice];
      && Runs(evs) == Runs(middle) && Touches(evs) == Touches(middle) && Sleeps(evs) == Sleeps(middle)
  {
    var ends := [OpenDevice(DevicePath)] + middle;
    RunsAppend([OpenDevice(DevicePath)], middle);
    TouchesAppend([OpenDevice(DevicePath)], middle);
    SleepsAppend([OpenDevice(DevicePath)], middle);
    RunsAppend(ends, [CloseDevice]);
    TouchesAppend(ends, [CloseDevice]);
    SleepsAppend(ends, [CloseDevice]);
    assert [OpenDevice(DevicePath)][..0] == [];
    assert [CloseDevice][..0] == [];
  }

  /** Where x*60 and y*33 fit in 64 bits, the device is touched at exactly those points. */
  lemma TapTouchExact(t: Tap)
    requires IsInt64(t.x * 60) && IsInt64(t.y * 33)
    ensures TapTouch(t) == Touch(t.x * 60, t.y * 33)
  {
  }

  /** The answer to a tap spells out the tap in a form that parses back to the same tap. */
  lemma TapEcho(cmd: string)
    requires ParseTap(cmd).err.None?
    ensures TapOutcome(cmd).reply == "OK|tapped " + FormatTap(ParseTap(cmd).values)
    ensures ParseTap(FormatTap(ParseTap(cmd).values)) == ParseTap(cmd)
  {
    FieldsTrimSpace(cmd);
    TapRoundTrip(ParseTap(cmd).values);
  }

  /**
   * handleSwipeCommand: a swipe that does not parse runs nothing; one that
   * parses runs `input swipe x1 y1 x2 y2 duration` with a 3 s limit, the same
   * every time, at most `amount` times, and answers OK with all seven values
   * only when every run succeeds.
   */
  lemma SwipeSpec(p: Result<Swipe>, answer: Executor)
    requires p.err.None? ==> p.values.amount >= 1
    ensures var o := Swiped(p, answer);
      && (p.err.Some? ==> o == Outcome(ParseErrorReply(p.err.value), []))
      && (p.err.None? ==>
            var k := FirstFailure(answer, p.values.amount);
            && Runs(o.events) == Repeat([SwipeCall(p.values)], if k < p.values.amount then k + 1 else p.values.amount)
            && Sleeps(o.events) == Repeat(if p.values.delay > 0 then [p.values.delay] else [], k)
            && (k == p.values.amount ==> o.reply == "OK|swiped " + FormatSwipe(p.values))
            && (k < p.values.amount ==> o.reply == FailureReply(answer(k))))
  {
    if p.err.None? {
      RepeatedRuns(SwipeCall(p.values), p.values.amount, p.values.delay, answer, SwipeReply(p.values));
      RepeatedSleeps(SwipeCall(p.values), p.values.amount, p.values.delay, answer, SwipeReply(p.values));
      RepeatedReply(SwipeCall(p.values), p.values.amount, p.values.delay, answer, SwipeReply(p.values));
    }
  }

  /** The answer to a successful swipe spells out the swipe in a form that parses back to the same swipe. */
  lemma SwipeEcho(cmd: string, answer: Executor)
    requires ParseSwipe(cmd).err.None?
    requires forall i | 0 <= i < ParseSwipe(cmd).values.amount :: answer(i).err.None?
    ensures SwipeOutcome(cmd, answer).reply == "OK|swiped " + FormatSwipe(ParseSwipe(cmd).values)
    ensures ParseSwipe(FormatSwipe(ParseSwipe(cmd).values)) == ParseSwipe(cmd)
  {
    var p := ParseSwipe(cmd);
    SwipedAllSucceed(p, answer);
    SwipeRoundTrip(p.values);
  }

  /** A parsed swipe whose every run succeeds answers with its success text. */
  lemma SwipedAllSucceed(p: Result<Swipe>, answer: Executor)
    requires p.err.None? && p.values.amount >= 1
    requires forall i | 0 <= i < p.values.amount :: answer(i).err.None?
    ensures Swiped(p, answer).reply == "OK|swiped " + FormatSwipe(p.values)
  {
    RepeatedReply(SwipeCall(p.values), p.values.amount, p.values.delay, answer, SwipeReply(p.values));
  }

  /**
   * handleKeyCommand: a key that does not parse runs nothing; one that parses
   * runs `input keyevent <keycode>` with a 3 s limit, the same every time, at
   * most `amount` times, and answers OK only when every run succeeds.
   */
  lemma KeySpec(p: Result<Key>, answer: Executor)
    requires p.err.None? ==> p.values.amount >= 1
    ensures var o := Keyed(p, answer);
      && (p.err.Some? ==> o == Outcome(ParseErrorReply(p.err.value), []))
      && (p.err.None? ==>
            var k := FirstFailure(answer, p.values.amount);
            && Runs(o.events) == Repeat([KeyCall(p.values)], if k < p.values.amount then k + 1 else p.values.amount)
            && Sleeps(o.events) == Repeat(if p.values.delay > 0 then [p.values.delay] else [], k)
            && (k == p.values.amount ==>
                  o.reply == "OK|key " + p.values.keycode + " x" + Itoa(p.values.amount) + " delay=" + Itoa(p.values.delay))
            && (k < p.values.amount ==> o.reply == FailureReply(answer(k))))
  {
    if p.err.None? {
      RepeatedRuns(KeyCall(p.values), p.values.amount, p.values.delay, answer, KeyReply(p.values));
      RepeatedSleeps(KeyCall(p.values), p.values.amount, p.values.delay, answer, KeyReply(p.values));
      RepeatedReply(KeyCall(p.values), p.values.amount, p.values.delay, answer, KeyReply(p.values));
    }
  }

  /** A white-space-only key command runs nothing. */
  lemma BlankKeyRunsNothing(cmd: string, answer: Executor)
    requires AllSpace(cmd)
    ensures KeyOutcome(cmd, answer) == Outcome("ERROR|" + KeyUsage, [])
  {
    BlankKeyRejected(cmd);
  }

  /**
   * handleTextCommand: an empty body runs nothing; any other body is typed
   * by exactly one run with a 5 s limit, and the success answer reports the
   * body's length in bytes.
   */
  lemma TextSpec(cmd: string, answer: Executor)
    ensures var o := TextOutcome(cmd, answer);
      && (cmd == "" <==> Runs(o.events) == [])
      && (cmd == "" ==> o.reply == "ERROR|empty text")
      && (cmd != "" ==> Runs(o.events) == [TextCall(cmd)])
      && (cmd != "" && answer(0).err.None? ==> o.reply == "OK|text sent len=" + Itoa(Utf8Len(cmd)))
      && (cmd != "" && answer(0).err.Some? ==> o.reply == FailureReply(answer(0)))
  {
    if cmd != "" {
      ProjectUnit(Run(TextCall(cmd)), 0);
      assert [Run(TextCall(cmd))] + Pause(0) == [Run(TextCall(cmd))];
    }
  }

  /** An ASCII body's byte length is its number of characters. */
  lemma TextAsciiLength(cmd: string, answer: Executor)
    requires cmd != "" && IsAscii(cmd) && answer(0).err.None?
    ensures TextOutcome(cmd, answer).reply == "OK|text sent len=" + Itoa(|cmd|)
  {
    AsciiUtf8Len(cmd);
  }
}
