/**
 * The request side of main.go: the WORKERS and QUEUE_SIZE settings, the
 * worker that runs queued actions, and the request handler's admission
 * logic (body-size limit, a four-permit semaphore, a bounded action queue
 * and a deadline for the worker's reply).
 *
 * Goroutines are taken one step at a time: a worker step takes the action at
 * the front of the queue, runs its handler and offers the reply to the
 * action's reply slot. What the workers get done while a request waits for
 * its reply is an input: `finishedWithin(ms)` is the list of executors of the
 * worker steps that complete within `ms` milliseconds of the enqueue, one per
 * step, in queue order.
 */
module Dispatch {
  import opened Wrappers
  import opened Strings
  import opened Strconv
  import opened Handlers

  const DefaultWorkers: int := 4
  const DefaultQueueSize: int := 128

  /** The capacity of the semaphore that limits concurrent requests. */
  const Permits: nat := 4

  /** The largest POST body accepted, in bytes. */
  const MaxBody: nat := 1024

  const StatusOK: int := 200
  const StatusAccepted: int := 202
  const StatusNotFound: int := 404
  const StatusRequestEntityTooLarge: int := 413
  const StatusServiceUnavailable: int := 503

  /**
   * WORKERS and QUEUE_SIZE: an unset variable reads as "", and anything
   * that is not a positive integer leaves the default in place.
   */
  function EnvPositive(v: string, default: int): (n: int)
    ensures n == default || (Atoi(v).err.None? && n == Atoi(v).value && n > 0)
    ensures default > 0 ==> n > 0
  {
    if v != "" then
      var c := Atoi(v);
      if c.err.None? && c.value > 0 then c.value else default
    else default
  }

  // ---------------------------------------------------------------------
  // The worker

  /** The switch on Action.Type in worker(). */
  function Execute(kind: string, cmd: string, answer: Executor): Outcome {
    if kind == "tap" then TapOutcome(cmd)
    else if kind == "swipe" then SwipeOutcome(cmd, answer)
    else if kind == "key" then KeyOutcome(cmd, answer)
    else if kind == "text" then TextOutcome(cmd, answer)
    else Outcome("ERROR|unknown action", [])
  }

  method RunAction(kind: string, cmd: string, answer: Executor) returns (reply: string, events: seq<Event>)
    ensures Outcome(reply, events) == Execute(kind, cmd, answer)
  {
    if kind == "tap" {
      reply, events := HandleTap(cmd);
    } else if kind == "swipe" {
      reply, events := HandleSwipe(cmd, answer);
    } else if kind == "key" {
      reply, events := HandleKey(cmd, answer);
    } else if kind == "text" {
      reply, events := HandleText(cmd, answer);
    } else {
      reply, events := "ERROR|unknown action", [];
    }
  }

  /**
   * An enqueued action: the raw body, the route's kind, and the number of
   * its reply channel among those the dispatcher has made.
   */
  datatype Action = Action(cmd: string, kind: string, reply: nat)

  /**
   * What a worker does with an action's kind and body. The dispatcher is
   * built with Execute; its properties hold for any handler.
   */
  type Handler = (string, string, Executor) -> Outcome

  /** What the workers did to the device for the first |actions| actions, in order. */
  function Work(run: Handler, actions: seq<Action>, steps: seq<Executor>): seq<Event>
    requires |actions| <= |steps|
  {
    if actions == [] then []
    else
      var n := |actions| - 1;
      Work(run, actions[..n], steps) + run(actions[n].kind, actions[n].cmd, steps[n]).events
  }

  /**
   * The reply channels after the workers answered the first |actions|
   * actions: each channel gets its action's reply.
   */
  function Deliver(run: Handler, slots: seq<Option<string>>, actions: seq<Action>, steps: seq<Executor>): (r: seq<Option<string>>)
    requires |actions| <= |steps|
    ensures |r| == |slots|
  {
    if actions == [] then slots
    else
      var n := |actions| - 1;
      var before := Deliver(run, slots, actions[..n], steps);
      if actions[n].reply < |before| then
        before[actions[n].reply := Some(run(actions[n].kind, actions[n].cmd, steps[n]).reply)]
      else before
  }

  /** The channel numbers of the actions are increasing and name channels that exist. */
  predicate Numbered(actions: seq<Action>, channels: nat) {
    && (forall i | 0 <= i < |actions| :: actions[i].reply < channels)
    && (forall i, j | 0 <= i < j < |actions| :: actions[i].reply < actions[j].reply)
  }

  function Min(a: int, b: int): int {
    if a <= b then a else b
  }

  // ---------------------------------------------------------------------
  // Requests

  datatype Request = Request(verb: string, path: string, body: string)

  /** A response: a status and a body, or the /cap screenshot stream. */
  datatype Response = Response(status: int, body: string) | CaptureStream

  /** Where the handler's switch sends a request that was admitted. */
  datatype Route = Capture | Enqueue(kind: string) | NotFound

  function RouteOf(verb: string, path: string): (r: Route)
    ensures r.Enqueue? ==> r.kind in {"swipe", "tap", "key", "text"} && path == "/" + r.kind && verb == "POST"
    ensures r.Capture? <==> verb == "GET" && path == "/cap"
    ensures verb == "POST" && path == "/swipe" ==> r == Enqueue("swipe")
    ensures verb == "POST" && path == "/tap" ==> r == Enqueue("tap")
    ensures verb == "POST" && path == "/key" ==> r == Enqueue("key")
    ensures verb == "POST" && path == "/text" ==> r == Enqueue("text")
    ensures r.NotFound? <==>
      !(verb == "GET" && path == "/cap") && !(verb == "POST" && path in {"/swipe", "/tap", "/key", "/text"})
  {
    if verb == "GET" && path == "/cap" then Capture
    else if verb == "POST" && path == "/swipe" then Enqueue("swipe")
    else if verb == "POST" && path == "/tap" then Enqueue("tap")
    else if verb == "POST" && path == "/key" then Enqueue("key")
    else if verb == "POST" && path == "/text" then Enqueue("text")
    else NotFound
  }

  /** How long a request waits for its reply before answering 202. */
  function DeadlineMs(kind: string): nat {
    if kind == "swipe" then 200 else 150
  }

  /** The body must be rejected before anything else: a POST body larger than 1 KiB. */
  predicate TooLarge(req: Request) {
    req.verb == "POST" && Utf8Len(req.body) > MaxBody
  }

  /**
   * The permit pool, the action queue, the reply channels and the trace of
   * what the workers did. Reply channel number r holds `replies[r]`: each is
   * a buffer of capacity one, empty or holding one reply.
   */
  class Dispatcher {
    const workers: int
    const capacity: int
    const run: Handler
    var held: nat
    var queue: seq<Action>
    var replies: seq<Option<string>>
    var log: seq<Event>

    /**
     * At most four permits are held, the queue is within its capacity, and
     * every queued action has its own reply channel, still empty. Channels
     * are numbered in the order they are made, so the queue's are increasing.
     */
    ghost predicate Valid()
      reads this
    {
      && capacity > 0
      && held <= Permits
      && |queue| <= capacity
      && Numbered(queue, |replies|)
      && (forall i | 0 <= i < |queue| :: replies[queue[i].reply].None?)
    }

    /** The configuration read at start-up, with nothing held, queued or done. */
    constructor (workersEnv: string, queueSizeEnv: string)
      ensures workers == EnvPositive(workersEnv, DefaultWorkers)
      ensures capacity == EnvPositive(queueSizeEnv, DefaultQueueSize)
      ensures run == Execute
      ensures held == 0 && queue == [] && replies == [] && log == []
      ensures Valid()
    {
      workers := EnvPositive(workersEnv, DefaultWorkers);
      capacity := EnvPositive(queueSizeEnv, DefaultQueueSize);
      run := Execute;
      held := 0;
      queue := [];
      replies := [];
      log := [];
    }

    /** The non-blocking send on the semaphore: a permit is taken when one is free. */
    method TryAcquire() returns (ok: bool)
      requires Valid()
      modifies this`held
      ensures Valid()
      ensures ok == (old(held) < Permits)
      ensures held == if ok then old(held) + 1 else old(held)
    {
      if held < Permits {
        held := held + 1;
        ok := true;
      } else {
        ok := false;
      }
    }

    /** The deferred receive from the semaphore: the permit is given back. */
    method Release()
      requires Valid() && held > 0
      modifies this`held
      ensures Valid()
      ensures held == old(held) - 1
    {
      held := held - 1;
    }

    /** The non-blocking send on the action queue, with a new, empty reply channel. */
    method TryEnqueue(cmd: string, kind: string) returns (act: Option<Action>)
      requires Valid()
      modifies this`queue, this`replies
      ensures Valid()
      ensures act.Some? == (|old(queue)| < capacity)
      ensures act.Some? ==> act.value == Action(cmd, kind, |old(replies)|)
      ensures queue == if act.Some? then old(queue) + [act.value] else old(queue)
      ensures replies == if act.Some? then old(replies) + [None] else old(replies)
    {
      if |queue| < capacity {
        var a := Action(cmd, kind, |replies|);
        replies := replies + [None];
        queue := queue + [a];
        act := Some(a);
      } else {
        act := None;
      }
    }

    /** The non-blocking send on a reply channel: a full channel drops the result and keeps what it holds. */
    method TrySend(r: nat, res: string) returns (sent: bool)
      requires r < |replies|
      modifies this`replies
      ensures sent == old(replies)[r].None?
      ensures replies == if sent then old(replies)[r := Some(res)] else old(replies)
    {
      if replies[r].None? {
        replies := replies[r := Some(res)];
        sent := true;
      } else {
        sent := false;
      }
    }

    /**
     * One iteration of worker(): take the front action, run its handler and
     * offer the result to its reply channel, which takes it. With nothing
     * queued the worker waits and nothing changes.
     */
    method WorkerStep(answer: Executor)
      requires Valid()
      modifies this`queue, this`log, this`replies
      ensures Valid()
      ensures old(queue) == [] ==> queue == [] && log == old(log) && replies == old(replies)
      ensures old(queue) != [] ==>
        var a := old(queue)[0];
        && queue == old(queue)[1..]
        && log == old(log) + run(a.kind, a.cmd, answer).events
        && replies == old(replies)[a.reply := Some(run(a.kind, a.cmd, answer).reply)]
    {
      if queue == [] {
        return;
      }
      var a := queue[0];
      queue := queue[1..];
      var out := run(a.kind, a.cmd, answer);
      var sent := TrySend(a.reply, out.reply);
      assert sent;
      log := log + out.events;
    }

    /**
     * The worker steps given by `steps`, one after the other, as far as there
     * are actions queued for them.
     */
    method RunWorkers(steps: seq<Executor>)
      requires Valid()
      modifies this`queue, this`log, this`replies
      ensures Valid()
      ensures var n := Min(|steps|, |old(queue)|);
        && queue == old(queue)[n..]
        && log == old(log) + Work(run, old(queue)[..n], steps)
        && replies == Deliver(run, old(replies), old(queue)[..n], steps)
    {
      ghost var q0 := queue;
      ghost var log0 := log;
      ghost var r0 := replies;
      var n := Min(|steps|, |queue|);
      var i := 0;
      while i < n
        invariant 0 <= i <= n
        invariant Valid()
        invariant queue == q0[i..]
        invariant log == log0 + Work(run, q0[..i], steps)
        invariant replies == Deliver(run, r0, q0[..i], steps)
      {
        assert queue[0] == q0[i];
        assert q0[..i + 1][..i] == q0[..i];
        WorkerStep(steps[i]);
        i := i + 1;
      }
    }

    /**
     * The enqueue-and-wait part of the request handler: a full queue answers
     * 503; otherwise the workers get through what `finishedWithin` gives them
     * before the deadline, and the request answers with its reply if its own
     * action was among those, or with 202 if not.
     */
    method EnqueueAndWait(kind: string, body: string, finishedWithin: nat -> seq<Executor>) returns (resp: Response)
      requires Valid()
      modifies this`queue, this`log, this`replies
      ensures Valid()
      ensures |old(queue)| >= capacity ==> resp == Response(StatusServiceUnavailable, "ERROR|queue full")
      ensures |old(queue)| >= capacity ==> queue == old(queue) && log == old(log) && replies == old(replies)
      ensures |old(queue)| < capacity ==>
        var steps := finishedWithin(DeadlineMs(kind));
        var n := Min(|steps|, |old(queue)| + 1);
        var q := old(queue) + [Action(body, kind, |old(replies)|)];
        && queue == q[n..]
        && log == old(log) + Work(run, q[..n], steps)
        && replies == Deliver(run, old(replies) + [None], q[..n], steps)
        && resp == (if |steps| > |old(queue)| then Response(StatusOK, run(kind, body, steps[|old(queue)|]).reply)
                    else Response(StatusAccepted, "OK|" + kind + " enqueued"))
    {
      ghost var q0 := queue;
      ghost var r0 := replies;
      var act := TryEnqueue(body, kind);
      if act.None? {
        return Response(StatusServiceUnavailable, "ERROR|queue full");
      }
      var a := act.value;
      var steps := finishedWithin(DeadlineMs(kind));
      RunWorkers(steps);
      OwnReply(run, r0, q0, a, steps);
      match replies[a.reply] {
        case Some(res) => resp := Response(StatusOK, res);
        case None => resp := Response(StatusAccepted, "OK|" + kind + " enqueued");
      }
    }

    /**
     * The request handler: the size limit, then a permit, then the route.
     * A permit taken is given back on every path.
     */
    method Serve(req: Request, finishedWithin: nat -> seq<Executor>) returns (resp: Response)
      requires Valid()
      modifies this
      ensures Valid()
      ensures held == old(held)
      ensures TooLarge(req) ==> resp == Response(StatusRequestEntityTooLarge, "ERROR|request body too large")
      ensures !TooLarge(req) && old(held) >= Permits ==> resp == Response(StatusServiceUnavailable, "ERROR|server busy")
      ensures !TooLarge(req) && old(held) < Permits && RouteOf(req.verb, req.path).Capture? ==> resp == CaptureStream
      ensures !TooLarge(req) && old(held) < Permits && RouteOf(req.verb, req.path).NotFound? ==>
        resp == Response(StatusNotFound, "")
      ensures TooLarge(req) || old(held) >= Permits || !RouteOf(req.verb, req.path).Enqueue? ==>
        queue == old(queue) && log == old(log) && replies == old(replies)
      ensures !TooLarge(req) && old(held) < Permits && RouteOf(req.verb, req.path).Enqueue? ==>
        var kind := RouteOf(req.verb, req.path).kind;
        var steps := finishedWithin(DeadlineMs(kind));
        && (|old(queue)| >= capacity ==>
              && resp == Response(StatusServiceUnavailable, "ERROR|queue full")
              && queue == old(queue) && log == old(log) && replies == old(replies))
        && (|old(queue)| < capacity ==>
              var n := Min(|steps|, |old(queue)| + 1);
              var q := old(queue) + [Action(req.body, kind, |old(replies)|)];
              && queue == q[n..]
              && log == old(log) + Work(run, q[..n], steps)
              && replies == Deliver(run, old(replies) + [None], q[..n], steps)
              && resp == (if |steps| > |old(queue)| then Response(StatusOK, run(kind, req.body, steps[|old(queue)|]).reply)
                          else Response(StatusAccepted, "OK|" + kind + " enqueued")))
    {
      if TooLarge(req) {
        return Response(StatusRequestEntityTooLarge, "ERROR|request body too large");
      }
      var ok := TryAcquire();
      if !ok {
        return Response(StatusServiceUnavailable, "ERROR|server busy");
      }
      var route := RouteOf(req.verb, req.path);
      match route {
        case Capture =>
          resp := CaptureStream;
        case Enqueue(kind) =>
          resp := EnqueueAndWait(kind, req.body, finishedWithin);
        case NotFound =>
          resp := Response(StatusNotFound, "");
      }
      Release();
    }
  }

  // ---------------------------------------------------------------------
  // Lemmas

  /** The settings read as their reference: a decimal integer above zero overrides the default. */
  lemma EnvPositiveSpec(v: string, default: int)
    ensures EnvPositive(v, default) == if Accepts(v) && DecimalValue(v) > 0 then DecimalValue(v) else default
  {
    AtoiAccepts(v);
  }

  /** An unset, zero or negative setting keeps the default. */
  lemma EnvPositiveDefaults(default: int)
    ensures EnvPositive("", default) == default
    ensures EnvPositive("0", default) == default
    ensures EnvPositive("-8", default) == default
  {
    EnvPositiveSpec("0", default);
    EnvPositiveSpec("-8", default);
    assert DecimalValue("0") == 0 by {
      assert "0"[1..] == [];
    }
    assert DecimalValue("-8") < 0 by {
      assert "-8"[1..] == "8";
    }
  }

  /** Each answered action's channel holds the reply its worker step produced. */
  lemma {:induction false} DeliverAnswered(run: Handler, slots: seq<Option<string>>, actions: seq<Action>, steps: seq<Executor>, j: nat)
    requires |actions| <= |steps| && Numbered(actions, |slots|)
    requires j < |actions|
    ensures Deliver(run, slots, actions, steps)[actions[j].reply] == Some(run(actions[j].kind, actions[j].cmd, steps[j]).reply)
  {
    var n := |actions| - 1;
    if j < n {
      assert Numbered(actions[..n], |slots|);
      DeliverAnswered(run, slots, actions[..n], steps, j);
      assert actions[..n][j] == actions[j];
    }
  }

  /** A channel that belongs to none of the answered actions keeps what it held. */
  lemma {:induction false} DeliverUntouched(run: Handler, slots: seq<Option<string>>, actions: seq<Action>, steps: seq<Executor>, r: nat)
    requires |actions| <= |steps| && r < |slots|
    requires forall i | 0 <= i < |actions| :: actions[i].reply != r
    ensures Deliver(run, slots, actions, steps)[r] == slots[r]
  {
    if actions != [] {
      var n := |actions| - 1;
      assert forall i | 0 <= i < n :: actions[..n][i] == actions[i];
      DeliverUntouched(run, slots, actions[..n], steps, r);
    }
  }

  /**
   * A request's own reply channel, made when its action joined the back of
   * the queue, holds its reply once the workers have got through the whole
   * queue, and is still empty before that.
   */
  lemma OwnReply(run: Handler, slots: seq<Option<string>>, queue: seq<Action>, a: Action, steps: seq<Executor>)
    requires Numbered(queue, |slots|) && a.reply == |slots|
    ensures var n := Min(|steps|, |queue| + 1);
      Deliver(run, slots + [None], (queue + [a])[..n], steps)[a.reply]
      == if |steps| > |queue| then Some(run(a.kind, a.cmd, steps[|queue|]).reply) else None
  {
    var q := queue + [a];
    var n := Min(|steps|, |queue| + 1);
    if |steps| > |queue| {
      assert Numbered(q, |slots| + 1) by {
        assert forall i | 0 <= i < |queue| :: q[i] == queue[i];
      }
      assert q[..n] == q;
      DeliverAnswered(run, slots + [None], q, steps, |queue|);
    } else {
      assert q[..n] == queue[..n];
      DeliverUntouched(run, slots + [None], queue[..n], steps, a.reply);
    }
  }

  /** A worker given an action of any other kind answers that it does not know it, and does nothing. */
  lemma ExecuteUnknown(kind: string, cmd: string, answer: Executor)
    requires kind !in {"tap", "swipe", "key", "text"}
    ensures Execute(kind, cmd, answer) == Outcome("ERROR|unknown action", [])
  {
  }
}
