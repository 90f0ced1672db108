/** The worker's loop as code (common/zmqworker.cpp) over its bounded queues (common/safequeue.h).
    Between any two actions producers, callers of sync() and the broker may act; every action is a
    step of the machine in Worker, so every state the loop passes through is one of its runs. */
module WorkerLoop {
  import opened Worker

  /** A bounded FIFO. A push that would have to wait is refused, as one that waited out its timeout
      is; a stopped queue refuses everything but gives up what it holds. */
  class SafeQueue<T> {
    var queue: seq<T>
    var stopped: bool
    const maxSize: nat

    constructor (maxSize: nat)
      ensures queue == [] && !stopped && this.maxSize == maxSize
    {
      queue, stopped, this.maxSize := [], false, maxSize;
    }

    method Push(value: T) returns (accepted: bool, wasEmpty: bool)
      modifies this`queue
      ensures accepted <==> !stopped && |old(queue)| < maxSize
      ensures wasEmpty <==> accepted && old(queue) == []
      ensures queue == if accepted then old(queue) + [value] else old(queue)
    {
      if stopped || |queue| >= maxSize {
        return false, false;
      }
      accepted, wasEmpty := true, queue == [];
      queue := queue + [value];
    }

    method TryPop() returns (value: seq<T>)
      modifies this`queue
      ensures value + queue == old(queue)
      ensures |value| == if old(queue) == [] then 0 else 1
    {
      if queue == [] {
        return [];
      }
      value := [queue[0]];
      queue := queue[1..];
    }

    method DrainTo() returns (out: seq<T>)
      modifies this`queue
      ensures out == old(queue) && queue == []
    {
      out := queue;
      queue := [];
    }

    method Stop()
      modifies this`stopped
      ensures stopped
    {
      stopped := true;
    }

    method Reset()
      modifies this`stopped
      ensures !stopped
    {
      stopped := false;
    }
  }

  /** What the loop does not decide: who acts at its k-th interleaving point, whether the pipe takes
      the k-th message offered, what the k-th poll brings and what the k-th clock reading says. */
  datatype World = World(env: nat -> seq<Move>, pipe: nat -> bool, online: nat -> bool, ack: nat -> bool,
                         beatDue: nat -> bool, silent: nat -> bool)

  /** How many rounds of the loop a trace starts. */
  function Rounds(trace: seq<Move>): nat {
    if trace == [] then 0
    else Rounds(trace[..|trace| - 1]) + if trace[|trace| - 1].Receive? then 1 else 0
  }

  class ZmqWorker {
    const controlQueue: SafeQueue<nat>
    const outboundQueue: SafeQueue<nat>
    var controlBacklog: seq<nat>
    var dataBacklog: seq<nat>
    var batch: seq<nat>
    var isOnline: bool
    var heartbeatsSent: nat
    var acksReceived: nat
    var syncRequested: bool
    var syncTarget: nat
    var accepted: seq<Kind>
    var log: seq<Event>
    var answered: seq<nat>
    const world: World
    var clock: nat

    ghost var at: Point
    ghost var mark: nat
    ghost var trace: seq<Move>

    ghost function View(): State
      reads this, controlQueue, outboundQueue
    {
      State(accepted, controlQueue.queue, outboundQueue.queue, controlBacklog, dataBacklog, batch, log, isOnline, at,
            heartbeatsSent, answered, acksReceived, syncRequested, syncTarget, mark)
    }

    /** The worker is somewhere on a run of the machine. */
    ghost predicate Valid()
      reads this, controlQueue, outboundQueue
    {
      && controlQueue != outboundQueue && !controlQueue.stopped && !outboundQueue.stopped
      && controlQueue.maxSize == CONTROL_LIMIT && outboundQueue.maxSize == DATA_LIMIT
      && Runs(START, trace, View())
    }

    constructor (world: World)
      ensures Valid() && at.Poll? && trace == []
      ensures fresh(controlQueue) && fresh(outboundQueue)
    {
      controlQueue := new SafeQueue(CONTROL_LIMIT);
      outboundQueue := new SafeQueue(DATA_LIMIT);
      controlBacklog, dataBacklog, batch, accepted := [], [], [], [];
      isOnline, heartbeatsSent, acksReceived, syncRequested, syncTarget := false, 0, 0, false, 0;
      this.world, clock := world, 0;
      log, at, answered, mark, trace := [], Poll, [], 0, [];
    }

    /** Extends the trace by the move just made. */
    ghost method Made(before: State, m: Move)
      requires Runs(START, trace, before) && Enabled(before, m) && Step(before, m) == View()
      modifies this`trace
      ensures Runs(START, trace, View())
      ensures Rounds(trace) == old(Rounds(trace)) + if m.Receive? then 1 else 0
    {
      RunsSnoc(START, trace, before, m);
      trace := trace + [m];
      assert trace[..|trace| - 1] == old(trace);
    }

    /** A producer enqueues a message: control and data have queues of their own. */
    method Enqueue(kind: Kind) returns (taken: bool)
      requires Valid()
      modifies this`accepted, this`trace, controlQueue`queue, outboundQueue`queue
      ensures Valid() && at == old(at)
      ensures Rounds(trace) == old(Rounds(trace))
      ensures taken ==> Enabled(old(View()), Push(kind)) && View() == Step(old(View()), Push(kind))
      ensures !taken ==> View() == old(View()) && !Enabled(old(View()), Push(kind))
    {
      hide Runs, Rounds;
      ghost var before := View();
      var wasEmpty: bool;
      if kind.Control? {
        taken, wasEmpty := controlQueue.Push(|accepted|);
      } else {
        taken, wasEmpty := outboundQueue.Push(|accepted|);
      }
      if taken {
        accepted := accepted + [kind];
        Made(before, Push(kind));
      }
    }

    /** Others act: producers push, sync() is called or gives up, the broker answers heartbeats. What
        is not possible at the moment does not happen. */
    method Interfere()
      requires Valid()
      modifies this`accepted, this`answered, this`syncRequested, this`syncTarget, this`mark, this`clock, this`trace
      modifies controlQueue`queue, outboundQueue`queue
      ensures Valid()
      ensures Rounds(trace) == old(Rounds(trace))
    {
      hide Runs, Rounds, Step, Enabled;
      var moves := world.env(clock);
      clock := clock + 1;
      for i := 0 to |moves|
        invariant Valid() && Rounds(trace) == old(Rounds(trace))
      {
        Act(moves[i]);
      }
    }

    method Act(m: Move)
      requires Valid()
      modifies this`accepted, this`answered, this`syncRequested, this`syncTarget, this`mark, this`trace
      modifies controlQueue`queue, outboundQueue`queue
      ensures Valid()
      ensures Rounds(trace) == old(Rounds(trace))
    {
      hide Runs, Rounds;
      ghost var before := View();
      match m
      case Push(kind) =>
        var taken := Enqueue(kind);
      case SyncCall =>
        syncTarget := 0;
        syncRequested := true;
        mark := |accepted|;
        Made(before, SyncCall);
      case Withdraw =>
        syncRequested := false;
        Made(before, Withdraw);
      case Answer(g) =>
        if Beat(g, true) in log && (answered != [] ==> answered[|answered| - 1] < g) {
          answered := answered + [g];
          Made(before, Answer(g));
        }
      case _ =>
    }

    /** Polls and receives: anything received makes the worker online, an answer is counted. */
    method Receive()
      requires Valid() && at.Poll?
      modifies this`isOnline, this`acksReceived, this`at, this`clock, this`trace
      ensures Valid() && at.DrainControl?
      ensures Rounds(trace) == old(Rounds(trace)) + 1
    {
      hide Runs, Rounds;
      ghost var before := View();
      var ack := world.ack(clock) && acksReceived < |answered|;
      var nowOnline := world.online(clock) || ack;
      clock := clock + 1;
      if nowOnline { isOnline := true; }
      if ack { acksReceived := acksReceived + 1; }
      at := DrainControl;
      Made(before, Move.Receive(nowOnline, ack));
    }

    method DrainControlQueue()
      requires Valid() && at.DrainControl?
      modifies this`controlBacklog, this`at, this`trace, controlQueue`queue
      ensures Valid() && at.TrimControl?
      ensures Rounds(trace) == old(Rounds(trace))
    {
      hide Runs, Rounds;
      ghost var before := View();
      var drained := controlQueue.DrainTo();
      for i := 0 to |drained|
        modifies this`controlBacklog
        invariant controlBacklog == before.controlBacklog + drained[..i]
      {
        controlBacklog := controlBacklog + [drained[i]];
        assert drained[..i + 1] == drained[..i] + [drained[i]];
      }
      assert drained[..|drained|] == drained;
      at := TrimControl;
      Made(before, TakeControl);
    }

    /** Gives up the oldest until the backlog is within its limit. */
    method TrimControlBacklog()
      requires Valid() && at.TrimControl?
      modifies this`controlBacklog, this`log, this`at, this`trace
      ensures Valid() && at.Flush?
      ensures Rounds(trace) == old(Rounds(trace))
    {
      hide Runs, Rounds;
      ghost var before := View();
      ghost var n := 0;
      assert before.controlBacklog[..0] == [] && log + [] == log;
      while |controlBacklog| > CONTROL_LIMIT
        modifies this`controlBacklog, this`log
        invariant n <= Excess(before.controlBacklog, CONTROL_LIMIT)
        invariant controlBacklog == before.controlBacklog[n..]
        invariant log == before.log + Drops(before.controlBacklog[..n])
      {
        log := log + [Dropped(controlBacklog[0])];
        controlBacklog := controlBacklog[1..];
        assert Drops(before.controlBacklog[..n]) + [Dropped(before.controlBacklog[n])] == Drops(before.controlBacklog[..n + 1]);
        n := n + 1;
      }
      assert n == Excess(before.controlBacklog, CONTROL_LIMIT);
      at := Flush;
      Made(before, CutControl);
    }

    /** Offers the oldest control message to the pipe. */
    method FlushOldest() returns (ok: bool)
      requires Valid() && at.Flush? && controlBacklog != []
      modifies this, controlQueue`queue, outboundQueue`queue
      ensures Valid() && Rounds(trace) == old(Rounds(trace))
      ensures if ok then at.Flush? && controlBacklog == old(controlBacklog)[1..]
              else at.DrainData? && clock > 0 && !world.pipe(clock - 1)
    {
      hide Runs, Rounds;
      Interfere();
      ghost var before := View();
      ok := world.pipe(clock);
      clock := clock + 1;
      if ok {
        log := log + [Sent(controlBacklog[0])];
        controlBacklog := controlBacklog[1..];
      } else {
        at := DrainData;
      }
      Made(before, FlushOne(ok));
    }

    /** Sends the control backlog, oldest first, until it is empty or the pipe refuses. */
    method FlushControl()
      requires Valid() && at.Flush?
      modifies this, controlQueue`queue, outboundQueue`queue
      ensures Valid() && at.DrainData?
      ensures Rounds(trace) == old(Rounds(trace))
      ensures controlBacklog == [] || (clock > 0 && !world.pipe(clock - 1))
    {
      hide Runs, Rounds;
      while controlBacklog != []
        invariant Valid() && at.Flush? && Rounds(trace) == old(Rounds(trace))
        decreases |controlBacklog|
      {
        var ok := FlushOldest();
        if !ok {
          return;
        }
      }
      ghost var before := View();
      at := DrainData;
      Made(before, FlushDone);
    }

    /** Takes the queued data if online; true when there is a batch in hand. */
    method DrainOutboundQueue() returns (some: bool)
      requires Valid() && at.DrainData?
      modifies this`batch, this`at, this`trace, outboundQueue`queue
      ensures Valid() && at == if some then Place else Test
      ensures Rounds(trace) == old(Rounds(trace))
    {
      hide Runs, Rounds;
      ghost var before := View();
      some := false;
      if isOnline {
        var drained := outboundQueue.DrainTo();
        if drained != [] { batch := drained; some := true; }
      }
      at := if some then Place else Test;
      Made(before, TakeData);
    }

    method DropOldest()
      modifies this`dataBacklog, this`log
      ensures var all := old(dataBacklog); var n := Excess(all, DATA_LIMIT);
              dataBacklog == all[n..] && log == old(log) + Drops(all[..n])
    {
      ghost var all := dataBacklog;
      ghost var n := 0;
      assert all[..0] == [] && log + [] == log;
      while |dataBacklog| > DATA_LIMIT
        invariant n <= Excess(all, DATA_LIMIT) && dataBacklog == all[n..] && log == old(log) + Drops(all[..n])
      {
        log := log + [Dropped(dataBacklog[0])];
        dataBacklog := dataBacklog[1..];
        assert Drops(all[..n]) + [Dropped(all[n])] == Drops(all[..n + 1]);
        n := n + 1;
      }
      assert n == Excess(all, DATA_LIMIT);
    }

    /** Adds the batch to the backlog, giving up the oldest beyond the limit. */
    method HoldBatch()
      modifies this`batch, this`dataBacklog, this`log
      ensures var all := old(dataBacklog + batch); var n := Excess(all, DATA_LIMIT);
              View() == old(View()).(dataBacklog := all[n..], batch := [], log := old(log) + Drops(all[..n]))
    {
      dataBacklog := dataBacklog + batch;
      batch := [];
      DropOldest();
    }

    /** The batch may go straight out if nothing has to go before it; otherwise it joins the backlog,
        which gives up its oldest beyond the limit. */
    method PlaceDrained() returns (direct: bool)
      requires Valid() && at.Place?
      modifies this`batch, this`dataBacklog, this`log, this`at, this`trace
      ensures Valid() && at == if direct then SendDirect else Test
      ensures Rounds(trace) == old(Rounds(trace))
    {
      hide Runs, Rounds, Step, Enabled;
      ghost var before := View();
      direct := dataBacklog == [] && controlBacklog == [] && controlQueue.queue == [];
      if direct {
        at := SendDirect;
      } else {
        HoldBatch();
        at := Test;
      }
      PlaceIs(before);
      Made(before, PlaceBatch);
    }

    /** Sends the batch in hand, counting what the pipe refuses. */
    method SendBatch()
      requires Valid() && at.SendDirect?
      modifies this, controlQueue`queue, outboundQueue`queue
      ensures Valid() && at.Test?
      ensures Rounds(trace) == old(Rounds(trace))
    {
      hide Runs, Rounds;
      while batch != []
        invariant Valid() && at.SendDirect? && Rounds(trace) == old(Rounds(trace))
        decreases |batch|
      {
        Interfere();
        ghost var before := View();
        var ok := world.pipe(clock);
        clock := clock + 1;
        log := log + [Give(ok, batch[0])];
        batch := batch[1..];
        Made(before, SendOne(ok));
      }
      ghost var before := View();
      at := Test;
      Made(before, SentAll);
    }

    method TestHeldData() returns (clear: bool)
      requires Valid() && at.Test?
      modifies this`at, this`trace
      ensures Valid() && at == if clear then SendBacklog else Sync
      ensures Rounds(trace) == old(Rounds(trace))
    {
      hide Runs, Rounds;
      ghost var before := View();
      clear := dataBacklog != [] && controlBacklog == [] && controlQueue.queue == [];
      at := if clear then SendBacklog else Sync;
      Made(before, TestData);
    }

    /** Sends what data had to wait, if nothing has to go before it any more. */
    method SendHeldData()
      requires Valid() && at.Test?
      modifies this, controlQueue`queue, outboundQueue`queue
      ensures Valid() && at.Sync?
      ensures Rounds(trace) == old(Rounds(trace))
    {
      hide Runs, Rounds;
      var clear := TestHeldData();
      if !clear {
        return;
      }
      while dataBacklog != []
        invariant Valid() && at.SendBacklog? && Rounds(trace) == old(Rounds(trace))
        decreases |dataBacklog|
      {
        Interfere();
        ghost var before := View();
        var ok := world.pipe(clock);
        clock := clock + 1;
        log := log + [Give(ok, dataBacklog[0])];
        dataBacklog := dataBacklog[1..];
        Made(before, SendOne(ok));
      }
      ghost var before := View();
      at := Sync;
      Made(before, SentAll);
    }

    /** Counted whoever asked for it and whether or not the pipe takes it. */
    method SendHeartbeat(ok: bool)
      modifies this`heartbeatsSent, this`log
      ensures View() == Beaten(old(View()), ok)
    {
      heartbeatsSent := heartbeatsSent + 1;
      log := log + [Beat(heartbeatsSent, ok)];
    }

    method AnswerSync(ok: bool)
      modifies this`heartbeatsSent, this`syncRequested, this`syncTarget, this`log, this`at
      ensures View() == SyncChecked(old(View()), ok)
    {
      if isOnline && controlBacklog == [] && dataBacklog == [] && controlQueue.queue == [] && outboundQueue.queue == [] && syncRequested {
        SendHeartbeat(ok);
        syncRequested := false;
        syncTarget := heartbeatsSent;
      }
      at := Tick;
    }

    /** Answers a pending sync() with a heartbeat once everything has gone out. */
    method CheckSyncRequest()
      requires Valid() && at.Sync?
      modifies this`heartbeatsSent, this`syncRequested, this`syncTarget, this`log, this`at, this`clock, this`trace
      ensures Valid() && at.Tick?
      ensures Rounds(trace) == old(Rounds(trace))
    {
      hide Runs, Rounds, Step, Enabled;
      ghost var before := View();
      var ok := world.pipe(clock);
      clock := clock + 1;
      AnswerSync(ok);
      hide View;
      SyncIs(before, ok);
      Made(before, CheckSync(ok));
    }

    /** The periodic heartbeat, and going offline after too long a silence. */
    method TickClock()
      requires Valid() && at.Tick?
      modifies this`heartbeatsSent, this`isOnline, this`log, this`at, this`clock, this`trace
      ensures Valid() && at.Poll?
      ensures Rounds(trace) == old(Rounds(trace))
    {
      hide Runs, Rounds, Step, Enabled;
      ghost var before := View();
      var due, ok, silent := world.beatDue(clock), world.pipe(clock), world.silent(clock);
      clock := clock + 1;
      if due { SendHeartbeat(ok); }
      if silent { isOnline := false; }
      at := Poll;
      TickIs(before, due, ok, silent);
      Made(before, Ticked(due, ok, silent));
    }

    /** The loop, for any number of rounds in any world: it never leaves the machine's runs. */
    method RunLoop(rounds: nat)
      requires Valid() && at.Poll?
      modifies this, controlQueue`queue, outboundQueue`queue
      ensures Valid() && at.Poll?
      ensures Rounds(trace) == old(Rounds(trace)) + rounds
    {
      hide Runs, Rounds;
      for i := 0 to rounds
        invariant Valid() && at.Poll? && Rounds(trace) == old(Rounds(trace)) + i
      {
        Interfere();
        Receive();
        Interfere();
        DrainControlQueue();
        Interfere();
        TrimControlBacklog();
        FlushControl();
        Interfere();
        var some := DrainOutboundQueue();
        Interfere();
        if some {
          var direct := PlaceDrained();
          if direct { SendBatch(); }
        }
        Interfere();
        SendHeldData();
        Interfere();
        CheckSyncRequest();
        Interfere();
        TickClock();
      }
    }

    /** sync()'s answer, read off the counters. */
    method SyncAnswered() returns (processed: bool)
      requires Valid()
      ensures processed ==>
                exists p: nat :: p < |log| && log[p].Beat? && log[p].wired && log[p].index in answered
                                 && forall n: nat :: n < mark ==> IsLogged(log[..p], n)
    {
      processed := syncTarget != 0 && acksReceived >= syncTarget;
      if processed { SyncMeansProcessed(trace, View()); }
    }
  }

  lemma PlaceIs(s: State)
    requires s.at.Place?
    ensures Enabled(s, PlaceBatch) && Step(s, PlaceBatch) == Placed(s)
  {
  }

  lemma SyncIs(s: State, ok: bool)
    requires s.at.Sync?
    ensures Enabled(s, CheckSync(ok)) && Step(s, CheckSync(ok)) == SyncChecked(s, ok)
  {
  }

  lemma TickIs(s: State, beat: bool, ok: bool, offline: bool)
    requires s.at.Tick?
    ensures Enabled(s, Ticked(beat, ok, offline))
    ensures Step(s, Ticked(beat, ok, offline)) == (if beat then Beaten(s, ok) else s).(online := s.online && !offline, at := Poll)
  {
  }

  lemma {:induction false} RunsSnoc(s: State, ms: seq<Move>, s': State, m: Move)
    requires Runs(s, ms, s') && Enabled(s', m)
    ensures Runs(s, ms + [m], Step(s', m))
    decreases |ms|
  {
    hide Enabled, Step;
    if ms == [] {
      assert ms + [m] == [m] && Runs(Step(s, m), [], Step(s, m));
    } else {
      assert (ms + [m])[1..] == ms[1..] + [m];
      RunsSnoc(Step(s, ms[0]), ms[1..], s', m);
    }
  }
}
