/** The client's connection worker (common/zmqworker.cpp): one loop draining two queues into two
    backlogs and onto the socket while producers push at any moment, and the heartbeat barrier
    behind sync(). */
module Worker {

  const CONTROL_LIMIT := 11024
  const DATA_LIMIT := 5000

  datatype Kind = Control | Data

  /** What became of a message, named by its place in the order of acceptance, or a heartbeat, named
      by its count; `wired` says whether the pipe took it. */
  datatype Event = Sent(stamp: nat) | Dropped(stamp: nat) | Beat(index: nat, wired: bool)

  /** Where the loop is. */
  datatype Point = Poll | DrainControl | TrimControl | Flush | DrainData | Place | SendDirect | Test | SendBacklog | Sync | Tick

  /** `accepted`: the kind of every message taken by a queue, in order. `log`: what left the worker or
      was given up, in order. `answered`: the heartbeats the broker has answered. `mark`: how many
      messages had been accepted when the pending sync() was called. */
  datatype State = State(
    accepted: seq<Kind>,
    controlQueue: seq<nat>, dataQueue: seq<nat>,
    controlBacklog: seq<nat>, dataBacklog: seq<nat>, batch: seq<nat>,
    log: seq<Event>, online: bool, at: Point,
    beats: nat, answered: seq<nat>, acks: nat,
    requested: bool, target: nat, mark: nat)

  const START := State([], [], [], [], [], [], [], false, Poll, 0, [], 0, false, 0, 0)

  datatype Move =
    | Push(kind: Kind)                      // a producer
    | SyncCall | Withdraw                   // a caller of sync()
    | Answer(index: nat)                    // the broker
    | Receive(nowOnline: bool, ack: bool)   // the loop, one action at a time
    | TakeControl | CutControl | FlushOne(ok: bool) | FlushDone
    | TakeData | PlaceBatch | SendOne(ok: bool) | SentAll | TestData | CheckSync(ok: bool)
    | Ticked(beat: bool, ok: bool, offline: bool)

  predicate Disposes(e: Event, stamp: nat) { !e.Beat? && e.stamp == stamp }

  function Give(ok: bool, stamp: nat): Event { if ok then Sent(stamp) else Dropped(stamp) }

  function Drops(stamps: seq<nat>): (r: seq<Event>)
    ensures |r| == |stamps| && forall i :: 0 <= i < |r| ==> r[i] == Dropped(stamps[i])
  {
    seq(|stamps|, i requires 0 <= i < |stamps| => Dropped(stamps[i]))
  }

  function Excess(backlog: seq<nat>, limit: nat): (n: nat)
    ensures n <= |backlog|
  {
    if |backlog| > limit then |backlog| - limit else 0
  }

  /** Nothing is waiting to be ordered ahead of data. */
  predicate ControlClear(s: State) { s.controlBacklog == [] && s.controlQueue == [] }

  predicate AllClear(s: State) {
    s.online && ControlClear(s) && s.dataBacklog == [] && s.dataQueue == []
  }

  predicate Enabled(s: State, m: Move) {
    match m
    case Push(kind) => |if kind.Control? then s.controlQueue else s.dataQueue| < (if kind.Control? then CONTROL_LIMIT else DATA_LIMIT)
    case SyncCall => true
    case Withdraw => true
    case Answer(g) => Beat(g, true) in s.log && (s.answered != [] ==> s.answered[|s.answered| - 1] < g)
    case Receive(_, ack) => s.at.Poll? && (ack ==> s.acks < |s.answered|)
    case TakeControl => s.at.DrainControl?
    case CutControl => s.at.TrimControl?
    case FlushOne(_) => s.at.Flush? && s.controlBacklog != []
    case FlushDone => s.at.Flush? && s.controlBacklog == []
    case TakeData => s.at.DrainData?
    case PlaceBatch => s.at.Place?
    case SendOne(_) => (s.at.SendDirect? && s.batch != []) || (s.at.SendBacklog? && s.dataBacklog != [])
    case SentAll => (s.at.SendDirect? && s.batch == []) || (s.at.SendBacklog? && s.dataBacklog == [])
    case TestData => s.at.Test?
    case CheckSync(_) => s.at.Sync?
    case Ticked(_, _, _) => s.at.Tick?
  }

  function Beaten(s: State, ok: bool): State {
    s.(beats := s.beats + 1, log := s.log + [Beat(s.beats + 1, ok)])
  }

  /** A batch goes straight out if nothing has to go before it; otherwise it joins the backlog. */
  function Placed(s: State): State {
    if s.dataBacklog == [] && ControlClear(s) then s.(at := SendDirect)
    else
      var all := s.dataBacklog + s.batch;
      var n := Excess(all, DATA_LIMIT);
      s.(dataBacklog := all[n..], batch := [], log := s.log + Drops(all[..n]), at := Test)
  }

  /** A pending sync()'s heartbeat goes out once nothing waits anywhere. */
  function SyncChecked(s: State, ok: bool): State {
    if AllClear(s) && s.requested then
      Beaten(s, ok).(requested := false, target := s.beats + 1, at := Tick)
    else s.(at := Tick)
  }

  function Step(s: State, m: Move): State
    requires Enabled(s, m)
  {
    match m
    case Push(kind) =>
      var n := |s.accepted|;
      if kind.Control? then s.(accepted := s.accepted + [kind], controlQueue := s.controlQueue + [n])
      else s.(accepted := s.accepted + [kind], dataQueue := s.dataQueue + [n])
    case SyncCall => s.(requested := true, target := 0, mark := |s.accepted|)
    case Withdraw => s.(requested := false)
    case Answer(g) => s.(answered := s.answered + [g])
    case Receive(nowOnline, ack) =>
      s.(online := s.online || nowOnline, acks := s.acks + (if ack then 1 else 0), at := DrainControl)
    case TakeControl =>
      s.(controlBacklog := s.controlBacklog + s.controlQueue, controlQueue := [], at := TrimControl)
    case CutControl =>
      var n := Excess(s.controlBacklog, CONTROL_LIMIT);
      s.(controlBacklog := s.controlBacklog[n..], log := s.log + Drops(s.controlBacklog[..n]), at := Flush)
    case FlushOne(ok) =>
      if ok then s.(controlBacklog := s.controlBacklog[1..], log := s.log + [Sent(s.controlBacklog[0])])
      else s.(at := DrainData)
    case FlushDone => s.(at := DrainData)
    case TakeData =>
      if s.online && s.dataQueue != [] then s.(batch := s.dataQueue, dataQueue := [], at := Place) else s.(at := Test)
    case PlaceBatch => Placed(s)
    case SendOne(ok) =>
      if s.at.SendDirect? then s.(batch := s.batch[1..], log := s.log + [Give(ok, s.batch[0])])
      else s.(dataBacklog := s.dataBacklog[1..], log := s.log + [Give(ok, s.dataBacklog[0])])
    case SentAll => if s.at.SendDirect? then s.(at := Test) else s.(at := Sync)
    case TestData => s.(at := if s.dataBacklog != [] && ControlClear(s) then SendBacklog else Sync)
    case CheckSync(ok) => SyncChecked(s, ok)
    case Ticked(beat, ok, offline) =>
      (if beat then Beaten(s, ok) else s).(online := s.online && !offline, at := Poll)
  }

  // The account: every message accepted is logged or waiting, once, in order.

  /** The stamps of one kind among the accepted, in order. */
  function All(accepted: seq<Kind>, kind: Kind): seq<nat> {
    if accepted == [] then []
    else
      var n := |accepted| - 1;
      All(accepted[..n], kind) + (if accepted[n] == kind then [n] else [])
  }

  /** The stamps of one kind the log disposes of, in order. */
  function Done(accepted: seq<Kind>, log: seq<Event>, kind: Kind): seq<nat> {
    if log == [] then []
    else
      var e := log[|log| - 1];
      Done(accepted, log[..|log| - 1], kind)
      + (if !e.Beat? && e.stamp < |accepted| && accepted[e.stamp] == kind then [e.stamp] else [])
  }

  /** Everything of each kind is done, backlogged, in hand or queued, in exactly the order it came. */
  predicate Balanced(s: State) {
    && Done(s.accepted, s.log, Control) + s.controlBacklog + s.controlQueue == All(s.accepted, Control)
    && Done(s.accepted, s.log, Data) + s.dataBacklog + s.batch + s.dataQueue == All(s.accepted, Data)
    && (forall e :: e in s.log && !e.Beat? ==> e.stamp < |s.accepted|)
  }

  lemma {:induction false} AllMembers(accepted: seq<Kind>, kind: Kind)
    ensures forall n: nat :: n in All(accepted, kind) <==> n < |accepted| && accepted[n] == kind
  {
    if accepted == [] {
    } else {
      AllMembers(accepted[..|accepted| - 1], kind);
    }
  }

  lemma {:induction false} DoneMembers(accepted: seq<Kind>, log: seq<Event>, kind: Kind)
    ensures forall n: nat :: n in Done(accepted, log, kind) <==>
              n < |accepted| && accepted[n] == kind && (Sent(n) in log || Dropped(n) in log)
  {
    if log == [] {
    } else {
      DoneMembers(accepted, log[..|log| - 1], kind);
      assert log == log[..|log| - 1] + [log[|log| - 1]];
    }
  }

  lemma {:induction false} DoneConcat(accepted: seq<Kind>, a: seq<Event>, b: seq<Event>, kind: Kind)
    ensures Done(accepted, a + b, kind) == Done(accepted, a, kind) + Done(accepted, b, kind)
  {
    if b == [] {
      assert a + b == a;
    } else {
      var n := |b| - 1;
      assert (a + b)[..|a| + n] == a + b[..n];
      DoneConcat(accepted, a, b[..n], kind);
    }
  }

  /** A message pushed later does not change what the log says of the earlier ones. */
  lemma {:induction false} DonePush(accepted: seq<Kind>, log: seq<Event>, kind: Kind, more: Kind)
    requires forall e :: e in log && !e.Beat? ==> e.stamp < |accepted|
    ensures Done(accepted + [more], log, kind) == Done(accepted, log, kind)
  {
    if log == [] {
    } else {
      var init := log[..|log| - 1];
      assert log == init + [log[|log| - 1]];
      assert forall e :: e in init ==> e in log;
      DonePush(accepted, init, kind, more);
    }
  }

  /** Handing over the oldest waiting messages of a kind keeps that kind's account. */
  lemma Disposed(s: State, es: seq<Event>, stamps: seq<nat>, kind: Kind, other: Kind)
    requires kind != other && |es| == |stamps|
    requires forall i :: 0 <= i < |es| ==> Disposes(es[i], stamps[i])
    requires forall i :: 0 <= i < |es| ==> stamps[i] < |s.accepted| && s.accepted[stamps[i]] == kind
    ensures Done(s.accepted, s.log + es, kind) == Done(s.accepted, s.log, kind) + stamps
    ensures Done(s.accepted, s.log + es, other) == Done(s.accepted, s.log, other)
  {
    DoneConcat(s.accepted, s.log, es, kind);
    DoneConcat(s.accepted, s.log, es, other);
    DoneExactly(s.accepted, es, stamps, kind, other);
  }

  lemma {:induction false} DoneExactly(accepted: seq<Kind>, es: seq<Event>, stamps: seq<nat>, kind: Kind, other: Kind)
    requires kind != other && |es| == |stamps|
    requires forall i :: 0 <= i < |es| ==> Disposes(es[i], stamps[i])
    requires forall i :: 0 <= i < |es| ==> stamps[i] < |accepted| && accepted[stamps[i]] == kind
    ensures Done(accepted, es, kind) == stamps && Done(accepted, es, other) == []
  {
    if es == [] {
    } else {
      var n := |es| - 1;
      DoneExactly(accepted, es[..n], stamps[..n], kind, other);
      assert stamps == stamps[..n] + [stamps[n]];
    }
  }

  /** Whatever waits is an accepted message of the kind its place is for. */
  lemma Waiting(s: State)
    requires Balanced(s)
    ensures forall n :: n in s.controlBacklog || n in s.controlQueue ==> n < |s.accepted| && s.accepted[n] == Control
    ensures forall n :: n in s.dataBacklog || n in s.batch || n in s.dataQueue ==> n < |s.accepted| && s.accepted[n] == Data
  {
    AllMembers(s.accepted, Control);
    AllMembers(s.accepted, Data);
    var c, d := All(s.accepted, Control), All(s.accepted, Data);
    assert forall n :: n in s.controlBacklog || n in s.controlQueue ==> n in c;
    assert forall n :: n in s.dataBacklog || n in s.batch || n in s.dataQueue ==> n in d;
  }

  lemma BalancedPush(s: State, kind: Kind)
    requires Balanced(s) && Enabled(s, Push(kind))
    ensures Balanced(Step(s, Push(kind)))
  {
    var s' := Step(s, Push(kind));
    assert s'.accepted[..|s.accepted|] == s.accepted;
    DonePush(s.accepted, s.log, Control, kind);
    DonePush(s.accepted, s.log, Data, kind);
    var n := [|s.accepted|];
    if kind.Control? {
      assert Done(s.accepted, s.log, Control) + s.controlBacklog + (s.controlQueue + n)
          == (Done(s.accepted, s.log, Control) + s.controlBacklog + s.controlQueue) + n;
    } else {
      assert Done(s.accepted, s.log, Data) + s.dataBacklog + s.batch + (s.dataQueue + n)
          == (Done(s.accepted, s.log, Data) + s.dataBacklog + s.batch + s.dataQueue) + n;
    }
  }

  lemma BalancedBeat(s: State, ok: bool)
    requires Balanced(s)
    ensures Balanced(Beaten(s, ok))
  {
    BeatDone(s.accepted, s.log, s.beats + 1, ok, Control);
    BeatDone(s.accepted, s.log, s.beats + 1, ok, Data);
    hide Done, All;
  }

  lemma BeatDone(accepted: seq<Kind>, log: seq<Event>, index: nat, ok: bool, kind: Kind)
    ensures Done(accepted, log + [Beat(index, ok)], kind) == Done(accepted, log, kind)
  {
    assert (log + [Beat(index, ok)])[..|log|] == log;
  }

  /** The n oldest control messages leave the backlog for the log. */
  lemma GiveControl(s: State, n: nat, es: seq<Event>)
    requires Balanced(s) && n <= |s.controlBacklog| && |es| == n
    requires forall i :: 0 <= i < n ==> Disposes(es[i], s.controlBacklog[i])
    ensures Balanced(s.(controlBacklog := s.controlBacklog[n..], log := s.log + es))
  {
    hide Done, All;
    Waiting(s);
    var b := s.controlBacklog;
    assert forall i :: 0 <= i < n ==> b[i] in b;
    Disposed(s, es, b[..n], Control, Data);
    RegroupOne(Done(s.accepted, s.log, Control), b, n);
  }

  lemma RegroupOne(done: seq<nat>, held: seq<nat>, n: nat)
    requires n <= |held|
    ensures done + held[..n] + held[n..] == done + held
  {
    assert held == held[..n] + held[n..];
  }

  /** The n oldest data messages leave the backlog and the batch, of which `backlog` and `batch` are
      left. */
  lemma GiveData(s: State, n: nat, es: seq<Event>, backlog: seq<nat>, batch: seq<nat>)
    requires Balanced(s) && n <= |s.dataBacklog + s.batch| && |es| == n
    requires forall i :: 0 <= i < n ==> Disposes(es[i], (s.dataBacklog + s.batch)[i])
    requires backlog + batch == (s.dataBacklog + s.batch)[n..]
    ensures Balanced(s.(dataBacklog := backlog, batch := batch, log := s.log + es))
  {
    hide Done, All;
    Waiting(s);
    var b := s.dataBacklog + s.batch;
    assert forall i :: 0 <= i < n ==> b[i] in b;
    Disposed(s, es, b[..n], Data, Control);
    Regroup(Done(s.accepted, s.log, Data), s.dataBacklog, s.batch, n, backlog, batch);
  }

  lemma Regroup(done: seq<nat>, held: seq<nat>, taken: seq<nat>, n: nat, backlog: seq<nat>, batch: seq<nat>)
    requires n <= |held + taken| && backlog + batch == (held + taken)[n..]
    ensures done + (held + taken)[..n] + backlog + batch == done + held + taken
  {
    var b := held + taken;
    assert b == b[..n] + b[n..];
    assert done + b[..n] + backlog + batch == done + (b[..n] + (backlog + batch));
    assert done + held + taken == done + b;
  }

  lemma BalancedControl(s: State, m: Move)
    requires Balanced(s) && Enabled(s, m) && (m.TakeControl? || m.CutControl? || m.FlushOne?)
    ensures Balanced(Step(s, m))
  {
    hide Done, All;
    var b := s.controlBacklog;
    if m.CutControl? {
      var n := Excess(b, CONTROL_LIMIT);
      GiveControl(s, n, Drops(b[..n]));
    } else if m.FlushOne? {
      if m.ok { GiveControl(s, 1, [Sent(b[0])]); }
    } else {
      var done := Done(s.accepted, s.log, Control);
      assert done + (b + s.controlQueue) + [] == done + b + s.controlQueue;
    }
  }

  lemma BalancedData(s: State, m: Move)
    requires Balanced(s) && Enabled(s, m) && (m.TakeData? || m.PlaceBatch? || m.SendOne?)
    requires m.TakeData? ==> s.batch == []
    requires s.at.SendDirect? ==> s.dataBacklog == []
    requires s.at.SendBacklog? ==> s.batch == []
    ensures Balanced(Step(s, m))
  {
    hide Done, All;
    var s' := Step(s, m);
    var all := s.dataBacklog + s.batch;
    if m.PlaceBatch? {
      var n := Excess(all, DATA_LIMIT);
      if !s'.at.SendDirect? { GiveData(s, n, Drops(all[..n]), all[n..], []); }
    } else if m.SendOne? {
      GiveData(s, 1, [Give(m.ok, all[0])], s'.dataBacklog, s'.batch);
    } else {
      var done := Done(s.accepted, s.log, Data) + s.dataBacklog;
      assert done + s.dataQueue + [] == done + [] + s.dataQueue;
    }
  }

  // Data never overtakes control.

  predicate IsLogged(log: seq<Event>, n: nat) { Sent(n) in log || Dropped(n) in log }

  /** Every control message accepted before message d is already sent or given up. */
  predicate ControlAhead(accepted: seq<Kind>, log: seq<Event>, d: nat) {
    forall c: nat :: c < d && c < |accepted| && accepted[c] == Control ==> IsLogged(log, c)
  }

  /** Whenever a data message went onto the socket, all control accepted before it had gone. */
  predicate Ordered(accepted: seq<Kind>, log: seq<Event>) {
    forall i :: 0 <= i < |log| && log[i].Sent? && log[i].stamp < |accepted| && accepted[log[i].stamp] == Data ==>
      ControlAhead(accepted, log[..i], log[i].stamp)
  }

  predicate Cleared(s: State, ds: seq<nat>) {
    forall i :: 0 <= i < |ds| ==> ControlAhead(s.accepted, s.log, ds[i])
  }

  /** What holds at each point of the loop besides the account. */
  predicate InPlace(s: State) {
    && Ordered(s.accepted, s.log)
    && (s.at.SendDirect? ==> s.dataBacklog == [] && Cleared(s, s.batch))
    && (s.at.SendBacklog? ==> Cleared(s, s.dataBacklog))
    && (!s.at.Place? && !s.at.SendDirect? ==> s.batch == [])
  }

  /** With no control waiting, all control accepted is logged. */
  lemma NothingWaiting(s: State, ds: seq<nat>)
    requires Balanced(s) && ControlClear(s)
    ensures Cleared(s, ds)
  {
    AllMembers(s.accepted, Control);
    DoneMembers(s.accepted, s.log, Control);
    assert Done(s.accepted, s.log, Control) == All(s.accepted, Control);
    hide Done, All;
    forall c: nat | c < |s.accepted| && s.accepted[c] == Control
      ensures IsLogged(s.log, c)
    {
      assert c in All(s.accepted, Control);
    }
  }

  /** Logging more, none of it data sent out of turn, keeps the order. */
  lemma OrderedMore(accepted: seq<Kind>, log: seq<Event>, es: seq<Event>)
    requires Ordered(accepted, log)
    requires forall i :: 0 <= i < |es| && es[i].Sent? && es[i].stamp < |accepted| && accepted[es[i].stamp] == Data ==>
               ControlAhead(accepted, log + es[..i], es[i].stamp)
    ensures Ordered(accepted, log + es)
  {
    var all := log + es;
    forall i | 0 <= i < |all| && all[i].Sent? && all[i].stamp < |accepted| && accepted[all[i].stamp] == Data
      ensures ControlAhead(accepted, all[..i], all[i].stamp)
    {
      if i < |log| {
        assert all[..i] == log[..i];
      } else {
        assert all[..i] == log + es[..i - |log|];
      }
    }
  }

  lemma ClearedMore(s: State, es: seq<Event>, ds: seq<nat>)
    requires Cleared(s, ds)
    ensures Cleared(s.(log := s.log + es), ds)
  {
  }

  lemma ClearedPush(s: State, ds: seq<nat>, kind: Kind)
    requires Cleared(s, ds) && forall d :: d in ds ==> d < |s.accepted|
    ensures Cleared(s.(accepted := s.accepted + [kind]), ds)
  {
    forall i | 0 <= i < |ds|
      ensures ControlAhead(s.accepted + [kind], s.log, ds[i])
    {
      assert ds[i] in ds && ControlAhead(s.accepted, s.log, ds[i]);
    }
  }

  lemma OrderedPush(accepted: seq<Kind>, log: seq<Event>, kind: Kind)
    requires Ordered(accepted, log) && forall e :: e in log && !e.Beat? ==> e.stamp < |accepted|
    ensures Ordered(accepted + [kind], log)
  {
    forall i | 0 <= i < |log| && log[i].Sent? && (accepted + [kind])[log[i].stamp] == Data
      ensures ControlAhead(accepted + [kind], log[..i], log[i].stamp)
    {
      assert log[i] in log && ControlAhead(accepted, log[..i], log[i].stamp);
    }
  }

  lemma InPlacePush(s: State, kind: Kind)
    requires Balanced(s) && InPlace(s) && Enabled(s, Push(kind))
    ensures InPlace(Step(s, Push(kind)))
  {
    hide Cleared, Ordered, Done, All;
    Waiting(s);
    OrderedPush(s.accepted, s.log, kind);
    if s.at.SendDirect? { ClearedPush(s, s.batch, kind); SameCleared(s.(accepted := s.accepted + [kind]), Step(s, Push(kind)), s.batch); }
    if s.at.SendBacklog? { ClearedPush(s, s.dataBacklog, kind); SameCleared(s.(accepted := s.accepted + [kind]), Step(s, Push(kind)), s.dataBacklog); }
  }

  lemma SameCleared(s: State, s': State, ds: seq<nat>)
    requires Cleared(s, ds) && s'.accepted == s.accepted && s'.log == s.log
    ensures Cleared(s', ds)
  {
  }

  /** What the loop logs in one action, other than data sent, never breaks the order. */
  lemma OrderedQuiet(accepted: seq<Kind>, log: seq<Event>, es: seq<Event>)
    requires Ordered(accepted, log)
    requires forall i :: 0 <= i < |es| && es[i].Sent? ==> es[i].stamp < |accepted| && accepted[es[i].stamp] == Control
    ensures Ordered(accepted, log + es)
  {
    hide Ordered;
    OrderedMore(accepted, log, es);
  }

  lemma InPlaceSend(s: State, ok: bool)
    requires Balanced(s) && InPlace(s) && Enabled(s, SendOne(ok))
    ensures InPlace(Step(s, SendOne(ok)))
  {
    hide Done, All, Ordered, ControlAhead;
    var ds := if s.at.SendDirect? then s.batch else s.dataBacklog;
    var es := [Give(ok, ds[0])];
    assert s.log + es[..0] == s.log;
    assert ControlAhead(s.accepted, s.log, ds[0]);
    OrderedMore(s.accepted, s.log, es);
    ClearedMore(s, es, ds);
  }

  lemma InPlaceControl(s: State, m: Move)
    requires Balanced(s) && InPlace(s) && Enabled(s, m) && (m.CutControl? || m.FlushOne?)
    ensures InPlace(Step(s, m))
  {
    hide Done, All, Ordered, Cleared, Balanced;
    if m.CutControl? {
      OrderedQuiet(s.accepted, s.log, Drops(s.controlBacklog[..Excess(s.controlBacklog, CONTROL_LIMIT)]));
    } else if m.ok {
      Waiting(s);
      assert s.controlBacklog[0] in s.controlBacklog;
      OrderedQuiet(s.accepted, s.log, [Sent(s.controlBacklog[0])]);
    }
  }

  lemma InPlaceData(s: State, m: Move)
    requires Balanced(s) && InPlace(s) && Enabled(s, m) && (m.PlaceBatch? || m.TestData?)
    ensures InPlace(Step(s, m))
  {
    hide Done, All, Ordered, Cleared, Balanced;
    if m.PlaceBatch? {
      var all := s.dataBacklog + s.batch;
      OrderedQuiet(s.accepted, s.log, Drops(all[..Excess(all, DATA_LIMIT)]));
      if ControlClear(s) { NothingWaiting(s, s.batch); SameCleared(s, s.(at := SendDirect), s.batch); }
    } else if ControlClear(s) {
      NothingWaiting(s, s.dataBacklog);
      SameCleared(s, s.(at := SendBacklog), s.dataBacklog);
    }
  }

  lemma InPlaceBeat(s: State, m: Move)
    requires Balanced(s) && InPlace(s) && Enabled(s, m) && (m.CheckSync? || m.Ticked?)
    ensures InPlace(Step(s, m))
  {
    hide Done, All, Ordered, Cleared, Balanced;
    OrderedQuiet(s.accepted, s.log, [Beat(s.beats + 1, m.ok)]);
  }

  lemma InPlaceStep(s: State, m: Move)
    requires Balanced(s) && InPlace(s) && Enabled(s, m)
    ensures InPlace(Step(s, m))
  {
    match m
    case Push(kind) => InPlacePush(s, kind);
    case SendOne(ok) => InPlaceSend(s, ok);
    case CutControl => InPlaceControl(s, m);
    case FlushOne(_) => InPlaceControl(s, m);
    case PlaceBatch => InPlaceData(s, m);
    case TestData => InPlaceData(s, m);
    case CheckSync(_) => InPlaceBeat(s, m);
    case Ticked(_, _, _) => InPlaceBeat(s, m);
    case SyncCall => SyncCalls(s, Step(s, m));
    case Withdraw => SyncCalls(s, Step(s, m));
    case Answer(_) => SyncCalls(s, Step(s, m));
    case Receive(_, _) => Unmoved(s, m);
    case TakeControl => Unmoved(s, m);
    case FlushDone => Unmoved(s, m);
    case TakeData => Unmoved(s, m);
    case SentAll => Unmoved(s, m);
  }

  /** Nothing logged, nothing newly cleared to be sent. */
  lemma Unmoved(s: State, m: Move)
    requires InPlace(s) && Enabled(s, m) && (m.Receive? || m.TakeControl? || m.FlushDone? || m.TakeData? || m.SentAll?)
    ensures InPlace(Step(s, m))
  {
    hide Ordered, Cleared;
  }

  /** The place of the loop does not depend on the bookkeeping of sync(). */
  lemma SyncCalls(s: State, s': State)
    requires InPlace(s) && s'.accepted == s.accepted && s'.log == s.log && s'.at == s.at
    requires s'.batch == s.batch && s'.dataBacklog == s.dataBacklog
    ensures InPlace(s')
  {
  }

  lemma BalancedStep(s: State, m: Move)
    requires Balanced(s) && InPlace(s) && Enabled(s, m)
    ensures Balanced(Step(s, m))
  {
    hide Done, All, Ordered, Cleared;
    match m
    case Push(kind) => BalancedPush(s, kind);
    case TakeControl => BalancedControl(s, m);
    case CutControl => BalancedControl(s, m);
    case FlushOne(_) => BalancedControl(s, m);
    case TakeData => BalancedData(s, m);
    case PlaceBatch => BalancedData(s, m);
    case SendOne(_) => BalancedData(s, m);
    case CheckSync(ok) => BalancedBeat(s, ok);
    case Ticked(_, ok, _) => BalancedBeat(s, ok);
    case SyncCall =>
    case Withdraw =>
    case Answer(_) =>
    case Receive(_, _) =>
    case FlushDone =>
    case SentAll =>
    case TestData =>
  }

  // The barrier.

  /** Position p of the log holds heartbeat number `index`, after everything accepted before `mark`. */
  predicate Covers(log: seq<Event>, p: nat, index: nat, mark: nat) {
    p < |log| && log[p].Beat? && log[p].index == index && forall n: nat :: n < mark ==> IsLogged(log[..p], n)
  }

  /** Heartbeats are counted in the order they are tried; answers come back in that order. */
  predicate Counted(s: State) {
    && (forall i :: 0 <= i < |s.log| && s.log[i].Beat? ==> 1 <= s.log[i].index <= s.beats)
    && (forall i, j :: 0 <= i < j < |s.log| && s.log[i].Beat? && s.log[j].Beat? ==> s.log[i].index < s.log[j].index)
    && (forall i :: 0 <= i < |s.answered| ==> Beat(s.answered[i], true) in s.log)
    && (forall i, j :: 0 <= i < j < |s.answered| ==> s.answered[i] < s.answered[j])
    && s.acks <= |s.answered|
  }

  ghost predicate Targeted(s: State) {
    s.mark <= |s.accepted| && (s.target != 0 ==> exists p: nat :: Covers(s.log, p, s.target, s.mark))
  }

  lemma CoversMore(log: seq<Event>, es: seq<Event>, p: nat, index: nat, mark: nat)
    requires Covers(log, p, index, mark)
    ensures Covers(log + es, p, index, mark)
  {
    assert (log + es)[..p] == log[..p];
  }

  /** Logging anything but a heartbeat leaves the barrier's books alone. */
  lemma CountedQuiet(s: State, s': State, es: seq<Event>)
    requires Counted(s) && Targeted(s) && s'.log == s.log + es && forall i :: 0 <= i < |es| ==> !es[i].Beat?
    requires s'.beats == s.beats && s'.answered == s.answered && s'.acks == s.acks
    requires s'.target == s.target && s'.mark == s.mark && |s.accepted| <= |s'.accepted|
    ensures Counted(s') && Targeted(s')
  {
    if s.target != 0 {
      var p: nat :| Covers(s.log, p, s.target, s.mark);
      CoversMore(s.log, es, p, s.target, s.mark);
    }
  }

  lemma CountedBeat(s: State, ok: bool)
    requires Counted(s) && Targeted(s)
    ensures Counted(Beaten(s, ok)) && Targeted(Beaten(s, ok))
  {
    if s.target != 0 {
      var p: nat :| Covers(s.log, p, s.target, s.mark);
      CoversMore(s.log, [Beat(s.beats + 1, ok)], p, s.target, s.mark);
    }
  }

  /** With nothing waiting anywhere, everything accepted is logged. */
  lemma EverythingLogged(s: State)
    requires Balanced(s) && AllClear(s) && s.batch == []
    ensures forall n: nat :: n < |s.accepted| ==> IsLogged(s.log, n)
  {
    AllMembers(s.accepted, Control);
    AllMembers(s.accepted, Data);
    DoneMembers(s.accepted, s.log, Control);
    DoneMembers(s.accepted, s.log, Data);
    assert Done(s.accepted, s.log, Control) == All(s.accepted, Control);
    assert Done(s.accepted, s.log, Data) == All(s.accepted, Data);
    forall n: nat | n < |s.accepted|
      ensures IsLogged(s.log, n)
    {
      assert n in All(s.accepted, s.accepted[n]);
    }
  }

  /** The pending request's heartbeat goes out when nothing waits, so it covers everything before it. */
  lemma BarrierSet(s: State, ok: bool)
    requires Balanced(s) && Counted(s) && Targeted(s) && AllClear(s) && s.batch == []
    ensures Counted(Beaten(s, ok)) && Targeted(Beaten(s, ok).(target := s.beats + 1))
  {
    hide Done, All, Balanced;
    EverythingLogged(s);
    CountedBeat(s, ok);
    var log' := Beaten(s, ok).log;
    assert log'[..|s.log|] == s.log;
    assert Covers(log', |s.log|, s.beats + 1, s.mark);
  }

  lemma BarrierAnswer(s: State, g: nat)
    requires Counted(s) && Enabled(s, Answer(g))
    ensures Counted(Step(s, Answer(g)))
  {
  }

  /** The books depend only on the log and the counters. */
  lemma SameBooks(s: State, s': State)
    requires Counted(s) && s'.log == s.log && s'.beats == s.beats && s'.answered == s.answered && s'.acks <= |s.answered|
    ensures Counted(s')
    ensures Targeted(s) && s'.target == s.target && s'.mark == s.mark && |s.accepted| <= |s'.accepted| ==> Targeted(s')
  {
  }

  lemma BarrierStep(s: State, m: Move)
    requires Balanced(s) && InPlace(s) && Counted(s) && Targeted(s) && Enabled(s, m)
    ensures Counted(Step(s, m)) && Targeted(Step(s, m))
  {
    hide Done, All, Ordered, Cleared, Balanced, Counted, Targeted, Covers;
    AcksBounded(s);
    if m.CheckSync? || m.Ticked? {
      BarrierBeat(s, m);
    } else if m.Answer? {
      BarrierAnswer(s, m.index);
      TargetKept(s, Step(s, m));
    } else if m.SyncCall? {
      SameBooks(s, Step(s, m));
      TargetReset(Step(s, m));
    } else if m.CutControl? || m.FlushOne? || m.PlaceBatch? || m.SendOne? {
      BarrierQuiet(s, m);
    } else {
      SameBooks(s, Step(s, m));
    }
  }

  lemma BarrierBeat(s: State, m: Move)
    requires Balanced(s) && InPlace(s) && Counted(s) && Targeted(s) && Enabled(s, m) && (m.CheckSync? || m.Ticked?)
    ensures Counted(Step(s, m)) && Targeted(Step(s, m))
  {
    hide Done, All, Ordered, Cleared, Balanced, Counted, Targeted, Covers;
    var s' := Step(s, m);
    AcksBounded(s);
    if m.CheckSync? && AllClear(s) && s.requested {
      BarrierSet(s, m.ok);
      SameBooks(Beaten(s, m.ok), s');
      SameBooks(Beaten(s, m.ok).(target := s.beats + 1), s');
    } else if m.Ticked? && m.beat {
      CountedBeat(s, m.ok);
      SameBooks(Beaten(s, m.ok), s');
    } else {
      SameBooks(s, s');
    }
  }

  lemma BarrierQuiet(s: State, m: Move)
    requires Counted(s) && Targeted(s) && Enabled(s, m) && (m.CutControl? || m.FlushOne? || m.PlaceBatch? || m.SendOne?)
    ensures Counted(Step(s, m)) && Targeted(Step(s, m))
  {
    hide Counted, Targeted;
    var s' := Step(s, m);
    var es := s'.log[|s.log|..];
    assert s'.log == s.log + es;
    CountedQuiet(s, s', es);
  }

  lemma AcksBounded(s: State)
    requires Counted(s)
    ensures s.acks <= |s.answered|
  {
  }

  lemma TargetKept(s: State, s': State)
    requires Targeted(s) && s'.log == s.log && s'.target == s.target && s'.mark == s.mark && s'.accepted == s.accepted
    ensures Targeted(s')
  {
  }

  lemma TargetReset(s: State)
    requires s.target == 0 && s.mark <= |s.accepted|
    ensures Targeted(s)
  {
  }

  // Whole runs.

  ghost predicate Inv(s: State) { Balanced(s) && InPlace(s) && Counted(s) && Targeted(s) }

  lemma StepKeeps(s: State, m: Move)
    requires Inv(s) && Enabled(s, m)
    ensures Inv(Step(s, m))
  {
    hide Balanced, InPlace, Counted, Targeted, Step;
    BalancedStep(s, m);
    InPlaceStep(s, m);
    BarrierStep(s, m);
  }

  ghost predicate Runs(s: State, ms: seq<Move>, s': State)
    decreases |ms|
  {
    if ms == [] then s == s' else Enabled(s, ms[0]) && Runs(Step(s, ms[0]), ms[1..], s')
  }

  lemma {:induction false} RunKeeps(s: State, ms: seq<Move>, s': State)
    requires Inv(s) && Runs(s, ms, s')
    ensures Inv(s')
    decreases |ms|
  {
    hide Inv, Step, Enabled;
    if ms == [] {
    } else {
      StepKeeps(s, ms[0]);
      RunKeeps(Step(s, ms[0]), ms[1..], s');
    }
  }

  /** Data never overtakes control, for any interleaving of producers with the loop: whenever a data
      message was put on the socket, every control message accepted before it had already been sent
      or counted as dropped. */
  lemma DataNeverOvertakesControl(ms: seq<Move>, s: State, i: nat, c: nat)
    requires Runs(START, ms, s) && i < |s.log| && s.log[i].Sent? && c < s.log[i].stamp < |s.accepted|
    requires s.accepted[s.log[i].stamp] == Data && s.accepted[c] == Control
    ensures exists j :: 0 <= j < i && s.log[j] in {Sent(c), Dropped(c)}
  {
    RunKeeps(START, ms, s);
    assert ControlAhead(s.accepted, s.log[..i], s.log[i].stamp);
    assert IsLogged(s.log[..i], c);
    var e := if Sent(c) in s.log[..i] then Sent(c) else Dropped(c);
    var j :| 0 <= j < i && s.log[..i][j] == e;
  }

  /** Conservation and order: at every moment, for each kind, what has been sent or dropped followed by
      what is backlogged, in hand and queued is everything accepted, each message once and in the
      order it was accepted. */
  lemma NothingLostOrReordered(ms: seq<Move>, s: State)
    requires Runs(START, ms, s)
    ensures Done(s.accepted, s.log, Control) + s.controlBacklog + s.controlQueue == All(s.accepted, Control)
    ensures Done(s.accepted, s.log, Data) + s.dataBacklog + s.batch + s.dataQueue == All(s.accepted, Data)
  {
    RunKeeps(START, ms, s);
  }

  lemma {:induction false} AnswersRunAhead(s: State, k: nat)
    requires Counted(s) && k < |s.answered|
    ensures s.answered[k] >= k + 1
  {
    if k == 0 {
      assert Beat(s.answered[0], true) in s.log;
      var i :| 0 <= i < |s.log| && s.log[i] == Beat(s.answered[0], true);
    } else {
      AnswersRunAhead(s, k - 1);
    }
  }

  /** The barrier: when sync() returns true, everything accepted before the call was sent or counted as
      dropped before a heartbeat that went onto the wire and that the broker has answered, even if
      the pipe refused some of the heartbeats counted. */
  lemma SyncMeansProcessed(ms: seq<Move>, s: State)
    requires Runs(START, ms, s) && s.target != 0 && s.acks >= s.target
    ensures s.acks <= |s.answered|
    ensures exists p: nat :: p < |s.log| && s.log[p].Beat? && s.log[p].wired && s.log[p].index in s.answered[..s.acks]
              && forall n: nat :: n < s.mark ==> IsLogged(s.log[..p], n)
  {
    RunKeeps(START, ms, s);
    hide Balanced, InPlace, Runs, IsLogged;
    var p: nat :| Covers(s.log, p, s.target, s.mark);
    AnswersRunAhead(s, s.acks - 1);
    var g := s.answered[s.acks - 1];
    var q :| 0 <= q < |s.log| && s.log[q] == Beat(g, true);
    assert p <= q;
    assert s.answered[..s.acks][s.acks - 1] == g;
    forall n: nat | n < s.mark
      ensures IsLogged(s.log[..q], n)
    {
      StaysLogged(s.log, p, q, n);
    }
  }

  lemma StaysLogged(log: seq<Event>, p: nat, q: nat, n: nat)
    requires p <= q <= |log| && IsLogged(log[..p], n)
    ensures IsLogged(log[..q], n)
  {
    assert log[..p] == log[..q][..p];
  }
}
