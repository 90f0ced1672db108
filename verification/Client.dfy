/** An application client (common/connectionmanager.cpp): callbacks registered per topic, one broker
    subscription per topic for the union of their scopes, and dispatch of what is delivered. */
module Client {
  import opened Keys
  import opened Replica
  import opened BrokerCore
  import opened Broker
  import Text

  /** The scopes a registration can ask for: Local, Mesh or Any. */
  type Scope = o: Origin | o != NO_SCOPE witness ANY

  datatype Entry = Entry(instance: nat, func: nat, scope: Scope)

  /** Callback lists by topic, in the order they were registered. */
  type Handlers = map<Topic, seq<Entry>>

  function Union(list: seq<Entry>): Origin {
    if list == [] then NO_SCOPE else Widen(Union(list[..|list| - 1]), list[|list| - 1].scope)
  }

  /** The union accepts an origin exactly when one of the callbacks does. */
  lemma {:induction false} UnionAccepts(list: seq<Entry>, isLocal: bool)
    ensures ScopeAccepts(Union(list), isLocal) <==> exists e :: e in list && ScopeAccepts(e.scope, isLocal)
    ensures list != [] ==> Union(list) != NO_SCOPE
  {
    if list == [] {
    } else {
      var init, last := list[..|list| - 1], list[|list| - 1];
      assert list == init + [last];
      UnionAccepts(init, isLocal);
    }
  }

  function ListOf(h: Handlers, t: Topic): seq<Entry> { if t in h then h[t] else [] }

  /** The callbacks left once an instance's have been taken out. */
  function Without(list: seq<Entry>, instance: nat): seq<Entry> {
    if list == [] then []
    else
      var init, last := list[..|list| - 1], list[|list| - 1];
      Without(init, instance) + if last.instance != instance then [last] else []
  }

  function Registered(h: Handlers, key: Topic, e: Entry): Handlers {
    h[key := ListOf(h, key) + [e]]
  }

  function Unregistered(h: Handlers, key: Topic, instance: nat): Handlers {
    if key !in h then h
    else
      var next := Without(h[key], instance);
      if next == [] then h - {key} else h[key := next]
  }

  /** A SUBSCRIBE as the broker decodes it. */
  function Subscribe(h: Handlers, key: Topic): Ctl {
    Sub(key, DecodeScope(EncodeScope(Union(ListOf(h, key)))))
  }

  function SubscribeAll(h: Handlers, keys: seq<Topic>): (ms: seq<Ctl>)
    ensures |ms| == |keys| && forall k :: 0 <= k < |ms| ==> ms[k] == Subscribe(h, keys[k])
  {
    seq(|keys|, k requires 0 <= k < |keys| => Subscribe(h, keys[k]))
  }

  /** A topic without a callback list is erased, never left empty. */
  predicate Live(h: Handlers) { forall t :: t in h ==> h[t] != [] }

  /** Within what a broker grants one client. */
  predicate Capped(h: Handlers) {
    |h| <= MAX_SUBSCRIPTIONS && forall t :: t in h ==> LegalTopic(t)
  }

  datatype Client = Client(handlers: Handlers, connected: bool)

  datatype Sent = Sent(client: Client, out: seq<Ctl>)

  function Register(c: Client, key: Topic, e: Entry): Sent {
    var h := Registered(c.handlers, key, e);
    Sent(c.(handlers := h), if c.connected then [Subscribe(h, key)] else [])
  }

  function Unregister(c: Client, key: Topic, instance: nat): Sent {
    var h := Unregistered(c.handlers, key, instance);
    Sent(c.(handlers := h),
         if key !in c.handlers then []
         else if key !in h then [Unsub(key)]
         else if c.connected && Union(h[key]) != Union(c.handlers[key]) then [Subscribe(h, key)]
         else [])
  }

  function Everything(h: Handlers): seq<Ctl> { SubscribeAll(h, Text.Sorted(h.Keys)) }

  function Status(c: Client, connected: bool): Sent {
    Sent(c.(connected := connected), if connected then [Connect] + Everything(c.handlers) else [])
  }

  // The replica the broker keeps, over whole runs.

  /** Each topic with the union of what its callbacks want. */
  function Unions(h: Handlers): View { map t | t in h :: Union(h[t]) }

  /** Online the broker has to hold every union; online or not, no topic without a callback. */
  function ClientGoal(c: Client): Goal {
    Goal(if c.connected then Unions(c.handlers) else map[], c.handlers.Keys)
  }

  lemma SubscribeAsksTheUnion(h: Handlers, key: Topic)
    requires key in h && h[key] != []
    ensures Subscribe(h, key) == Sub(key, Unions(h)[key])
  {
    UnionAccepts(h[key], true);
    ScopeRoundTrip(Union(h[key]));
  }

  lemma RegisterCarries(c: Client, key: Topic, e: Entry)
    requires Live(c.handlers) && Capped(Register(c, key, e).client.handlers)
    ensures Carries(ClientGoal(c), ClientGoal(Register(c, key, e).client), Register(c, key, e).out, MAX_SUBSCRIPTIONS)
  {
    var r := Register(c, key, e);
    var g, g' := ClientGoal(c), ClientGoal(r.client);
    SubscribeAsksTheUnion(r.client.handlers, key);
    hide Subscribe, Union, Carries;
    if c.connected {
      SubCarries(g, g', key, g'.must[key], MAX_SUBSCRIPTIONS);
    } else {
      WiderCarries(g, g', MAX_SUBSCRIPTIONS);
    }
  }

  /** What unregistering does to the topics and their unions. */
  lemma UnregisterUnions(c: Client, key: Topic, instance: nat)
    requires Live(c.handlers)
    ensures var r := Unregister(c, key, instance);
            var h, h', u, u' := c.handlers, r.client.handlers, Unions(c.handlers), Unions(r.client.handlers);
            && r.client.connected == c.connected
            && (r.out == [] ==> h'.Keys == h.Keys && (c.connected ==> u' == u))
            && (r.out != [] && key in h' ==> r.out == [Sub(key, u'[key])] && h'.Keys == h.Keys && u' == u[key := u'[key]])
            && (r.out != [] && key !in h' ==> r.out == [Unsub(key)] && h'.Keys == h.Keys - {key} && u' == u - {key})
  {
    if key !in c.handlers {
    } else if Without(c.handlers[key], instance) == [] {
      ErasedUnions(c.handlers, key);
    } else {
      var next := Without(c.handlers[key], instance);
      ReplacedUnions(c.handlers, key, next);
      SubscribeAsksTheUnion(c.handlers[key := next], key);
      hide Subscribe, Union, Without, Unions;
      assert Unions(c.handlers)[key] == Union(c.handlers[key]) by { UnionsAt(c.handlers, key); }
    }
  }

  lemma UnionsAt(h: Handlers, key: Topic)
    requires key in h
    ensures key in Unions(h) && Unions(h)[key] == Union(h[key])
  {
  }

  lemma ErasedUnions(h: Handlers, key: Topic)
    ensures (h - {key}).Keys == h.Keys - {key} && Unions(h - {key}) == Unions(h) - {key}
  {
    hide Union;
  }

  lemma ReplacedUnions(h: Handlers, key: Topic, list: seq<Entry>)
    requires key in h
    ensures h[key := list].Keys == h.Keys
    ensures Unions(h[key := list]) == Unions(h)[key := Union(list)] && key in Unions(h)
    ensures Union(list) == Union(h[key]) ==> Unions(h[key := list]) == Unions(h)
  {
    hide Union;
  }

  lemma UnregisterCarries(c: Client, key: Topic, instance: nat)
    requires Live(c.handlers) && Capped(c.handlers)
    ensures Carries(ClientGoal(c), ClientGoal(Unregister(c, key, instance).client),
                    Unregister(c, key, instance).out, MAX_SUBSCRIPTIONS)
  {
    UnregisterUnions(c, key, instance);
    var r := Unregister(c, key, instance);
    var g, g' := ClientGoal(c), ClientGoal(r.client);
    hide Unregister, Unions, Carries;
    if r.out == [] {
      WiderCarries(g, g', MAX_SUBSCRIPTIONS);
    } else if key in r.client.handlers {
      UnregisterNarrows(c, key, instance);
    } else {
      UnsubCarries(g, g', key, MAX_SUBSCRIPTIONS);
    }
  }

  lemma UnregisterNarrows(c: Client, key: Topic, instance: nat)
    requires Live(c.handlers) && Capped(c.handlers)
    requires Unregister(c, key, instance).out != [] && key in Unregister(c, key, instance).client.handlers
    ensures Carries(ClientGoal(c), ClientGoal(Unregister(c, key, instance).client),
                    Unregister(c, key, instance).out, MAX_SUBSCRIPTIONS)
  {
    UnregisterUnions(c, key, instance);
    var r := Unregister(c, key, instance);
    assert c.connected && key in c.handlers;
    hide Unregister, Carries;
    var scope := Unions(r.client.handlers)[key];
    hide Union;
    SubCarries(ClientGoal(c), ClientGoal(r.client), key, scope, MAX_SUBSCRIPTIONS);
  }

  predicate HoldsUnion(h: Handlers, v: View, t: Topic) { t in h && t in v && v[t] == Union(h[t]) }

  lemma {:induction false} ApplySubscribeAll(h: Handlers, v: View, keys: seq<Topic>)
    requires Live(h) && forall k :: k in keys ==> k in h
    ensures forall t :: t in keys || HoldsUnion(h, v, t) ==> HoldsUnion(h, Apply(v, SubscribeAll(h, keys)), t)
    decreases |keys|
  {
    if keys == [] {
    } else {
      var ms := SubscribeAll(h, keys);
      SubscribeAsksTheUnion(h, keys[0]);
      var v' := Apply1(v, ms[0]);
      assert ms[1..] == SubscribeAll(h, keys[1..]);
      ApplySubscribeAll(h, v', keys[1..]);
      forall t | t in keys || HoldsUnion(h, v, t)
        ensures t in keys[1..] || HoldsUnion(h, v', t)
      {
      }
    }
  }

  /** Sending everything completes any view the client allows: at connect and after a RESET. */
  lemma EverythingRestores(c: Client)
    requires Live(c.handlers) && Capped(c.handlers)
    ensures Restores(ClientGoal(c), Everything(c.handlers), MAX_SUBSCRIPTIONS)
    ensures !HasConnect(Everything(c.handlers))
  {
    var ms, g := Everything(c.handlers), ClientGoal(c);
    forall v | Safe(g, v)
      ensures Fits(v, ms, MAX_SUBSCRIPTIONS) && Safe(g, Apply(v, ms)) && Exact(g, Apply(v, ms))
    {
      Within(v, ms, g.may, MAX_SUBSCRIPTIONS);
      ApplySubscribeAll(c.handlers, v, Text.Sorted(c.handlers.Keys));
      forall t | t in g.must
        ensures t in Apply(v, ms) && g.must[t] == Apply(v, ms)[t]
      {
        assert HoldsUnion(c.handlers, Apply(v, ms), t);
      }
    }
  }

  datatype State = State(client: Client, session: Session)

  const START := State(Client(map[], false), Session(false, map[], [], 0))

  /** The application registers and unregisters, the connection goes up and down, RESETs are
      answered; the broker receives, hears something else, or forgets the client. */
  datatype Event =
    | Add(key: Topic, entry: Entry)
    | Drop(key: Topic, instance: nat)
    | Online(connected: bool)
    | Answer
    | Arrives
    | Heard
    | Forgets(lost: nat, kept: nat)

  predicate Enabled(s: State, e: Event) {
    match e
    case Answer => s.session.resets > 0
    case Arrives => s.session.chan != []
    case Forgets(lost, kept) => lost <= |s.session.chan| && kept <= s.session.resets
    case _ => true
  }

  function Did(s: State, r: Sent): State { State(r.client, Push(s.session, r.out)) }

  function Step(s: State, e: Event): State
    requires Enabled(s, e)
  {
    match e
    case Add(key, entry) => Did(s, Register(s.client, key, entry))
    case Drop(key, instance) => Did(s, Unregister(s.client, key, instance))
    case Online(connected) => Did(s, Status(s.client, connected))
    case Answer => s.(session := AnswerReset(s.session, Everything(s.client.handlers)))
    case Arrives => s.(session := Receive(s.session))
    case Heard => s.(session := Poke(s.session))
    case Forgets(lost, kept) => s.(session := Forget(s.session, lost, kept))
  }

  // Whatever is registered: nothing stranded, and the broker's limits kept.

  /** What a broker grants one client. */
  predicate Granted(v: View) { |v| <= MAX_SUBSCRIPTIONS && forall t :: t in v ==> LegalTopic(t) }

  ghost predicate Safely(s: State) {
    && Live(s.client.handlers)
    && Pending(s.session).Keys <= s.client.handlers.Keys
    && Granted(s.session.view)
    && (!s.session.known ==> s.session.view == map[])
  }

  lemma {:induction false} ApplyInside(v: View, ms: seq<Ctl>, m: set<Topic>)
    requires v.Keys <= m && forall i :: 0 <= i < |ms| && ms[i].Sub? ==> ms[i].topic in m
    ensures Apply(v, ms).Keys <= m
    decreases |ms|
  {
    if ms == [] {
    } else {
      ApplyInside(Apply1(v, ms[0]), ms[1..], m);
    }
  }

  lemma PushSafely(s: State, r: Sent)
    requires Safely(s) && Live(r.client.handlers)
    requires forall v: View :: v.Keys <= s.client.handlers.Keys ==> Apply(v, r.out).Keys <= r.client.handlers.Keys
    ensures Safely(Did(s, r))
  {
    ApplyConcat(s.session.view, s.session.chan, r.out);
  }

  lemma AcceptGranted(v: View, m: Ctl)
    requires Granted(v)
    ensures Granted(Accept(v, m))
  {
    var v' := Accept(v, m);
    if m.Sub? && m.topic !in v {
      assert v'.Keys <= v.Keys + {m.topic};
      Text.SubsetSize(v'.Keys, v.Keys + {m.topic});
      assert |v'| == |v'.Keys| && |v| == |v.Keys|;
    } else {
      Text.SubsetSize(v'.Keys, v.Keys);
      assert |v'| == |v'.Keys| && |v| == |v.Keys|;
    }
  }

  lemma RegisterInside(c: Client, key: Topic, e: Entry)
    requires Live(c.handlers)
    ensures var r := Register(c, key, e);
            Live(r.client.handlers) && forall v: View :: v.Keys <= c.handlers.Keys ==> Apply(v, r.out).Keys <= r.client.handlers.Keys
  {
    var r := Register(c, key, e);
    forall v: View | v.Keys <= c.handlers.Keys ensures Apply(v, r.out).Keys <= r.client.handlers.Keys {
      ApplyInside(v, r.out, r.client.handlers.Keys);
    }
  }

  lemma UnregisterInside(c: Client, key: Topic, instance: nat)
    requires Live(c.handlers)
    ensures var r := Unregister(c, key, instance);
            Live(r.client.handlers) && forall v: View :: v.Keys <= c.handlers.Keys ==> Apply(v, r.out).Keys <= r.client.handlers.Keys
  {
    var r := Unregister(c, key, instance);
    hide Union, Without;
    forall v: View | v.Keys <= c.handlers.Keys ensures Apply(v, r.out).Keys <= r.client.handlers.Keys {
      if r.out == [Unsub(key)] {
        assert Apply(v, r.out) == v - {key};
      } else {
        assert r.client.handlers.Keys == c.handlers.Keys;
        ApplyInside(v, r.out, r.client.handlers.Keys);
      }
    }
  }

  lemma EverythingInside(h: Handlers, lead: seq<Ctl>)
    requires forall i :: 0 <= i < |lead| ==> lead[i] == Connect
    ensures forall v: View :: v.Keys <= h.Keys ==> Apply(v, lead + Everything(h)).Keys <= h.Keys
  {
    var ms := lead + Everything(h);
    forall v: View | v.Keys <= h.Keys ensures Apply(v, ms).Keys <= h.Keys {
      ApplyInside(v, ms, h.Keys);
    }
  }

  lemma StepSafely(s: State, e: Event)
    requires Safely(s) && Enabled(s, e)
    ensures Safely(Step(s, e))
  {
    hide Apply, Everything, Union, Subscribe, Granted, Accept;
    var c := s.client;
    match e
    case Add(key, entry) => RegisterInside(c, key, entry); PushSafely(s, Register(c, key, entry));
    case Drop(key, instance) => UnregisterInside(c, key, instance); PushSafely(s, Unregister(c, key, instance));
    case Online(connected) => StatusInside(c, connected); PushSafely(s, Status(c, connected));
    case Answer =>
      EverythingInside(c.handlers, []);
      assert [] + Everything(c.handlers) == Everything(c.handlers);
      PushSafely(s, Sent(c, Everything(c.handlers)));
    case Arrives => ReceiveSafe(s.session); AcceptGranted(s.session.view, s.session.chan[0]);
    case Heard =>
    case Forgets(lost, kept) =>
      ApplySuffix(s.session.view, s.session.chan, lost);
      NothingGranted();
  }

  lemma NothingGranted()
    ensures Granted(map[])
  {
  }

  lemma StatusInside(c: Client, connected: bool)
    ensures var r := Status(c, connected);
            forall v: View :: v.Keys <= c.handlers.Keys ==> Apply(v, r.out).Keys <= r.client.handlers.Keys
  {
    EverythingInside(c.handlers, [Connect]);
  }

  // Within the broker's limits: complete too.

  ghost predicate Inv(s: State) {
    Live(s.client.handlers) && Capped(s.client.handlers) && Replica.Inv(s.session, ClientGoal(s.client), MAX_SUBSCRIPTIONS)
  }

  lemma StatusKeeps(s: State, connected: bool)
    requires Inv(s)
    ensures Inv(Did(s, Status(s.client, connected)))
  {
    var r := Status(s.client, connected);
    var g, g' := ClientGoal(s.client), ClientGoal(r.client);
    if connected {
      EverythingRestores(r.client);
      ConnectRestores(g', Everything(s.client.handlers), MAX_SUBSCRIPTIONS);
      assert forall i :: 0 < i < |r.out| ==> r.out[i] == Everything(s.client.handlers)[i - 1];
      RestoreKeeps(s.session, g, g', r.out, MAX_SUBSCRIPTIONS);
    } else {
      PushKeeps(s.session, g, g', [], MAX_SUBSCRIPTIONS);
    }
  }

  lemma CappedAfterDrop(h: Handlers, key: Topic, instance: nat)
    requires Capped(h) && Live(h)
    ensures Capped(Unregistered(h, key, instance)) && Live(Unregistered(h, key, instance))
  {
    Text.SubsetSize(Unregistered(h, key, instance).Keys, h.Keys);
  }

  lemma StepKeeps(s: State, e: Event)
    requires Inv(s) && Enabled(s, e) && Capped(Step(s, e).client.handlers)
    ensures Inv(Step(s, e))
  {
    hide Replica.Inv, Carries, Restores, Unions, Everything, Union;
    match e
    case Add(key, entry) =>
      RegisterCarries(s.client, key, entry);
      var r := Register(s.client, key, entry);
      PushKeeps(s.session, ClientGoal(s.client), ClientGoal(r.client), r.out, MAX_SUBSCRIPTIONS);
    case Drop(key, instance) =>
      UnregisterCarries(s.client, key, instance);
      CappedAfterDrop(s.client.handlers, key, instance);
      var r := Unregister(s.client, key, instance);
      PushKeeps(s.session, ClientGoal(s.client), ClientGoal(r.client), r.out, MAX_SUBSCRIPTIONS);
    case Online(connected) => StatusKeeps(s, connected);
    case Answer =>
      EverythingRestores(s.client);
      AnswerKeeps(s.session, ClientGoal(s.client), Everything(s.client.handlers), MAX_SUBSCRIPTIONS);
    case Arrives => ReceiveKeeps(s.session, ClientGoal(s.client), MAX_SUBSCRIPTIONS);
    case Heard => PokeKeeps(s.session, ClientGoal(s.client), MAX_SUBSCRIPTIONS);
    case Forgets(lost, kept) => ForgetKeeps(s.session, ClientGoal(s.client), MAX_SUBSCRIPTIONS, lost, kept);
  }

  ghost predicate Runs(s: State, es: seq<Event>, s': State)
    decreases |es|
  {
    if es == [] then s' == s else Enabled(s, es[0]) && Runs(Step(s, es[0]), es[1..], s')
  }

  /** What is registered stays within what a broker grants one client. */
  ghost predicate StaysCapped(s: State, es: seq<Event>)
    decreases |es|
  {
    Capped(s.client.handlers) && (es == [] || (Enabled(s, es[0]) && StaysCapped(Step(s, es[0]), es[1..])))
  }

  lemma {:induction false} RunSafely(s: State, es: seq<Event>, s': State)
    requires Safely(s) && Runs(s, es, s')
    ensures Safely(s')
    decreases |es|
  {
    hide Safely, Step, Enabled;
    if es == [] {
    } else {
      StepSafely(s, es[0]);
      RunSafely(Step(s, es[0]), es[1..], s');
    }
  }

  lemma {:induction false} RunKeeps(s: State, es: seq<Event>, s': State)
    requires Inv(s) && Runs(s, es, s') && StaysCapped(s, es)
    ensures Inv(s')
    decreases |es|
  {
    hide Inv, Step, Enabled, Capped;
    if es == [] {
    } else {
      StepKeeps(s, es[0]);
      RunKeeps(Step(s, es[0]), es[1..], s');
    }
  }

  lemma InvExact(s: State)
    requires Inv(s) && s.client.connected && Steady(s.session)
    ensures Pending(s.session) == Unions(s.client.handlers)
  {
    var p, u := Pending(s.session), Unions(s.client.handlers);
    assert p.Keys == u.Keys;
    assert forall t :: t in u ==> p[t] == u[t];
  }

  lemma StartOk()
    ensures Inv(START) && Safely(START)
  {
  }

  /** In every run: the broker's view, once what is in flight has arrived, never holds a topic without
      a callback, connected or not. And if what is registered stays within what the broker grants one
      client, then while the client is connected and no RESET is owed that view is exactly each
      topic with the union of its callbacks' scopes. */
  lemma ReplicaConverges(es: seq<Event>, s: State)
    requires Runs(START, es, s)
    ensures Pending(s.session).Keys <= s.client.handlers.Keys
    ensures StaysCapped(START, es) && s.client.connected && Steady(s.session) ==> Pending(s.session) == Unions(s.client.handlers)
  {
    StartOk();
    RunSafely(START, es, s);
    if StaysCapped(START, es) && s.client.connected && Steady(s.session) {
      RunKeeps(START, es, s);
      InvExact(s);
    }
  }

  /** The limits are real: with nothing in flight, a view that is exact means the registrations are
      within them. */
  lemma ExactNeedsCaps(es: seq<Event>, s: State)
    requires Runs(START, es, s) && s.session.chan == [] && s.session.view == Unions(s.client.handlers)
    ensures Capped(s.client.handlers)
  {
    StartOk();
    RunSafely(START, es, s);
    var h := s.client.handlers;
    assert Unions(h).Keys == h.Keys;
    assert |Unions(h)| == |Unions(h).Keys| && |h| == |h.Keys|;
  }

  // Dispatch.

  function Accepting(list: seq<Entry>, isLocal: bool): seq<Entry> {
    if list == [] then []
    else
      var init, last := list[..|list| - 1], list[|list| - 1];
      Accepting(init, isLocal) + if ScopeAccepts(last.scope, isLocal) then [last] else []
  }

  /** The callbacks a topic concerns: its own, then the wildcard ones. */
  function Concerned(h: Handlers, t: Topic): seq<Entry> {
    ListOf(h, t) + if t == WILDCARD then [] else ListOf(h, WILDCARD)
  }

  /** How often a callback is owed a message: once per registration the topic concerns if its own
      scope accepts the origin, never otherwise. */
  function Owed(h: Handlers, t: Topic, isLocal: bool, e: Entry): nat {
    if ScopeAccepts(e.scope, isLocal) then multiset(Concerned(h, t))[e] else 0
  }

  /** Every callback is called exactly as often as it is owed. */
  ghost predicate AsOwed(called: seq<Entry>, h: Handlers, t: Topic, isLocal: bool) {
    forall e :: multiset(called)[e] == Owed(h, t, isLocal, e)
  }

  lemma {:induction false} AcceptingConcat(a: seq<Entry>, b: seq<Entry>, isLocal: bool)
    ensures Accepting(a + b, isLocal) == Accepting(a, isLocal) + Accepting(b, isLocal)
  {
    if b == [] {
      assert a + b == a;
    } else {
      var init := b[..|b| - 1];
      assert (a + b)[..|a + b| - 1] == a + init;
      AcceptingConcat(a, init, isLocal);
    }
  }

  lemma {:induction false} AcceptingCounts(list: seq<Entry>, isLocal: bool, e: Entry)
    ensures multiset(Accepting(list, isLocal))[e] ==
            if ScopeAccepts(e.scope, isLocal) then multiset(list)[e] else 0
  {
    if list == [] {
    } else {
      var init, last := list[..|list| - 1], list[|list| - 1];
      assert list == init + [last];
      AcceptingCounts(init, isLocal, e);
    }
  }

  /** What a delivered message calls when the client takes it for local or not. */
  function Triggered(h: Handlers, t: Topic, isLocal: bool): seq<Entry> {
    Accepting(Concerned(h, t), isLocal)
  }

  /** What a routed message calls: nothing unless the broker, which has its own idea of the origin,
      sends it to this client. */
  function Called(b: Core, me: ClientId, h: Handlers, t: Topic, sender: ClientId, fromPeer: bool, isLocal: bool): seq<Entry> {
    if Recipient(b, t, sender, fromPeer, me) then Triggered(h, t, isLocal) else []
  }

  /** Broker and client in step: the session is known and holds every union. */
  predicate InStep(b: Core, me: ClientId, h: Handlers) {
    me in b.clients && ViewOf(b.rel, me) == Unions(h)
  }

  predicate SomeAccepts(list: seq<Entry>, isLocal: bool) {
    exists e :: e in list && ScopeAccepts(e.scope, isLocal)
  }

  lemma DeliveredIffWanted(b: Core, me: ClientId, h: Handlers, t: Topic, sender: ClientId, fromPeer: bool)
    requires InStep(b, me, h) && (fromPeer || me != sender)
    ensures Recipient(b, t, sender, fromPeer, me) <==> SomeAccepts(Concerned(h, t), !fromPeer)
  {
    HeldIffWanted(b, me, h, t, !fromPeer);
    HeldIffWanted(b, me, h, WILDCARD, !fromPeer);
    var own, wild := ListOf(h, t), ListOf(h, WILDCARD);
    assert forall e :: e in Concerned(h, t) <==> e in own || e in wild;
  }

  lemma HeldIffWanted(b: Core, me: ClientId, h: Handlers, t: Topic, isLocal: bool)
    requires InStep(b, me, h)
    ensures Accepts(b.rel, me, t, isLocal) <==> SomeAccepts(ListOf(h, t), isLocal)
  {
    UnionAccepts(ListOf(h, t), isLocal);
    assert (me, t) in b.rel <==> t in ViewOf(b.rel, me);
    assert t in h ==> Unions(h)[t] == Union(h[t]);
  }

  /** Union subscription and client filter together call every callback exactly as often as it is
      owed if and only if broker and client agree on the origin, or nothing is registered for the
      topic, or some callback wants what the broker takes the origin to be. */
  lemma UnionRefinesCallbacks(b: Core, me: ClientId, h: Handlers, t: Topic, sender: ClientId, fromPeer: bool, isLocal: bool)
    requires InStep(b, me, h) && (fromPeer || me != sender)
    ensures AsOwed(Called(b, me, h, t, sender, fromPeer, isLocal), h, t, isLocal) <==>
            isLocal == !fromPeer || Concerned(h, t) == [] || SomeAccepts(Concerned(h, t), !fromPeer)
  {
    var all, called := Concerned(h, t), Called(b, me, h, t, sender, fromPeer, isLocal);
    DeliveredIffWanted(b, me, h, t, sender, fromPeer);
    if SomeAccepts(all, !fromPeer) {
      forall e ensures multiset(called)[e] == Owed(h, t, isLocal, e) {
        AcceptingCounts(all, isLocal, e);
      }
    } else if all != [] && isLocal != !fromPeer {
      var e := all[0];
      assert e in all && ScopeAccepts(e.scope, isLocal);
      assert Owed(h, t, isLocal, e) > 0 && multiset(called)[e] == 0;
    } else {
      forall e ensures multiset(called)[e] == Owed(h, t, isLocal, e) {
      }
    }
  }

  /** A client that takes every message for local - as it does while it does not know its broker's id
      - calls every callback concerned exactly when none of them is scoped to mesh traffic only. */
  lemma {:induction false} UnknownBrokerCallsAll(list: seq<Entry>)
    ensures Accepting(list, true) == list <==> forall e :: e in list ==> e.scope != MESH_ONLY
    ensures |Accepting(list, true)| <= |list|
  {
    if list == [] {
    } else {
      var init, last := list[..|list| - 1], list[|list| - 1];
      assert list == init + [last];
      UnknownBrokerCallsAll(init);
      if Accepting(list, true) == list {
        assert |Accepting(init, true)| == |init| && Accepting(init, true) == list[..|init|] && last.scope.local;
      }
    }
  }

  // The count of scoped registrations.

  function Scoped(list: seq<Entry>): nat {
    if list == [] then 0
    else Scoped(list[..|list| - 1]) + if list[|list| - 1].scope != ANY then 1 else 0
  }

  lemma ScopedSnoc(list: seq<Entry>, e: Entry)
    ensures Scoped(list + [e]) == Scoped(list) + if e.scope != ANY then 1 else 0
  {
    assert (list + [e])[..|list|] == list;
  }

  ghost function ScopedIn(h: Handlers, keys: set<Topic>): nat {
    if keys == {} then 0
    else var k :| k in keys; Scoped(ListOf(h, k)) + ScopedIn(h, keys - {k})
  }

  lemma {:induction false} ScopedPull(h: Handlers, keys: set<Topic>, k: Topic)
    requires k in keys
    ensures ScopedIn(h, keys) == Scoped(ListOf(h, k)) + ScopedIn(h, keys - {k})
  {
    var j :| j in keys && ScopedIn(h, keys) == Scoped(ListOf(h, j)) + ScopedIn(h, keys - {j});
    if j != k {
      ScopedPull(h, keys - {j}, k);
      ScopedPull(h, keys - {k}, j);
      assert keys - {j} - {k} == keys - {k} - {j};
    }
  }

  lemma {:induction false} ScopedSame(h: Handlers, h': Handlers, keys: set<Topic>)
    requires forall k :: k in keys ==> ListOf(h, k) == ListOf(h', k)
    ensures ScopedIn(h, keys) == ScopedIn(h', keys)
  {
    if keys == {} {
    } else {
      var k :| k in keys;
      ScopedPull(h, keys, k);
      ScopedPull(h', keys, k);
      ScopedSame(h, h', keys - {k});
    }
  }

  /** The registrations that asked for something narrower than Any. */
  ghost function ScopedHandlers(h: Handlers): nat { ScopedIn(h, h.Keys) }

  /** Changing one topic's list moves the count by that list's own. */
  lemma ScopedMoves(h: Handlers, h': Handlers, key: Topic)
    requires forall k :: k != key ==> ListOf(h, k) == ListOf(h', k) && (k in h <==> k in h')
    ensures ScopedHandlers(h') == ScopedHandlers(h) - Scoped(ListOf(h, key)) + Scoped(ListOf(h', key))
  {
    var rest := h.Keys - {key};
    assert rest == h'.Keys - {key};
    ScopedSame(h, h', rest);
    if key in h { ScopedPull(h, h.Keys, key); } else { assert rest == h.Keys; }
    if key in h' { ScopedPull(h', h'.Keys, key); } else { assert rest == h'.Keys; }
  }

  /** No scoped registration anywhere: a message's origin changes nothing. */
  lemma UnscopedIgnoresOrigin(h: Handlers, t: Topic, isLocal: bool)
    requires ScopedHandlers(h) == 0
    ensures Triggered(h, t, isLocal) == Triggered(h, t, true)
  {
    UnscopedList(h, t, isLocal);
    UnscopedList(h, WILDCARD, isLocal);
    if t != WILDCARD {
      AcceptingConcat(ListOf(h, t), ListOf(h, WILDCARD), isLocal);
      AcceptingConcat(ListOf(h, t), ListOf(h, WILDCARD), true);
    } else {
      assert Concerned(h, t) == ListOf(h, t);
    }
  }

  lemma UnscopedList(h: Handlers, t: Topic, isLocal: bool)
    requires ScopedHandlers(h) == 0
    ensures Accepting(ListOf(h, t), isLocal) == Accepting(ListOf(h, t), true)
  {
    if t in h {
      ScopedPull(h, h.Keys, t);
      UnscopedAccepts(h[t], isLocal);
    }
  }

  lemma {:induction false} UnscopedAccepts(list: seq<Entry>, isLocal: bool)
    requires Scoped(list) == 0
    ensures Accepting(list, isLocal) == Accepting(list, true)
  {
    if list == [] {
    } else {
      UnscopedAccepts(list[..|list| - 1], isLocal);
    }
  }

  // The connection manager itself.

  method UnionScope(callbacks: seq<Entry>) returns (scope: Origin)
    ensures scope == Union(callbacks)
  {
    scope := NO_SCOPE;
    for i := 0 to |callbacks|
      invariant scope == Union(callbacks[..i])
    {
      scope := Widen(scope, callbacks[i].scope);
      assert callbacks[..i + 1][..i] == callbacks[..i];
    }
    assert callbacks[..|callbacks|] == callbacks;
  }

  class ConnectionManager {
    var handlers: Handlers
    var scopedHandlers: int
    var connected: bool
    /** Every control message handed to the worker so far. */
    var sent: seq<Ctl>

    ghost predicate Valid()
      reads this
    {
      Live(handlers) && scopedHandlers == ScopedHandlers(handlers)
    }

    constructor ()
      ensures Valid() && handlers == map[] && !connected && sent == []
    {
      handlers, scopedHandlers, connected, sent := map[], 0, false, [];
    }

    method CreateSubscribeEnvelope(key: Topic) returns (m: Ctl)
      ensures m == Subscribe(handlers, key)
    {
      var scope := ANY;
      if key in handlers {
        scope := UnionScope(handlers[key]);
      } else {
        ScopeRoundTrip(NO_SCOPE);
      }
      m := Sub(key, DecodeScope(EncodeScope(scope)));
    }

    method PerformRegistration(key: Topic, e: Entry)
      requires Valid()
      modifies this
      ensures Valid()
      ensures var r := Register(Client(old(handlers), old(connected)), key, e);
              Client(handlers, connected) == r.client && sent == old(sent) + r.out
    {
      hide Union, Scoped, ScopedHandlers, Subscribe;
      var slot := if key in handlers then handlers[key] else [];
      ScopedMoves(handlers, Registered(handlers, key, e), key);
      ScopedSnoc(slot, e);
      handlers := handlers[key := slot + [e]];
      if e.scope != ANY {
        scopedHandlers := scopedHandlers + 1;
      }
      if connected {
        var m := CreateSubscribeEnvelope(key);
        sent := sent + [m];
      }
    }

    method TakeOut(list: seq<Entry>, instance: nat) returns (next: seq<Entry>)
      modifies this`scopedHandlers
      ensures next == Without(list, instance)
      ensures scopedHandlers == old(scopedHandlers) - Scoped(list) + Scoped(next)
    {
      next := [];
      for i := 0 to |list|
        invariant next == Without(list[..i], instance)
        invariant scopedHandlers == old(scopedHandlers) - Scoped(list[..i]) + Scoped(next)
      {
        assert list[..i + 1][..i] == list[..i];
        if list[i].instance != instance {
          assert (next + [list[i]])[..|next|] == next;
          next := next + [list[i]];
        } else if list[i].scope != ANY {
          scopedHandlers := scopedHandlers - 1;
        }
      }
      assert list[..|list|] == list;
    }

    method PerformUnregistration(key: Topic, instance: nat)
      requires Valid()
      modifies this
      ensures Valid()
      ensures var r := Unregister(Client(old(handlers), old(connected)), key, instance);
              Client(handlers, connected) == r.client && sent == old(sent) + r.out
    {
      hide Union, Scoped, ScopedHandlers, Without, Subscribe;
      if key !in handlers {
        return;
      }
      var list := handlers[key];
      var scopeBefore := UnionScope(list);
      var next := TakeOut(list, instance);
      ScopedMoves(handlers, Unregistered(handlers, key, instance), key);
      if next == [] {
        handlers := handlers - {key};
        sent := sent + [Unsub(key)];
      } else {
        handlers := handlers[key := next];
        var scopeNow := UnionScope(next);
        if connected && scopeNow != scopeBefore {
          var m := CreateSubscribeEnvelope(key);
          sent := sent + [m];
        }
      }
    }

    /** Answers a RESET: every subscription again. */
    method ResubscribeAll()
      requires Valid()
      modifies this`sent
      ensures Valid() && sent == old(sent) + Everything(handlers)
    {
      hide Live, ScopedHandlers, Subscribe;
      var keys := Text.Sorted(handlers.Keys);
      hide Text.Sorted;
      var all := SubscribeAll(handlers, keys);
      for i := 0 to |keys|
        invariant sent == old(sent) + all[..i]
      {
        var m := CreateSubscribeEnvelope(keys[i]);
        sent := sent + [m];
      }
      assert all[..|keys|] == all;
    }

    method StatusHandler(online: bool)
      requires Valid()
      modifies this`connected, this`sent
      ensures Valid()
      ensures var r := Status(Client(handlers, old(connected)), online);
              Client(handlers, connected) == r.client && sent == old(sent) + r.out
    {
      hide Live, ScopedHandlers, Everything;
      connected := online;
      if online {
        sent := sent + [Connect];
        ResubscribeAll();
      }
    }

    method Dispatch(list: seq<Entry>, isLocal: bool) returns (called: seq<Entry>)
      ensures called == Accepting(list, isLocal)
    {
      called := [];
      for i := 0 to |list|
        invariant called == Accepting(list[..i], isLocal)
      {
        assert list[..i + 1][..i] == list[..i];
        if !ScopeAccepts(list[i].scope, isLocal) {
          continue;
        }
        called := called + [list[i]];
      }
      assert list[..|list|] == list;
    }

    /** The callbacks called, in order. The origin is only looked at when some registration is
        scoped, and that shortcut is invisible. */
    method HandleMessage(topic: Topic, originBroker: string, brokerId: string) returns (called: seq<Entry>)
      requires Valid()
      ensures called == Triggered(handlers, topic, brokerId == "" || originBroker == brokerId)
    {
      var callbacks := if topic in handlers then handlers[topic] else [];
      var wildcards := if topic != WILDCARD && WILDCARD in handlers then handlers[WILDCARD] else [];
      var isLocal := true;
      if scopedHandlers > 0 {
        isLocal := brokerId == "" || originBroker == brokerId;
      } else {
        UnscopedIgnoresOrigin(handlers, topic, brokerId == "" || originBroker == brokerId);
      }
      AcceptingConcat(callbacks, wildcards, isLocal);
      var own := Dispatch(callbacks, isLocal);
      var wild := Dispatch(wildcards, isLocal);
      called := own + wild;
    }
  }
}
