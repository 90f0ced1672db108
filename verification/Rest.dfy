/** Without a dial cycle the control plane comes to rest: with nothing new asked of it, only so many
    messages can be received and RESETs answered (server/broker.cpp). */
module Rest {
  import opened Keys
  import opened Registry
  import opened Interest
  import opened BrokerCore
  import opened Mesh
  import opened Aggregation
  import opened Cycle
  import Replica
  import Text

  ghost predicate Acyclic(s: State) { forall x :: !LeadsTo(s, x, x) }

  /** How many brokers the links lead to from here. */
  ghost function Reaches(s: State, b: BrokerId): set<BrokerId> { set z | z in s.brokers && LeadsTo(s, b, z) }

  /** Links lead only from a higher rank to a lower one. */
  predicate Ranked(s: State, rank: map<BrokerId, nat>) {
    forall k :: k in s.links ==>
      && s.links[k].dialer in rank && s.links[k].acceptor in rank
      && rank[s.links[k].acceptor] < rank[s.links[k].dialer]
  }

  lemma ReachesFewer(s: State, k: LinkKey)
    requires Wf(s) && Acyclic(s) && k in s.links
    ensures |Reaches(s, s.links[k].acceptor)| < |Reaches(s, s.links[k].dialer)|
  {
    var a, d := s.links[k].acceptor, s.links[k].dialer;
    LeadsToCons(s, k);
    hide LeadsTo;
    assert a in Reaches(s, d) && a !in Reaches(s, a);
    assert Reaches(s, a) <= Reaches(s, d) - {a};
    Text.SubsetSize(Reaches(s, a), Reaches(s, d) - {a});
  }

  /** Links that form no cycle can be ranked. */
  lemma AcyclicRanked(s: State) returns (rank: map<BrokerId, nat>)
    requires Wf(s) && Acyclic(s)
    ensures Ranked(s, rank)
  {
    rank := map b | b in s.brokers :: |Reaches(s, b)|;
    forall k | k in s.links
      ensures rank[s.links[k].acceptor] < rank[s.links[k].dialer]
    {
      ReachesFewer(s, k);
    }
  }

  // What handling one message can set off.

  /** The most a broker ever tells its links at once. */
  const BURST := MAX_INTEREST + 1

  lemma ChangeBurst(i: Interest, t: Topic, before: bool, now: bool)
    requires Sized(i)
    ensures |Change(i, t, before, now).out| <= BURST
  {
  }

  lemma HandleBurst(b: Core, c: ClientId, m: Replica.Ctl)
    requires Ok(b)
    ensures |Handle(b, c, m).out| <= BURST
  {
    hide Change;
    if m.Connect? {
    } else {
      ChangeBurst(b.interest, m.topic, m.topic in Wanted(b.rel), m.topic in Wanted(Record(b.rel, c, m)));
    }
  }

  lemma SnapshotBurst(i: Interest)
    requires Sized(i)
    ensures |Snapshot(i)| <= BURST
  {
  }

  // The measure: what each link can still set off, weighted by how far down its acceptor is.

  function Pow(base: nat, e: nat): nat { if e == 0 then 1 else base * Pow(base, e - 1) }

  function Base(s: State): nat { |s.links| * BURST + 1 }

  /** `w` is the weight of a message to the link's acceptor. */
  function Load(chan: nat, resets: nat, known: bool, w: nat): nat {
    chan * w + (if known then resets else resets + 1) * (BURST * w + 1) + if known then 0 else 1
  }

  function LoadOf(s: State, rank: map<BrokerId, nat>, base: nat, k: LinkKey): nat
    requires Wf(s) && Ranked(s, rank) && k in s.links
  {
    var l := s.links[k];
    Load(|l.chan|, l.resets, l.id in s.brokers[l.acceptor].clients, Pow(base, rank[l.acceptor]))
  }

  function Loads(s: State, rank: map<BrokerId, nat>, base: nat): map<LinkKey, nat>
    requires Wf(s) && Ranked(s, rank)
  {
    map k | k in s.links :: LoadOf(s, rank, base, k)
  }

  function Sum(m: map<LinkKey, nat>, keys: seq<LinkKey>): nat
    requires forall k :: k in keys ==> k in m
  {
    if keys == [] then 0 else m[keys[0]] + Sum(m, keys[1..])
  }

  /** How many steps are left at most. */
  function Effort(s: State, rank: map<BrokerId, nat>): nat
    requires Wf(s) && Ranked(s, rank)
  {
    Sum(Loads(s, rank, Base(s)), Text.Sorted(s.links.Keys))
  }

  /** One load falls by `drop` and no load gains more than `add`. */
  ghost predicate Shift(m: map<LinkKey, nat>, m': map<LinkKey, nat>, k: LinkKey, add: nat, drop: nat) {
    && m.Keys == m'.Keys
    && (forall j :: j in m && j != k ==> m'[j] <= m[j] + add)
    && (k in m ==> m'[k] + drop <= m[k])
  }

  lemma {:induction false} SumGains(m: map<LinkKey, nat>, m': map<LinkKey, nat>, k: LinkKey, add: nat, drop: nat, keys: seq<LinkKey>)
    requires Shift(m, m', k, add, drop) && forall j :: j in keys ==> j in m
    ensures Sum(m', keys) <= Sum(m, keys) + |keys| * add
    decreases |keys|
  {
    if keys == [] {
    } else {
      SumGains(m, m', k, add, drop, keys[1..]);
      Times(|keys| - 1, add);
    }
  }

  lemma Times(n: nat, a: nat)
    ensures (n + 1) * a == n * a + a
  {
  }

  lemma {:induction false} SumShifts(m: map<LinkKey, nat>, m': map<LinkKey, nat>, k: LinkKey, add: nat, drop: nat, keys: seq<LinkKey>)
    requires Shift(m, m', k, add, drop) && (forall j :: j in keys ==> j in m) && k in keys
    ensures Sum(m', keys) + drop <= Sum(m, keys) + |keys| * add
    decreases |keys|
  {
    Times(|keys| - 1, add);
    if keys[0] == k {
      SumGains(m, m', k, add, drop, keys[1..]);
    } else {
      SumShifts(m, m', k, add, drop, keys[1..]);
    }
  }

  lemma PowGrows(base: nat, e: nat, e': nat)
    requires e <= e' && base > 0
    ensures 0 < Pow(base, e) <= Pow(base, e')
    decreases e' - e
  {
    if e == e' {
      PowPositive(base, e);
    } else {
      PowGrows(base, e, e' - 1);
      AtLeast(base, Pow(base, e' - 1));
    }
  }

  lemma {:induction false} PowPositive(base: nat, e: nat)
    requires base > 0
    ensures Pow(base, e) > 0
  {
    if e == 0 {
    } else {
      PowPositive(base, e - 1);
      AtLeast(base, Pow(base, e - 1));
    }
  }

  lemma AtLeast(a: nat, b: nat)
    requires a > 0
    ensures a * b >= b
  {
  }

  // What each event does to one load.

  lemma LoadPops(chan: nat, resets: nat, known: bool, connect: bool, w: nat)
    requires chan > 0
    ensures Load(chan - 1, if known || connect then resets else resets + 1, true, w) + w <= Load(chan, resets, known, w)
  {
    Times(chan - 1, w);
    Times(resets, BURST * w + 1);
  }

  lemma LoadGains(chan: nat, out: nat, resets: nat, known: bool, w: nat, most: nat)
    requires out <= BURST && w <= most
    ensures Load(chan + out, resets, known, w) <= Load(chan, resets, known, w) + BURST * most
  {
    Spreads(chan, out, w);
    Bounded(out, BURST, w, most);
  }

  lemma Spreads(a: nat, b: nat, w: nat)
    ensures (a + b) * w == a * w + b * w
  {
  }

  lemma Bounded(a: nat, a': nat, b: nat, b': nat)
    requires a <= a' && b <= b'
    ensures a * b <= a' * b'
  {
    assert a * b <= a' * b;
    assert a' * b <= a' * b';
  }

  lemma LoadAnswers(chan: nat, out: nat, resets: nat, known: bool, w: nat)
    requires resets > 0 && out <= BURST
    ensures Load(chan + out, resets - 1, known, w) + 1 <= Load(chan, resets, known, w)
  {
    Spreads(chan, out, w);
    Bounded(out, BURST, w, w);
    var left := if known then resets - 1 else resets;
    Times(left, BURST * w + 1);
  }

  lemma LoadPokes(chan: nat, resets: nat, w: nat)
    ensures Load(chan, resets + 1, true, w) + 1 == Load(chan, resets, false, w)
  {
  }

  // And to all of them.

  /** One of the steps that work off what is in flight: a message received, a RESET answered, or a sign
      of life from a link its remote has forgotten. */
  ghost predicate Drives(s: State, e: Event) {
    && Wf(s) && Enabled(s, e)
    && (e.Receive? || e.Answer? || (e.Poke? && s.links[e.key].id !in s.brokers[s.links[e.key].acceptor].clients))
  }

  /** The link a step is about changes as `l`, the links its acceptor dialed are sent `out`, and only
      the acceptor's clients change, by the link's own identity. */
  ghost predicate Touches(s: State, s': State, k: LinkKey, chan: nat, resets: nat, out: nat)
    requires k in s.links
  {
    var a := s.links[k].acceptor;
    && SameEnds(s, s') && Wf(s) && Wf(s') && s'.departed == s.departed
    && |s'.links[k].chan| == chan && s'.links[k].resets == resets
    && s'.brokers[a].clients == s.brokers[a].clients + {s.links[k].id}
    && (forall b :: b in s.brokers && b != a ==> s'.brokers[b].clients == s.brokers[b].clients)
    && (forall j :: j in s.links && j != k ==>
          && s'.links[j].resets == s.links[j].resets
          && |s'.links[j].chan| == |s.links[j].chan| + if s.links[j].dialer == a then out else 0)
  }

  predicate SameLink(l: Link, l': Link) {
    l'.dialer == l.dialer && l'.acceptor == l.acceptor && l'.id == l.id && l'.stale == l.stale
  }

  lemma SpreadTouches(s: State, k: LinkKey, l: Link, core: Core, out: seq<Replica.Ctl>)
    requires Wf(s) && k in s.links && s.links[k].dialer != s.links[k].acceptor
    requires var o := s.links[k]; l.dialer == o.dialer && l.acceptor == o.acceptor && l.id == o.id && l.stale == o.stale
    requires core.clients == s.brokers[l.acceptor].clients + {l.id}
    requires Wf(Spread(WithLink(s, k, l), l.acceptor, core, out))
    ensures Touches(s, Spread(WithLink(s, k, l), l.acceptor, core, out), k, |l.chan|, l.resets, |out|)
  {
    assert l.acceptor in s.brokers;
    hide Wf, Spread;
    var s1 := WithLink(s, k, l);
    var s' := Spread(s1, l.acceptor, core, out);
    SpreadRest(s1, l.acceptor, core, out);
    assert s'.brokers.Keys == s.brokers.Keys;
    forall j | j in s.links
      ensures SameLink(s.links[j], s'.links[j])
      ensures j == k ==> s'.links[j].resets == l.resets && |s'.links[j].chan| == |l.chan|
      ensures j != k ==>
                && s'.links[j].resets == s.links[j].resets
                && |s'.links[j].chan| == |s.links[j].chan| + if s.links[j].dialer == l.acceptor then |out| else 0
    {
      SpreadLink(s1, l.acceptor, core, out, j);
    }
  }

  lemma SpreadLink(s: State, b: BrokerId, core: Core, out: seq<Replica.Ctl>, j: LinkKey)
    requires j in s.links
    ensures var l' := Spread(s, b, core, out).links[j];
            l' == if s.links[j].dialer == b then s.links[j].(chan := s.links[j].chan + out) else s.links[j]
  {
  }

  lemma SpreadRest(s: State, b: BrokerId, core: Core, out: seq<Replica.Ctl>)
    ensures var s' := Spread(s, b, core, out);
            s'.links.Keys == s.links.Keys && s'.departed == s.departed && s'.brokers == s.brokers[b := core]
  {
  }

  lemma RankedApart(s: State, rank: map<BrokerId, nat>, k: LinkKey)
    requires Ranked(s, rank) && k in s.links
    ensures s.links[k].dialer != s.links[k].acceptor
  {
  }

  lemma ReceiveTouches(s: State, rank: map<BrokerId, nat>, k: LinkKey) returns (out: nat)
    requires Inv(s) && Ranked(s, rank) && Wf(s) && Enabled(s, Receive(k))
    ensures out <= BURST
    ensures var l := s.links[k];
            Touches(s, Step(s, Receive(k)), k, |l.chan| - 1,
                    if l.id in s.brokers[l.acceptor].clients || l.chan[0].Connect? then l.resets else l.resets + 1, out)
  {
    hide Inv, Ranked, Handle, Ok, ViewOf, Spread, Touches;
    var l := s.links[k];
    var f := Handle(s.brokers[l.acceptor], l.id, l.chan[0]);
    out := |f.out|;
    StepKeeps(s, Receive(k));
    InvWf(Step(s, Receive(k)));
    InvOk(s, l.acceptor);
    HandleBurst(s.brokers[l.acceptor], l.id, l.chan[0]);
    HandleView(s.brokers[l.acceptor], l.id, l.chan[0]);
    RankedApart(s, rank, k);
    hide Wf;
    SpreadTouches(s, k, l.(chan := l.chan[1..], resets := l.resets + if f.reset then 1 else 0), f.core, f.out);
  }

  lemma PokeTouches(s: State, rank: map<BrokerId, nat>, k: LinkKey)
    requires Inv(s) && Ranked(s, rank) && Drives(s, Poke(k))
    ensures Touches(s, Step(s, Poke(k)), k, |s.links[k].chan|, s.links[k].resets + 1, 0)
  {
    hide Inv, Ranked, Spread, Touches;
    StepKeeps(s, Poke(k));
    InvWf(Step(s, Poke(k)));
    RankedApart(s, rank, k);
    var l := s.links[k];
    AcceptorThere(s, k);
    hide Wf;
    SpreadTouches(s, k, l.(resets := l.resets + 1), Touch(s.brokers[l.acceptor], l.id, false).core, []);
  }

  /** No other load gains more than a burst one rank down; that is less than one message weighs here. */
  function Ripple(base: nat, r: nat): nat { if r == 0 then 0 else BURST * Pow(base, r - 1) }

  lemma RippleSmall(n: nat, r: nat)
    ensures n * Ripple(n * BURST + 1, r) < Pow(n * BURST + 1, r)
  {
    var base := n * BURST + 1;
    if r == 0 {
    } else {
      var p := Pow(base, r - 1);
      PowPositive(base, r - 1);
      Spreads(n * BURST, 1, p);
      assert n * (BURST * p) == n * BURST * p;
    }
  }

  lemma TouchShifts(s: State, s': State, rank: map<BrokerId, nat>, base: nat, k: LinkKey, chan: nat, resets: nat, out: nat, drop: nat)
    requires k in s.links && Touches(s, s', k, chan, resets, out) && out <= BURST && base > 0 && Ranked(s, rank)
    requires Load(chan, resets, true, Pow(base, rank[s.links[k].acceptor])) + drop <= LoadOf(s, rank, base, k)
    ensures Ranked(s', rank)
    ensures Shift(Loads(s, rank, base), Loads(s', rank, base), k, Ripple(base, rank[s.links[k].acceptor]), drop)
  {
    hide Load, Pow;
    var m, m' := Loads(s, rank, base), Loads(s', rank, base);
    forall j | j in m && j != k
      ensures m'[j] <= m[j] + Ripple(base, rank[s.links[k].acceptor])
    {
      TouchOther(s, s', rank, base, k, chan, resets, out, j);
    }
  }

  lemma TouchKnown(s: State, s': State, k: LinkKey, chan: nat, resets: nat, out: nat, j: LinkKey)
    requires k in s.links && Touches(s, s', k, chan, resets, out) && j in s.links && j != k
    ensures var a := s.links[j].acceptor;
            a in s.brokers && a in s'.brokers && (s'.links[j].id in s'.brokers[a].clients <==> s.links[j].id in s.brokers[a].clients)
  {
  }

  lemma TouchLoad(s: State, s': State, rank: map<BrokerId, nat>, base: nat, k: LinkKey, chan: nat, resets: nat, out: nat, j: LinkKey)
    requires k in s.links && Touches(s, s', k, chan, resets, out) && Ranked(s, rank) && Ranked(s', rank)
    requires j in s.links && j != k
    ensures var l := s.links[j];
            && l.acceptor in s.brokers
            && LoadOf(s', rank, base, j) ==
               Load(|l.chan| + if l.dialer == s.links[k].acceptor then out else 0, l.resets,
                    l.id in s.brokers[l.acceptor].clients, Pow(base, rank[l.acceptor]))
  {
    TouchKnown(s, s', k, chan, resets, out, j);
    hide Load, Pow, Wf;
  }

  lemma RankedBelow(s: State, rank: map<BrokerId, nat>, j: LinkKey, base: nat)
    requires Ranked(s, rank) && j in s.links && base > 0
    ensures var l := s.links[j];
            rank[l.dialer] > 0 && Pow(base, rank[l.acceptor]) <= Pow(base, rank[l.dialer] - 1)
  {
    hide Pow;
    PowGrows(base, rank[s.links[j].acceptor], rank[s.links[j].dialer] - 1);
  }

  lemma TouchOther(s: State, s': State, rank: map<BrokerId, nat>, base: nat, k: LinkKey, chan: nat, resets: nat, out: nat, j: LinkKey)
    requires k in s.links && Touches(s, s', k, chan, resets, out) && out <= BURST && base > 0 && Ranked(s, rank) && Ranked(s', rank)
    requires j in s.links && j != k
    ensures LoadOf(s', rank, base, j) <= LoadOf(s, rank, base, j) + Ripple(base, rank[s.links[k].acceptor])
  {
    TouchLoad(s, s', rank, base, k, chan, resets, out, j);
    RankedBelow(s, rank, j, base);
    hide Load, Pow, Wf, Touches;
    var l, a := s.links[j], s.links[k].acceptor;
    var w := Pow(base, rank[l.acceptor]);
    assert LoadOf(s, rank, base, j) == Load(|l.chan|, l.resets, l.id in s.brokers[l.acceptor].clients, w);
    if l.dialer == a {
      LoadGains(|l.chan|, out, l.resets, l.id in s.brokers[l.acceptor].clients, w, Pow(base, rank[a] - 1));
    }
  }

  lemma WithLinkShifts(s: State, rank: map<BrokerId, nat>, base: nat, k: LinkKey, l: Link, drop: nat)
    requires Wf(s) && Ranked(s, rank) && k in s.links && Wf(WithLink(s, k, l))
    requires var o := s.links[k]; l.dialer == o.dialer && l.acceptor == o.acceptor && l.id == o.id && l.stale == o.stale
    requires Load(|l.chan|, l.resets, l.id in s.brokers[l.acceptor].clients, Pow(base, rank[l.acceptor])) + drop <= LoadOf(s, rank, base, k)
    ensures var s' := WithLink(s, k, l);
            SameEnds(s, s') && Ranked(s', rank) && Shift(Loads(s, rank, base), Loads(s', rank, base), k, 0, drop)
  {
    hide Load, Pow, Wf;
  }

  lemma AnswerShifts(s: State, rank: map<BrokerId, nat>, base: nat, k: LinkKey)
    requires Inv(s) && Wf(s) && Ranked(s, rank) && Enabled(s, Answer(k))
    ensures var s' := Step(s, Answer(k));
            SameEnds(s, s') && Wf(s') && Ranked(s', rank) && s'.departed == s.departed
            && Shift(Loads(s, rank, base), Loads(s', rank, base), k, 0, 1)
  {
    hide Load, Pow, Snapshot, Ok, Inv, Sized, Shift, Loads;
    var l := s.links[k];
    StepKeeps(s, Answer(k));
    InvWf(Step(s, Answer(k)));
    AcceptorThere(s, k);
    InvOk(s, l.dialer);
    OkSized(s.brokers[l.dialer]);
    var snapshot := Snapshot(s.brokers[l.dialer].interest);
    SnapshotBurst(s.brokers[l.dialer].interest);
    LoadAnswers(|l.chan|, |snapshot|, l.resets, l.id in s.brokers[l.acceptor].clients, Pow(base, rank[l.acceptor]));
    hide Wf, Ranked;
    WithLinkShifts(s, rank, base, k, l.(resets := l.resets - 1, chan := l.chan + snapshot), 1);
  }

  /** Every such step takes something off what is left. */
  lemma DriveDrops(s: State, rank: map<BrokerId, nat>, e: Event)
    requires Inv(s) && Ranked(s, rank) && Drives(s, e)
    ensures var s' := Step(s, e);
            SameEnds(s, s') && s'.departed == s.departed && Inv(s') && Wf(s') && Ranked(s', rank) && Effort(s', rank) < Effort(s, rank)
  {
    DrivesEnabled(s, e);
    hide Inv, Loads, Step, Wf, Ranked, Drives, Enabled;
    StepKeeps(s, e);
    var s', k, base := Step(s, e), e.key, Base(s);
    InvWf(s');
    var add, drop := DriveShifts(s, rank, e);
    SameBase(s, s');
    hide Base, Text.Sorted;
    SumShifts(Loads(s, rank, base), Loads(s', rank, base), k, add, drop, Text.Sorted(s.links.Keys));
  }

  lemma SameBase(s: State, s': State)
    requires SameEnds(s, s')
    ensures Base(s') == Base(s) && |Text.Sorted(s.links.Keys)| == |s.links| && Text.Sorted(s'.links.Keys) == Text.Sorted(s.links.Keys)
  {
    assert |s.links| == |s.links.Keys| && |s'.links| == |s'.links.Keys|;
  }

  lemma DriveShifts(s: State, rank: map<BrokerId, nat>, e: Event) returns (add: nat, drop: nat)
    requires Inv(s) && Ranked(s, rank) && Drives(s, e)
    ensures var s' := Step(s, e);
            && e.key in s.links && SameEnds(s, s') && s'.departed == s.departed && Wf(s') && Ranked(s', rank)
            && Shift(Loads(s, rank, Base(s)), Loads(s', rank, Base(s)), e.key, add, drop)
    ensures |s.links| * add < drop
  {
    hide Inv, Load, Pow, Step, Shift, Loads, Wf, Touches;
    var k, base := e.key, Base(s);
    var l := s.links[k];
    AcceptorThere(s, k);
    if e.Answer? {
      AnswerShifts(s, rank, base, k);
      return 0, 1;
    }
    if e.Receive? {
      add, drop := ReceiveShifts(s, rank, k);
    } else {
      PokeAlone(s, rank, base, k);
      return 0, 1;
    }
  }

  lemma ReceiveShifts(s: State, rank: map<BrokerId, nat>, k: LinkKey) returns (add: nat, drop: nat)
    requires Inv(s) && Wf(s) && Ranked(s, rank) && Enabled(s, Receive(k))
    ensures var s' := Step(s, Receive(k));
            && SameEnds(s, s') && s'.departed == s.departed && Wf(s') && Ranked(s', rank)
            && Shift(Loads(s, rank, Base(s)), Loads(s', rank, Base(s)), k, add, drop)
    ensures |s.links| * add < drop
  {
    hide Inv, Load, Pow, Step, Shift, Loads, Ripple, Wf, Base;
    AcceptorThere(s, k);
    var base, l := Base(s), s.links[k];
    assert base == |s.links| * BURST + 1 by { BaseIs(s); }
    var r, known := rank[l.acceptor], l.id in s.brokers[l.acceptor].clients;
    var out := ReceiveTouches(s, rank, k);
    LoadPops(|l.chan|, l.resets, known, l.chan[0].Connect?, Pow(base, r));
    add, drop := Ripple(base, r), Pow(base, r);
    RippleSmall(|s.links|, r);
    TouchEnds(s, Step(s, Receive(k)), k, |l.chan| - 1, if known || l.chan[0].Connect? then l.resets else l.resets + 1, out);
    hide Touches;
    TouchShifts(s, Step(s, Receive(k)), rank, base, k, |l.chan| - 1,
                if known || l.chan[0].Connect? then l.resets else l.resets + 1, out, drop);
  }

  lemma BaseIs(s: State)
    ensures Base(s) == |s.links| * BURST + 1
  {
  }

  lemma TouchEnds(s: State, s': State, k: LinkKey, chan: nat, resets: nat, out: nat)
    requires k in s.links && Touches(s, s', k, chan, resets, out)
    ensures SameEnds(s, s') && Wf(s') && s'.departed == s.departed
  {
  }

  lemma PokeAlone(s: State, rank: map<BrokerId, nat>, base: nat, k: LinkKey)
    requires Inv(s) && Ranked(s, rank) && Drives(s, Poke(k))
    ensures var s' := Step(s, Poke(k));
            && SameEnds(s, s') && s'.departed == s.departed && Wf(s') && Ranked(s', rank)
            && Shift(Loads(s, rank, base), Loads(s', rank, base), k, 0, 1)
  {
    hide Inv, Load, Pow, Step, Touches;
    PokeTouches(s, rank, k);
    var s', l := Step(s, Poke(k)), s.links[k];
    TouchEnds(s, s', k, |l.chan|, l.resets + 1, 0);
    TouchRanked(s, s', rank);
    hide Wf, Ranked;
    forall j | j in s.links && j != k
      ensures LoadOf(s', rank, base, j) == LoadOf(s, rank, base, j)
    {
      TouchLoad(s, s', rank, base, k, |l.chan|, l.resets + 1, 0, j);
    }
    PokedLoad(s, s', rank, base, k);
  }

  lemma TouchRanked(s: State, s': State, rank: map<BrokerId, nat>)
    requires SameEnds(s, s') && Ranked(s, rank)
    ensures Ranked(s', rank)
  {
  }

  lemma PokedLoad(s: State, s': State, rank: map<BrokerId, nat>, base: nat, k: LinkKey)
    requires Wf(s) && Wf(s') && k in s.links && k in s'.links && Ranked(s, rank) && Ranked(s', rank)
    requires s.links[k].id !in s.brokers[s.links[k].acceptor].clients
    requires Touches(s, s', k, |s.links[k].chan|, s.links[k].resets + 1, 0)
    ensures LoadOf(s', rank, base, k) + 1 <= LoadOf(s, rank, base, k)
  {
    var l := s.links[k];
    assert s'.links[k].acceptor == l.acceptor && l.id in s'.brokers[l.acceptor].clients && s'.links[k].id == l.id;
    hide Load, Pow, Wf, Ranked;
    LoadPokes(|l.chan|, l.resets, Pow(base, rank[l.acceptor]));
  }

  // Runs.

  ghost predicate Driven(s: State, es: seq<Event>)
    decreases |es|
  {
    es == [] || (Drives(s, es[0]) && Driven(Step(s, es[0]), es[1..]))
  }

  lemma {:induction false} DrivenEnds(s: State, rank: map<BrokerId, nat>, es: seq<Event>, s': State)
    requires Inv(s) && Wf(s) && Ranked(s, rank) && Driven(s, es) && Runs(s, es, s')
    ensures Inv(s') && Wf(s') && Ranked(s', rank) && |es| + Effort(s', rank) <= Effort(s, rank)
    decreases |es|
  {
    hide Inv, Wf, Ranked, Step, Drives, Enabled, Effort;
    if es == [] {
    } else {
      DriveDrops(s, rank, es[0]);
      DrivenEnds(Step(s, es[0]), rank, es[1..], s');
    }
  }

  /** With no more of these steps to take, the mesh is at rest. */
  lemma NothingDrives(s: State)
    requires Inv(s) && (forall e :: !Drives(s, e))
    requires (forall d :: d in s.departed ==> s.departed[d] == SILENT) && forall k :: k in s.links ==> Roomy(s.links[k].stale)
    ensures Settled(s)
  {
    hide Inv, Roomy;
    InvWf(s);
    forall k | k in s.links
      ensures s.links[k].chan == [] && s.links[k].resets == 0
      ensures s.links[k].acceptor in s.brokers && s.links[k].id in s.brokers[s.links[k].acceptor].clients
    {
      AcceptorThere(s, k);
      Undriven(s, k);
    }
  }

  lemma Undriven(s: State, k: LinkKey)
    requires Wf(s) && k in s.links && !Drives(s, Receive(k)) && !Drives(s, Answer(k)) && !Drives(s, Poke(k))
    ensures s.links[k].chan == [] && s.links[k].resets == 0 && s.links[k].id in s.brokers[s.links[k].acceptor].clients
  {
    hide Wf;
  }

  /** In a reachable mesh without a dial cycle, receiving messages, answering RESETs and signs of life
      from forgotten links can go on for only so long. */
  lemma ComesToRest(s: State) returns (bound: nat)
    requires Reachable(s) && Acyclic(s)
    ensures forall es, s' :: Runs(s, es, s') && Driven(s, es) ==> |es| <= bound
  {
    hide Inv, Reachable, Acyclic, Ranked, Effort, Driven, Runs, Wf;
    ReachableInv(s);
    InvWf(s);
    var rank := AcyclicRanked(s);
    bound := Effort(s, rank);
    forall es, s' | Runs(s, es, s') && Driven(s, es)
      ensures |es| <= bound
    {
      DrivenEnds(s, rank, es, s');
    }
  }

  /** And it ends at rest: some such run settles the mesh, links and all. */
  lemma SettlesDown(s: State) returns (es: seq<Event>, s': State)
    requires Reachable(s) && Acyclic(s)
    requires (forall d :: d in s.departed ==> s.departed[d] == SILENT) && forall k :: k in s.links ==> Roomy(s.links[k].stale)
    ensures Runs(s, es, s') && Driven(s, es) && SameEnds(s, s') && Settled(s')
  {
    hide Inv, Reachable, Acyclic, Ranked, Runs, Wf;
    ReachableInv(s);
    InvWf(s);
    var rank := AcyclicRanked(s);
    es, s' := DriveOn(s, rank);
  }

  lemma {:induction false} DriveOn(s: State, rank: map<BrokerId, nat>) returns (es: seq<Event>, s': State)
    requires Inv(s) && Wf(s) && Ranked(s, rank)
    requires (forall d :: d in s.departed ==> s.departed[d] == SILENT) && forall k :: k in s.links ==> Roomy(s.links[k].stale)
    ensures Runs(s, es, s') && Driven(s, es) && SameEnds(s, s') && Settled(s')
    decreases Effort(s, rank)
  {
    hide Inv, Wf, Ranked, Step, Drives, Enabled, Effort, Settled, Roomy;
    if e :| Drives(s, e) {
      DriveDrops(s, rank, e);
      DrivesEnabled(s, e);
      var s1 := Step(s, e);
      var rest;
      rest, s' := DriveOn(s1, rank);
      es := [e] + rest;
      assert es[1..] == rest;
      SameEndsTrans(s, s1, s');
    } else {
      NothingDrives(s);
      return [], s;
    }
  }

  lemma DrivesEnabled(s: State, e: Event)
    requires Drives(s, e)
    ensures Wf(s) && Enabled(s, e)
  {
  }
}
