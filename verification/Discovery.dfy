/** Which peers a broker dials on the beacons it hears (server/discovery.cpp), over whole histories of
    beacons, expiries and cluster swaps. Each call is atomic with the callbacks it makes. */
module Discovery {
  import Text

  const MAX_DIALED_PEERS := 64
  /** Five missed one-second beacons, in nanoseconds. */
  const PEER_TIMEOUT := 5 * 1_000_000_000

  type Uuid = string

  datatype Beacon = Beacon(cluster: string, uuid: Uuid, routerPort: nat)

  datatype Option<T> = None | Some(value: T)

  datatype PeerEntry = PeerEntry(address: string, lastSeen: int)

  /** The callbacks the broker is given. */
  datatype Call = Dial(uuid: Uuid, address: string) | Drop(uuid: Uuid)

  datatype State = State(cluster: string, dialed: map<Uuid, PeerEntry>, calls: seq<Call>)

  /** What happens to the object: a datagram, decoded or not; a cluster swap; an expiry pass. The hash
      table is walked in no particular order, so a drop pass carries the order it took. */
  datatype Event =
    | Hear(ip: string, heard: Option<Beacon>, now: int)
    | Swap(cluster: string, order: seq<Uuid>)
    | Expire(now: int, order: seq<Uuid>)

  function Decimal(n: nat): string {
    (if n < 10 then "" else Decimal(n / 10)) + [('0' as int + n % 10) as char]
  }

  function Address(ip: string, port: nat): string {
    "tcp://" + ip + ":" + Decimal(port)
  }

  function Stale(dialed: map<Uuid, PeerEntry>, now: int): set<Uuid> {
    set u | u in dialed && now - dialed[u].lastSeen > PEER_TIMEOUT
  }

  function Drops(order: seq<Uuid>): (r: seq<Call>)
    ensures |r| == |order| && forall i :: 0 <= i < |r| ==> r[i] == Drop(order[i])
  {
    seq(|order|, i requires 0 <= i < |order| => Drop(order[i]))
  }

  /** A walk over the set: every member, none twice. */
  ghost predicate Lists(order: seq<Uuid>, members: set<Uuid>) {
    && (forall u :: u in order <==> u in members)
    && (forall i, j :: 0 <= i < j < |order| ==> order[i] != order[j])
  }

  ghost predicate Enabled(s: State, e: Event) {
    match e
    case Hear(_, _, _) => true
    case Swap(cluster, order) => Lists(order, if cluster == s.cluster then {} else s.dialed.Keys)
    case Expire(now, order) => Lists(order, Stale(s.dialed, now))
  }

  function Heard(self: Uuid, s: State, ip: string, b: Beacon, now: int): State {
    var entry := PeerEntry(Address(ip, b.routerPort), now);
    if b.uuid == self || !Text.Less(self, b.uuid) || b.cluster != s.cluster then s
    else if b.uuid in s.dialed then s.(dialed := s.dialed[b.uuid := entry])
    else if |s.dialed| >= MAX_DIALED_PEERS then s
    else s.(dialed := s.dialed[b.uuid := entry], calls := s.calls + [Dial(b.uuid, entry.address)])
  }

  function Step(self: Uuid, s: State, e: Event): State
    requires Enabled(s, e)
  {
    match e
    case Hear(ip, heard, now) => if heard.None? then s else Heard(self, s, ip, heard.value, now)
    case Swap(cluster, order) =>
      if cluster == s.cluster then s else State(cluster, map[], s.calls + Drops(order))
    case Expire(now, order) =>
      State(s.cluster, s.dialed - Stale(s.dialed, now), s.calls + Drops(order))
  }

  // What the callbacks add up to.

  /** The links dialed and not dropped since. */
  function Open(calls: seq<Call>): set<Uuid> {
    if calls == [] then {}
    else
      var before, last := Open(calls[..|calls| - 1]), calls[|calls| - 1];
      if last.Dial? then before + {last.uuid} else before - {last.uuid}
  }

  /** Nobody is dialed who is already linked, nobody dropped who is not, and every dial goes to a
      greater uuid. */
  predicate Proper(self: Uuid, calls: seq<Call>) {
    forall i :: 0 <= i < |calls| ==>
      if calls[i].Dial? then calls[i].uuid !in Open(calls[..i]) && Text.Less(self, calls[i].uuid)
      else calls[i].uuid in Open(calls[..i])
  }

  lemma ProperSnoc(self: Uuid, calls: seq<Call>, c: Call)
    requires Proper(self, calls)
    requires if c.Dial? then c.uuid !in Open(calls) && Text.Less(self, c.uuid) else c.uuid in Open(calls)
    ensures Proper(self, calls + [c])
    ensures Open(calls + [c]) == if c.Dial? then Open(calls) + {c.uuid} else Open(calls) - {c.uuid}
  {
    var all := calls + [c];
    assert all[..|calls|] == calls;
    forall i | 0 <= i < |all|
      ensures if all[i].Dial? then all[i].uuid !in Open(all[..i]) && Text.Less(self, all[i].uuid)
              else all[i].uuid in Open(all[..i])
    {
      if i < |calls| { assert all[..i] == calls[..i]; }
    }
  }

  /** Dropping a set of open links closes exactly those. */
  lemma {:induction false} DropsClose(self: Uuid, calls: seq<Call>, order: seq<Uuid>, members: set<Uuid>)
    requires Proper(self, calls) && Lists(order, members) && members <= Open(calls)
    ensures Proper(self, calls + Drops(order))
    ensures Open(calls + Drops(order)) == Open(calls) - members
    decreases |order|
  {
    if order == [] {
      assert calls + Drops(order) == calls;
      assert members == {};
    } else {
      var init, last := order[..|order| - 1], order[|order| - 1];
      assert order == init + [last];
      assert calls + Drops(order) == calls + Drops(init) + [Drop(last)];
      hide Proper, Open, Drops;
      DropsClose(self, calls, init, members - {last});
      ProperSnoc(self, calls + Drops(init), Drop(last));
    }
  }

  ghost predicate Books(self: Uuid, s: State) {
    && Proper(self, s.calls)
    && Open(s.calls) == s.dialed.Keys
    && |s.dialed| <= MAX_DIALED_PEERS
    && forall u :: u in s.dialed ==> Text.Less(self, u)
  }

  lemma HeardKeepsBooks(self: Uuid, s: State, ip: string, b: Beacon, now: int)
    requires Books(self, s)
    ensures Books(self, Heard(self, s, ip, b, now))
  {
    hide Proper, Open, Text.Less, Address;
    var s' := Heard(self, s, ip, b, now);
    if s'.calls != s.calls {
      ProperSnoc(self, s.calls, Dial(b.uuid, Address(ip, b.routerPort)));
    }
  }

  lemma StepKeepsBooks(self: Uuid, s: State, e: Event)
    requires Books(self, s) && Enabled(s, e)
    ensures Books(self, Step(self, s, e))
  {
    hide Proper, Open, Text.Less, Heard, Lists;
    match e
    case Hear(ip, heard, now) =>
      if heard.Some? { HeardKeepsBooks(self, s, ip, heard.value, now); }
    case Swap(cluster, order) =>
      if cluster != s.cluster { DropsClose(self, s.calls, order, s.dialed.Keys); }
    case Expire(now, order) =>
      DropsClose(self, s.calls, order, Stale(s.dialed, now));
      Text.SubsetSize((s.dialed - Stale(s.dialed, now)).Keys, s.dialed.Keys);
  }

  // Who is linked, told from the history alone.

  /** The cluster a history ends in. */
  function ClusterAt(start: string, es: seq<Event>): string {
    if es == [] then start
    else
      var last := es[|es| - 1];
      if last.Swap? then last.cluster else ClusterAt(start, es[..|es| - 1])
  }

  lemma ClusterSnoc(start: string, es: seq<Event>, e: Event)
    ensures ClusterAt(start, es + [e]) == if e.Swap? then e.cluster else ClusterAt(start, es)
  {
    assert (es + [e])[..|es|] == es;
  }

  predicate Beaconed(e: Event, u: Uuid, cluster: string) {
    e.Hear? && e.heard.Some? && e.heard.value.uuid == u && e.heard.value.cluster == cluster
  }

  /** Nothing that would refresh or end a link to u last heard at `at`. */
  predicate Uneventful(e: Event, u: Uuid, cluster: string, at: int) {
    && !Beaconed(e, u, cluster)
    && (e.Swap? ==> e.cluster == cluster)
    && (e.Expire? ==> e.now - at <= PEER_TIMEOUT)
  }

  /** Event i is the last beacon from u; it was heard in the cluster the history ends in, which has not
      been swapped since, and no expiry pass since came too late for it. */
  predicate LastBeacon(start: string, es: seq<Event>, i: nat, u: Uuid) {
    var cluster := ClusterAt(start, es);
    && i < |es| && Beaconed(es[i], u, cluster)
    && ClusterAt(start, es[..i]) == cluster
    && forall j :: i < j < |es| ==> Uneventful(es[j], u, cluster, es[i].now)
  }

  function EntryOf(e: Event): PeerEntry
    requires e.Hear? && e.heard.Some?
  {
    PeerEntry(Address(e.ip, e.heard.value.routerPort), e.now)
  }

  predicate Describes(entry: PeerEntry, start: string, es: seq<Event>, i: nat, u: Uuid) {
    LastBeacon(start, es, i, u) && entry == EntryOf(es[i])
  }

  /** Every entry describes its peer's last beacon, which still counts. */
  ghost predicate Refreshed(start: string, es: seq<Event>, s: State) {
    && s.cluster == ClusterAt(start, es)
    && forall u :: u in s.dialed ==> exists i: nat :: Describes(s.dialed[u], start, es, i, u)
  }

  /** Every greater uuid whose last beacon still counts has an entry. */
  ghost predicate Complete(self: Uuid, start: string, es: seq<Event>, s: State) {
    forall u, i: nat :: LastBeacon(start, es, i, u) && Text.Less(self, u) ==> u in s.dialed
  }

  /** An entry present after a step is the one this step's beacon describes, or was there before and
      nothing happened to it. */
  lemma EntryOrigin(self: Uuid, s: State, e: Event, u: Uuid)
    requires Books(self, s) && Enabled(s, e) && u in Step(self, s, e).dialed
    ensures var s' := Step(self, s, e);
            && s'.cluster == s.cluster
            && if Beaconed(e, u, s.cluster) then s'.dialed[u] == EntryOf(e)
               else u in s.dialed && s'.dialed[u] == s.dialed[u] && Uneventful(e, u, s.cluster, s.dialed[u].lastSeen)
  {
    hide Proper, Open, Address, Lists, Text.Less;
    Text.LessTrichotomy(self, u);
  }

  lemma LastBeaconNow(start: string, es: seq<Event>, e: Event, u: Uuid)
    requires Beaconed(e, u, ClusterAt(start, es))
    ensures LastBeacon(start, es + [e], |es|, u)
  {
    ClusterSnoc(start, es, e);
    assert (es + [e])[..|es|] == es;
  }

  lemma LastBeaconStays(start: string, es: seq<Event>, e: Event, u: Uuid, i: nat)
    requires LastBeacon(start, es, i, u) && Uneventful(e, u, ClusterAt(start, es), es[i].now)
    ensures LastBeacon(start, es + [e], i, u)
  {
    ClusterSnoc(start, es, e);
    assert (es + [e])[..i] == es[..i];
    hide ClusterAt, Beaconed;
  }

  /** And only uneventful events leave it so. */
  lemma LastBeaconWas(start: string, es: seq<Event>, e: Event, u: Uuid, i: nat)
    requires LastBeacon(start, es + [e], i, u) && i < |es|
    ensures LastBeacon(start, es, i, u) && ClusterAt(start, es + [e]) == ClusterAt(start, es)
    ensures Uneventful(e, u, ClusterAt(start, es), es[i].now)
  {
    var es' := es + [e];
    var cluster := ClusterAt(start, es');
    assert es'[..i] == es[..i] && es'[|es|] == e && es'[i] == es[i];
    forall j | i < j < |es| ensures Uneventful(es[j], u, cluster, es[i].now) { assert es'[j] == es[j]; }
    ClusterStays(start, es, i, cluster);
  }

  lemma {:induction false} ClusterStays(start: string, es: seq<Event>, i: nat, cluster: string)
    requires i < |es| && ClusterAt(start, es[..i]) == cluster && es[i].Hear?
    requires forall j :: i < j < |es| && es[j].Swap? ==> es[j].cluster == cluster
    ensures ClusterAt(start, es) == cluster
  {
    var init := es[..|es| - 1];
    if i < |init| {
      assert init[..i] == es[..i];
      ClusterStays(start, init, i, cluster);
    }
  }

  lemma LastBeaconUnique(start: string, es: seq<Event>, i: nat, j: nat, u: Uuid)
    requires LastBeacon(start, es, i, u) && LastBeacon(start, es, j, u)
    ensures i == j
  {
  }

  lemma StepKeepsRefreshed(self: Uuid, start: string, s: State, es: seq<Event>, e: Event)
    requires Books(self, s) && Refreshed(start, es, s) && Enabled(s, e)
    ensures Refreshed(start, es + [e], Step(self, s, e))
  {
    hide Books, Enabled, Describes, Heard, ClusterAt, Beaconed;
    ClusterSnoc(start, es, e);
    var s' := Step(self, s, e);
    HeardCluster(self, s, e);
    hide Step;
    forall u | u in s'.dialed
      ensures exists i: nat :: Describes(s'.dialed[u], start, es + [e], i, u)
    {
      EntryOrigin(self, s, e, u);
      if Beaconed(e, u, s.cluster) {
        DescribesNow(start, es, e, u);
        assert Describes(s'.dialed[u], start, es + [e], |es|, u);
      } else {
        var i: nat :| Describes(s.dialed[u], start, es, i, u);
        DescribesStill(s.dialed[u], start, es, e, u, i);
        assert Describes(s'.dialed[u], start, es + [e], i, u);
      }
    }
  }

  lemma DescribesNow(start: string, es: seq<Event>, e: Event, u: Uuid)
    requires Beaconed(e, u, ClusterAt(start, es))
    ensures Describes(EntryOf(e), start, es + [e], |es|, u)
  {
    LastBeaconNow(start, es, e, u);
  }

  lemma DescribesStill(entry: PeerEntry, start: string, es: seq<Event>, e: Event, u: Uuid, i: nat)
    requires Describes(entry, start, es, i, u) && Uneventful(e, u, ClusterAt(start, es), entry.lastSeen)
    ensures Describes(entry, start, es + [e], i, u)
  {
    LastBeaconStays(start, es, e, u, i);
  }

  lemma HeardCluster(self: Uuid, s: State, e: Event)
    requires Enabled(s, e)
    ensures Step(self, s, e).cluster == if e.Swap? then e.cluster else s.cluster
  {
  }

  /** With room in the table, whoever's last beacon counts after a step is linked after it. */
  lemma StepKeepsComplete(self: Uuid, start: string, s: State, es: seq<Event>, e: Event)
    requires Refreshed(start, es, s) && Complete(self, start, es, s) && Enabled(s, e)
    requires |s.dialed| < MAX_DIALED_PEERS
    ensures Complete(self, start, es + [e], Step(self, s, e))
  {
    hide Enabled, LastBeacon, Step, Text.Less, ClusterAt;
    forall u, i: nat | LastBeacon(start, es + [e], i, u) && Text.Less(self, u)
      ensures u in Step(self, s, e).dialed
    {
      if i < |es| {
        LastBeaconWas(start, es, e, u, i);
        var j: nat :| Describes(s.dialed[u], start, es, j, u);
        LastBeaconUnique(start, es, i, j, u);
        SeenAt(s.dialed[u], start, es, i, u);
        LinkStays(self, s, e, u);
      } else {
        LastIsBeacon(start, es, e, u, i);
        LinkMade(self, s, e, u);
      }
    }
  }

  lemma SeenAt(entry: PeerEntry, start: string, es: seq<Event>, i: nat, u: Uuid)
    requires Describes(entry, start, es, i, u)
    ensures i < |es| && es[i].Hear? && entry.lastSeen == es[i].now
  {
  }

  lemma LastIsBeacon(start: string, es: seq<Event>, e: Event, u: Uuid, i: nat)
    requires LastBeacon(start, es + [e], i, u) && i >= |es|
    ensures Beaconed(e, u, ClusterAt(start, es))
  {
    ClusterSnoc(start, es, e);
  }

  lemma LinkStays(self: Uuid, s: State, e: Event, u: Uuid)
    requires Enabled(s, e) && u in s.dialed && Uneventful(e, u, s.cluster, s.dialed[u].lastSeen)
    ensures u in Step(self, s, e).dialed
  {
  }

  lemma LinkMade(self: Uuid, s: State, e: Event, u: Uuid)
    requires Enabled(s, e) && Beaconed(e, u, s.cluster) && Text.Less(self, u) && |s.dialed| < MAX_DIALED_PEERS
    ensures u in Step(self, s, e).dialed
  {
    Text.LessTrichotomy(self, u);
  }

  function Start(cluster: string): State { State(cluster, map[], []) }

  ghost predicate Runs(self: Uuid, s: State, es: seq<Event>, s': State)
    decreases |es|
  {
    if es == [] then s' == s else Enabled(s, es[0]) && Runs(self, Step(self, s, es[0]), es[1..], s')
  }

  lemma {:induction false} RunKeeps(self: Uuid, start: string, past: seq<Event>, s: State, es: seq<Event>, s': State)
    requires Books(self, s) && Refreshed(start, past, s) && Runs(self, s, es, s')
    ensures Books(self, s') && Refreshed(start, past + es, s')
    decreases |es|
  {
    hide Books, Refreshed, Step, Enabled;
    if es == [] {
      assert past + es == past;
    } else {
      StepKeepsBooks(self, s, es[0]);
      StepKeepsRefreshed(self, start, s, past, es[0]);
      RunKeeps(self, start, past + [es[0]], Step(self, s, es[0]), es[1..], s');
      assert past + [es[0]] + es[1..] == past + es;
    }
  }

  /** After any history: the links dialed and not dropped are the keys of the table, at most 64, all
      greater than the own uuid, none dialed twice without a drop between, and each last refreshed
      under the current cluster by the beacon its entry describes. */
  lemma DiscoveryBooks(self: Uuid, cluster: string, es: seq<Event>, s: State)
    requires Runs(self, Start(cluster), es, s)
    ensures Books(self, s) && Refreshed(cluster, es, s)
  {
    RunKeeps(self, cluster, [], Start(cluster), es, s);
    assert [] + es == es;
  }

  /** The table never fills up on the way. */
  ghost predicate Roomy(self: Uuid, s: State, es: seq<Event>)
    decreases |es|
  {
    es == [] || (|s.dialed| < MAX_DIALED_PEERS && Enabled(s, es[0]) && Roomy(self, Step(self, s, es[0]), es[1..]))
  }

  lemma {:induction false} RunComplete(self: Uuid, start: string, past: seq<Event>, s: State, es: seq<Event>, s': State)
    requires Books(self, s) && Refreshed(start, past, s) && Complete(self, start, past, s)
    requires Runs(self, s, es, s') && Roomy(self, s, es)
    ensures Complete(self, start, past + es, s')
    decreases |es|
  {
    hide Books, Refreshed, Complete, Step, Enabled;
    if es == [] {
      assert past + es == past;
    } else {
      StepKeepsBooks(self, s, es[0]);
      StepKeepsRefreshed(self, start, s, past, es[0]);
      StepKeepsComplete(self, start, s, past, es[0]);
      assert Runs(self, Step(self, s, es[0]), es[1..], s');
      RunComplete(self, start, past + [es[0]], Step(self, s, es[0]), es[1..], s');
      assert past + [es[0]] + es[1..] == past + es;
    }
  }

  /** Unless the table has been full, a peer is linked exactly when its uuid is the greater one and its
      last beacon was heard in the current cluster, since the last swap and in time for every expiry
      pass. */
  lemma LinkedIffHeard(self: Uuid, cluster: string, es: seq<Event>, s: State, u: Uuid)
    requires Runs(self, Start(cluster), es, s) && Roomy(self, Start(cluster), es)
    ensures u in Open(s.calls) <==> Text.Less(self, u) && exists i: nat :: LastBeacon(cluster, es, i, u)
  {
    DiscoveryBooks(self, cluster, es, s);
    assert [] + es == es;
    StartComplete(self, cluster);
    RunComplete(self, cluster, [], Start(cluster), es, s);
    hide Runs, Roomy, LastBeacon, Text.Less, Open, Proper;
    if u in s.dialed {
      var i: nat :| Describes(s.dialed[u], cluster, es, i, u);
      assert LastBeacon(cluster, es, i, u);
    }
  }

  lemma StartComplete(self: Uuid, cluster: string)
    ensures var s := Start(cluster);
            Books(self, s) && Refreshed(cluster, [], s) && Complete(self, cluster, [], s)
  {
  }

  /** Of two brokers at most one ever dials the other, and none dials itself. */
  lemma OneSideDials(a: Uuid, b: Uuid, ca: string, cb: string, ea: seq<Event>, eb: seq<Event>, sa: State, sb: State,
                     i: nat, j: nat)
    requires Runs(a, Start(ca), ea, sa) && Runs(b, Start(cb), eb, sb)
    requires i < |sa.calls| && j < |sb.calls| && sa.calls[i].Dial? && sb.calls[j].Dial?
    ensures !(sa.calls[i].uuid == b && sb.calls[j].uuid == a)
  {
    DiscoveryBooks(a, ca, ea, sa);
    DiscoveryBooks(b, cb, eb, sb);
    Text.LessTrichotomy(a, b);
  }

  /** A peer's beacons keep ahead of every expiry pass; `last` is when it was last heard. */
  predicate KeptAlive(es: seq<Event>, u: Uuid, cluster: string, last: int)
    decreases |es|
  {
    es == [] || (
      && (es[0].Swap? ==> es[0].cluster == cluster)
      && (es[0].Expire? ==> es[0].now - last <= PEER_TIMEOUT)
      && KeptAlive(es[1..], u, cluster, if Beaconed(es[0], u, cluster) then es[0].now else last))
  }

  /** A linked peer that keeps beaconing keeps its link, whatever else is heard: no flood of other
      uuids crowds it out. */
  lemma {:induction false} LivePeerKept(self: Uuid, s: State, es: seq<Event>, s': State, u: Uuid)
    requires u in s.dialed && Runs(self, s, es, s') && Text.Less(self, u)
    requires KeptAlive(es, u, s.cluster, s.dialed[u].lastSeen)
    ensures u in s'.dialed
    ensures s.calls <= s'.calls && Drop(u) !in s'.calls[|s.calls|..]
    decreases |es|
  {
    if es == [] {
    } else {
      var mid := Step(self, s, es[0]);
      Text.LessTrichotomy(self, u);
      assert mid.cluster == s.cluster && u in mid.dialed;
      LivePeerKept(self, mid, es[1..], s', u);
      assert s'.calls[|s.calls|..] == mid.calls[|s.calls|..] + s'.calls[|mid.calls|..];
      assert Drop(u) !in mid.calls[|s.calls|..];
    }
  }

  class BrokerDiscovery {
    const selfUuid: Uuid
    var cluster: string
    var dialed: map<Uuid, PeerEntry>
    var calls: seq<Call>

    function Now(): State
      reads this
    {
      State(cluster, dialed, calls)
    }

    constructor (cluster: string, selfUuid: Uuid)
      ensures this.selfUuid == selfUuid && Now() == Start(cluster)
    {
      this.cluster, this.selfUuid := cluster, selfUuid;
      dialed, calls := map[], [];
    }

    method OnDatagram(senderIp: string, heard: Option<Beacon>, now: int)
      modifies this
      ensures Now() == Step(selfUuid, old(Now()), Hear(senderIp, heard, now))
    {
      if heard.None? {
        return;
      }
      var b := heard.value;
      if b.uuid == selfUuid {
        return;
      }
      if !Text.Less(selfUuid, b.uuid) {
        return;
      }
      var address := Address(senderIp, b.routerPort);
      if b.cluster != cluster {
        return;
      }
      if b.uuid !in dialed {
        if |dialed| >= MAX_DIALED_PEERS {
          return;
        }
        dialed := dialed[b.uuid := PeerEntry(address, now)];
        calls := calls + [Dial(b.uuid, address)];
      } else {
        dialed := dialed[b.uuid := PeerEntry(address, now)];
      }
    }

    /** The drop callback for each uuid of a list, in order. */
    method DropAll(order: seq<Uuid>)
      modifies this`calls
      ensures calls == old(calls) + Drops(order)
    {
      for i := 0 to |order|
        invariant calls == old(calls) + Drops(order)[..i]
      {
        calls := calls + [Drop(order[i])];
      }
      assert Drops(order)[..|order|] == Drops(order);
    }

    method SetCluster(to: string) returns (order: seq<Uuid>)
      modifies this
      ensures Enabled(old(Now()), Swap(to, order))
      ensures Now() == Step(selfUuid, old(Now()), Swap(to, order))
    {
      order := [];
      if to == cluster {
        return;
      }
      cluster := to;
      var left := dialed.Keys;
      while left != {}
        invariant left <= dialed.Keys && Lists(order, dialed.Keys - left)
        decreases left
      {
        var u :| u in left;
        order, left := order + [u], left - {u};
      }
      dialed := map[];
      DropAll(order);
    }

    method ExpireStale(now: int) returns (lost: seq<Uuid>)
      modifies this
      ensures Enabled(old(Now()), Expire(now, lost))
      ensures Now() == Step(selfUuid, old(Now()), Expire(now, lost))
    {
      lost := [];
      var left := dialed.Keys;
      while left != {}
        invariant left <= dialed.Keys && left <= old(dialed).Keys
        invariant dialed == old(dialed) - (Stale(old(dialed), now) - left)
        invariant Lists(lost, Stale(old(dialed), now) - left)
        modifies this`dialed
        decreases left
      {
        var u :| u in left;
        if now - dialed[u].lastSeen > PEER_TIMEOUT {
          lost := lost + [u];
          dialed := dialed - {u};
        }
        left := left - {u};
      }
      DropAll(lost);
    }
  }
}
