/** One client session seen from both ends: the control messages on their way to the broker, the
    subscriptions the broker holds for the session, and the RESETs on their way back. Peer links
    (server/broker.cpp) and application clients (common/connectionmanager.cpp) both run on it. */
module Replica {
  import opened Keys
  import Text

  datatype Ctl =
    | Connect
    | Sub(topic: Topic, scope: Origin)
    | Unsub(topic: Topic)

  /** The topics a broker holds for one session, each with its scope. */
  type View = map<Topic, Origin>

  function Apply1(v: View, m: Ctl): View {
    match m
    case Connect => v
    case Sub(t, scope) => v[t := scope]
    case Unsub(t) => v - {t}
  }

  /** The view once every message has been applied, in order. */
  function Apply(v: View, ms: seq<Ctl>): View
    decreases |ms|
  {
    if ms == [] then v else Apply(Apply1(v, ms[0]), ms[1..])
  }

  lemma {:induction false} ApplyConcat(v: View, a: seq<Ctl>, b: seq<Ctl>)
    ensures Apply(v, a + b) == Apply(Apply(v, a), b)
    decreases |a|
  {
    if a == [] {
      assert a + b == b;
    } else {
      assert (a + b)[1..] == a[1..] + b;
      ApplyConcat(Apply1(v, a[0]), a[1..], b);
    }
  }

  predicate SubView(a: View, b: View) {
    forall t :: t in a ==> t in b && a[t] == b[t]
  }

  lemma {:induction false} ApplyMonotone(a: View, b: View, ms: seq<Ctl>)
    requires SubView(a, b)
    ensures SubView(Apply(a, ms), Apply(b, ms))
    decreases |ms|
  {
    if ms == [] {
    } else {
      ApplyMonotone(Apply1(a, ms[0]), Apply1(b, ms[0]), ms[1..]);
    }
  }

  /** Losing the session and any prefix of what was in flight leaves nothing that was not asked for. */
  lemma ApplySuffix(v: View, ms: seq<Ctl>, k: nat)
    requires k <= |ms|
    ensures SubView(Apply(map[], ms[k..]), Apply(v, ms))
  {
    assert ms == ms[..k] + ms[k..];
    ApplyConcat(v, ms[..k], ms[k..]);
    ApplyMonotone(map[], Apply(v, ms[..k]), ms[k..]);
  }

  /** Applying the messages one by one, the view never holds more than n topics and never sees a
      topic a broker would refuse. */
  ghost predicate Fits(v: View, ms: seq<Ctl>, n: nat)
    decreases |ms|
  {
    |v| <= n && (ms == [] || ((ms[0].Sub? ==> LegalTopic(ms[0].topic)) && Fits(Apply1(v, ms[0]), ms[1..], n)))
  }

  lemma FitsHead(v: View, ms: seq<Ctl>, n: nat)
    requires Fits(v, ms, n)
    ensures |v| <= n
    ensures ms == [] ==> Apply(v, ms) == v
    ensures ms != [] ==>
              && (ms[0].Sub? ==> LegalTopic(ms[0].topic)) && Fits(Apply1(v, ms[0]), ms[1..], n)
              && Apply(v, ms) == Apply(Apply1(v, ms[0]), ms[1..])
  {
  }

  lemma {:induction false} FitsConcat(v: View, a: seq<Ctl>, b: seq<Ctl>, n: nat)
    requires Fits(v, a, n) && Fits(Apply(v, a), b, n)
    ensures Fits(v, a + b, n)
    decreases |a|
  {
    hide Fits, Apply, Apply1, LegalTopic;
    FitsHead(v, a, n);
    if a == [] {
      assert a + b == b;
    } else {
      var v', rest := Apply1(v, a[0]), a[1..];
      FitsConcat(v', rest, b, n);
      FitsCons(v, a[0], rest + b, n);
      assert [a[0]] + (rest + b) == a + b;
    }
  }

  lemma FitsCons(v: View, m: Ctl, ms: seq<Ctl>, n: nat)
    requires |v| <= n && (m.Sub? ==> LegalTopic(m.topic)) && Fits(Apply1(v, m), ms, n)
    ensures Fits(v, [m] + ms, n)
  {
    assert ([m] + ms)[1..] == ms;
  }

  lemma {:induction false} SubViewSize(a: View, b: View)
    requires SubView(a, b)
    ensures |a| <= |b|
  {
    if a == map[] {
    } else {
      var t :| t in a;
      SubViewSize(a - {t}, b - {t});
      assert a.Keys == (a - {t}).Keys + {t};
      assert b.Keys == (b - {t}).Keys + {t};
    }
  }

  lemma {:induction false} FitsMonotone(a: View, b: View, ms: seq<Ctl>, n: nat)
    requires SubView(a, b) && Fits(b, ms, n)
    ensures Fits(a, ms, n)
    decreases |ms|
  {
    SubViewSize(a, b);
    if ms == [] {
    } else {
      FitsMonotone(Apply1(a, ms[0]), Apply1(b, ms[0]), ms[1..], n);
    }
  }

  lemma {:induction false} FitsSuffix(v: View, ms: seq<Ctl>, k: nat, n: nat)
    requires k <= |ms| && Fits(v, ms, n)
    ensures Fits(map[], ms[k..], n)
    decreases |ms|
  {
    if k == 0 {
      FitsMonotone(map[], v, ms, n);
    } else {
      FitsSuffix(Apply1(v, ms[0]), ms[1..], k - 1, n);
      assert ms[1..][k - 1..] == ms[k..];
    }
  }

  /** A broker applies a SUBSCRIBE only within its limits: a legal topic, and a free place for a new
      one. */
  function Accept(v: View, m: Ctl): View {
    if m.Sub? && !(LegalTopic(m.topic) && (m.topic in v || |v| < MAX_SUBSCRIPTIONS)) then v
    else Apply1(v, m)
  }

  lemma FitsAccepted(v: View, ms: seq<Ctl>, n: nat)
    requires Fits(v, ms, n) && n <= MAX_SUBSCRIPTIONS && ms != []
    ensures Accept(v, ms[0]) == Apply1(v, ms[0])
  {
    if ms[0].Sub? && ms[0].topic !in v {
      assert Apply1(v, ms[0]).Keys == v.Keys + {ms[0].topic};
    }
  }

  /** `known`: the broker has the session; `view`: what it holds for it; `chan`: control messages
      sent and not yet received, oldest first; `resets`: RESET requests not yet answered. */
  datatype Session = Session(known: bool, view: View, chan: seq<Ctl>, resets: nat)

  /** What the broker's view will be once everything in flight has arrived. */
  function Pending(s: Session): View { Apply(s.view, s.chan) }

  /** The broker receives the oldest control message. An unknown session that does not lead with
      CONNECT draws a RESET; the message is still processed. */
  function Receive(s: Session): Session
    requires s.chan != []
  {
    Session(true, Accept(s.view, s.chan[0]), s.chan[1..],
            if s.known || s.chan[0].Connect? then s.resets else s.resets + 1)
  }

  /** The broker receives something else on the session: a heartbeat or a publish. */
  function Poke(s: Session): Session {
    if s.known then s else s.(known := true, resets := s.resets + 1)
  }

  /** The broker forgets the session (timeout, restart, cluster swap), perhaps losing the first
      `lost` messages in flight and some RESETs with it. */
  function Forget(s: Session, lost: nat, resets: nat): Session
    requires lost <= |s.chan|
  {
    Session(false, map[], s.chan[lost..], resets)
  }

  function Push(s: Session, ms: seq<Ctl>): Session { s.(chan := s.chan + ms) }

  /** A RESET reaches the client, which answers with its whole subscription set. */
  function AnswerReset(s: Session, snapshot: seq<Ctl>): Session
    requires s.resets > 0
  {
    Push(s.(resets := s.resets - 1), snapshot)
  }

  predicate HasConnect(ms: seq<Ctl>) { Connect in ms }

  /** The broker has neither forgotten the session unawares nor a RESET outstanding for it. */
  predicate Steady(s: Session) {
    s.resets == 0 && (s.known || HasConnect(s.chan))
  }

  // What the client wants the broker to hold, and the invariant that ties the session to it.

  /** `must`: subscriptions the broker has to hold; `may`: topics it is allowed to hold at all. */
  datatype Goal = Goal(must: View, may: set<Topic>)

  predicate Safe(g: Goal, v: View) { v.Keys <= g.may }

  predicate Exact(g: Goal, v: View) { SubView(g.must, v) }

  /** Whatever is in flight, the broker ends up with nothing outside the goal; and unless it has
      forgotten the session or a RESET is outstanding, with everything the goal demands. From any
      CONNECT on, the channel alone rebuilds the goal. No message on the way will be refused. */
  ghost predicate Inv(s: Session, g: Goal, n: nat) {
    && Safe(g, Pending(s))
    && (Steady(s) ==> Exact(g, Pending(s)))
    && (forall i :: 0 <= i < |s.chan| && s.chan[i] == Connect ==> Exact(g, Apply(map[], s.chan[i..])))
    && Fits(s.view, s.chan, n)
    && (!s.known ==> s.view == map[])
  }

  /** Sending `ms` as the goal moves from g to g' takes every view the goal allowed to one the new
      goal allows, and keeps complete views complete. */
  ghost predicate Carries(g: Goal, g': Goal, ms: seq<Ctl>, n: nat) {
    && (forall v {:trigger Apply(v, ms)} :: Safe(g, v) ==>
          Safe(g', Apply(v, ms)) && (Exact(g, v) ==> Exact(g', Apply(v, ms))))
    && (forall v {:trigger Fits(v, ms, n)} :: Safe(g, v) && |v| <= n ==> Fits(v, ms, n))
    && !HasConnect(ms)
  }

  /** Sending `ms` completes any view the goal allows. */
  ghost predicate Restores(g: Goal, ms: seq<Ctl>, n: nat) {
    && (forall v {:trigger Apply(v, ms)} :: Safe(g, v) ==> Safe(g, Apply(v, ms)) && Exact(g, Apply(v, ms)))
    && (forall v {:trigger Fits(v, ms, n)} :: Safe(g, v) && |v| <= n ==> Fits(v, ms, n))
  }

  lemma {:induction false} FitsEnd(v: View, ms: seq<Ctl>, n: nat)
    requires Fits(v, ms, n)
    ensures |Apply(v, ms)| <= n
    decreases |ms|
  {
    if ms == [] {
    } else {
      FitsEnd(Apply1(v, ms[0]), ms[1..], n);
    }
  }

  lemma CarriesTrans(g: Goal, g1: Goal, g2: Goal, a: seq<Ctl>, b: seq<Ctl>, n: nat)
    requires Carries(g, g1, a, n) && Carries(g1, g2, b, n)
    ensures Carries(g, g2, a + b, n)
  {
    forall v | Safe(g, v)
      ensures Safe(g2, Apply(v, a + b)) && (Exact(g, v) ==> Exact(g2, Apply(v, a + b)))
    {
      ApplyConcat(v, a, b);
    }
    forall v | Safe(g, v) && |v| <= n
      ensures Fits(v, a + b, n)
    {
      assert Fits(v, a, n);
      FitsEnd(v, a, n);
      assert Safe(g1, Apply(v, a));
      FitsConcat(v, a, b, n);
    }
  }

  lemma ReceiveKeeps(s: Session, g: Goal, n: nat)
    requires Inv(s, g, n) && s.chan != [] && n <= MAX_SUBSCRIPTIONS
    ensures Inv(Receive(s), g, n)
    ensures Accept(s.view, s.chan[0]) == Apply1(s.view, s.chan[0])
  {
    FitsAccepted(s.view, s.chan, n);
    var s' := Receive(s);
    assert Pending(s') == Pending(s);
    forall i | 0 <= i < |s'.chan| && s'.chan[i] == Connect
      ensures Exact(g, Apply(map[], s'.chan[i..]))
    {
      assert s.chan[i + 1] == Connect && s'.chan[i..] == s.chan[i + 1..];
    }
  }

  lemma PokeKeeps(s: Session, g: Goal, n: nat)
    requires Inv(s, g, n)
    ensures Inv(Poke(s), g, n)
  {
  }

  lemma ForgetKeeps(s: Session, g: Goal, n: nat, lost: nat, resets: nat)
    requires Inv(s, g, n) && lost <= |s.chan|
    ensures Inv(Forget(s, lost, resets), g, n)
  {
    var s' := Forget(s, lost, resets);
    ApplySuffix(s.view, s.chan, lost);
    FitsSuffix(s.view, s.chan, lost, n);
    forall i | 0 <= i < |s'.chan| && s'.chan[i] == Connect
      ensures Exact(g, Apply(map[], s'.chan[i..])) && Exact(g, Pending(s'))
    {
      assert s.chan[lost + i] == Connect && s'.chan[i..] == s.chan[lost + i..];
      ApplySuffix(map[], s'.chan, i);
    }
  }

  /** From a CONNECT in flight on, nothing but the channel matters, and it is within the goal. */
  lemma ConnectSuffixSafe(s: Session, g: Goal, n: nat, i: nat)
    requires Inv(s, g, n) && i < |s.chan|
    ensures Safe(g, Apply(map[], s.chan[i..]))
  {
    ApplySuffix(s.view, s.chan, i);
  }

  lemma PushKeeps(s: Session, g: Goal, g': Goal, ms: seq<Ctl>, n: nat)
    requires Inv(s, g, n) && Carries(g, g', ms, n)
    ensures Inv(Push(s, ms), g', n)
  {
    hide Apply, Fits, Exact, Safe;
    var s' := Push(s, ms);
    ApplyConcat(s.view, s.chan, ms);
    FitsEnd(s.view, s.chan, n);
    FitsConcat(s.view, s.chan, ms, n);
    assert HasConnect(s'.chan) <==> HasConnect(s.chan);
    forall i | 0 <= i < |s'.chan| && s'.chan[i] == Connect
      ensures Exact(g', Apply(map[], s'.chan[i..]))
    {
      assert i < |s.chan|;
      assert s'.chan[i..] == s.chan[i..] + ms;
      ConnectSuffixSafe(s, g, n, i);
      ApplyConcat(map[], s.chan[i..], ms);
    }
  }

  lemma AnswerKeeps(s: Session, g: Goal, ms: seq<Ctl>, n: nat)
    requires Inv(s, g, n) && s.resets > 0 && Restores(g, ms, n) && !HasConnect(ms)
    ensures Inv(AnswerReset(s, ms), g, n)
  {
    RestoreKeeps(s.(resets := s.resets - 1), g, g, ms, n);
  }

  /** Sending the whole subscription set, with or without a CONNECT in front, completes the session
      whatever state it was in. */
  lemma RestoreKeeps(s: Session, g: Goal, g': Goal, ms: seq<Ctl>, n: nat)
    requires Fits(s.view, s.chan, n) && (!s.known ==> s.view == map[])
    requires Safe(g, Pending(s)) && g.may <= g'.may && Restores(g', ms, n)
    requires forall i :: 0 < i < |ms| ==> ms[i] != Connect
    ensures Inv(Push(s, ms), g', n)
  {
    var s' := Push(s, ms);
    ApplyConcat(s.view, s.chan, ms);
    FitsEnd(s.view, s.chan, n);
    FitsConcat(s.view, s.chan, ms, n);
    forall i | 0 <= i < |s'.chan| && s'.chan[i] == Connect
      ensures Exact(g', Apply(map[], s'.chan[i..]))
    {
      if i < |s.chan| {
        assert s'.chan[i..] == s.chan[i..] + ms;
        ApplySuffix(s.view, s.chan, i);
        ApplyConcat(map[], s.chan[i..], ms);
      } else {
        assert ms[i - |s.chan|] == Connect;
        assert s'.chan[i..] == ms;
      }
    }
  }

  lemma ConnectRestores(g: Goal, ms: seq<Ctl>, n: nat)
    requires Restores(g, ms, n)
    ensures Restores(g, [Connect] + ms, n)
  {
    var all := [Connect] + ms;
    assert all[1..] == ms;
    forall v
      ensures Apply(v, all) == Apply(v, ms)
      ensures |v| <= n ==> (Fits(v, all, n) <==> Fits(v, ms, n))
    {
    }
  }

  // A session taken over with topics in it that the goal does not allow.

  /** Every goal here demands only what it allows. */
  predicate Sound(g: Goal) { g.must.Keys <= g.may }

  /** Such a goal with room for what it allows. */
  predicate Apt(g: Goal, n: nat) { Sound(g) && |g.may| <= n }

  /** Room for the stale topics besides. */
  function Bound(n: nat, stale: set<Topic>): nat { n + |stale| }

  function Wider(g: Goal, stale: set<Topic>): Goal { g.(may := g.may + stale) }

  /** b holds what a holds and nothing else but topics of `extra`. */
  predicate Beyond(a: View, b: View, extra: set<Topic>) {
    SubView(a, b) && b.Keys <= a.Keys + extra
  }

  lemma {:induction false} ApplyBeyond(a: View, b: View, extra: set<Topic>, ms: seq<Ctl>)
    requires Beyond(a, b, extra)
    ensures Beyond(Apply(a, ms), Apply(b, ms), extra)
    decreases |ms|
  {
    if ms == [] {
    } else {
      ApplyBeyond(Apply1(a, ms[0]), Apply1(b, ms[0]), extra, ms[1..]);
    }
  }

  lemma BeyondSize(a: View, b: View, extra: set<Topic>)
    requires Beyond(a, b, extra)
    ensures |b| <= |a| + |extra|
  {
    Text.SubsetSize(b.Keys, a.Keys + extra);
    assert |a| == |a.Keys| && |b| == |b.Keys|;
  }

  lemma {:induction false} FitsBeyond(a: View, b: View, extra: set<Topic>, ms: seq<Ctl>, n: nat)
    requires Beyond(a, b, extra) && Fits(a, ms, n)
    ensures Fits(b, ms, Bound(n, extra))
    decreases |ms|
  {
    BeyondSize(a, b, extra);
    if ms == [] {
    } else {
      BeyondOn(a, b, extra, ms[0]);
      hide Beyond, Apply1;
      FitsBeyond(Apply1(a, ms[0]), Apply1(b, ms[0]), extra, ms[1..], n);
    }
  }

  lemma BeyondOn(a: View, b: View, extra: set<Topic>, m: Ctl)
    requires Beyond(a, b, extra)
    ensures Beyond(Apply1(a, m), Apply1(b, m), extra)
  {
  }

  /** The part of a view the goal allows. */
  function Allowed(g: Goal, v: View): View { map t | t in v && t in g.may :: v[t] }

  lemma AllowedPart(g: Goal, stale: set<Topic>, v: View, n: nat)
    requires Safe(Wider(g, stale), v) && Apt(g, n)
    ensures var a := Allowed(g, v);
            Beyond(a, v, stale) && Safe(g, a) && |a| <= n && (Exact(g, v) ==> Exact(g, a))
  {
    var a := Allowed(g, v);
    Text.SubsetSize(a.Keys, g.may);
    assert |a| == |a.Keys|;
  }

  lemma WiderApply(g: Goal, stale: set<Topic>, v: View, ms: seq<Ctl>, n: nat)
    requires Safe(Wider(g, stale), v) && Apt(g, n)
    ensures var a := Allowed(g, v);
            && Safe(g, a) && |a| <= n && (Exact(g, v) ==> Exact(g, a))
            && Beyond(Apply(a, ms), Apply(v, ms), stale)
            && (Fits(a, ms, n) ==> Fits(v, ms, Bound(n, stale)))
  {
    hide Apply, Fits, Allowed, Safe, Exact, Beyond, Wider;
    var a := Allowed(g, v);
    AllowedPart(g, stale, v, n);
    ApplyBeyond(a, v, stale, ms);
    if Fits(a, ms, n) { FitsBeyond(a, v, stale, ms, n); }
  }

  lemma WiderCarriesToo(g: Goal, g': Goal, stale: set<Topic>, ms: seq<Ctl>, n: nat)
    requires Carries(g, g', ms, n) && Apt(g, n)
    ensures Carries(Wider(g, stale), Wider(g', stale), ms, Bound(n, stale))
  {
    hide Apply, Fits;
    forall v | Safe(Wider(g, stale), v)
      ensures Fits(v, ms, Bound(n, stale))
      ensures Safe(Wider(g', stale), Apply(v, ms))
      ensures Exact(Wider(g, stale), v) ==> Exact(Wider(g', stale), Apply(v, ms))
    {
      WiderApply(g, stale, v, ms, n);
      assert Fits(Allowed(g, v), ms, n);
    }
  }

  lemma WiderRestoresToo(g: Goal, stale: set<Topic>, ms: seq<Ctl>, n: nat)
    requires Restores(g, ms, n) && Apt(g, n)
    ensures Restores(Wider(g, stale), ms, Bound(n, stale))
  {
    hide Apply, Fits;
    forall v | Safe(Wider(g, stale), v)
      ensures Fits(v, ms, Bound(n, stale))
      ensures Safe(Wider(g, stale), Apply(v, ms)) && Exact(Wider(g, stale), Apply(v, ms))
    {
      WiderApply(g, stale, v, ms, n);
      assert Fits(Allowed(g, v), ms, n);
    }
  }

  /** The same channel on a session the broker knows nothing of, with a RESET to come. */
  function Unheard(chan: seq<Ctl>): Session { Session(false, map[], chan, 1) }

  /** The session is on its goal but for the topics it was taken over with. The channel alone stays on
      the goal, so that once the broker forgets the session nothing stale is left. As long as there
      is room for the goal beside the stale topics, the session is as complete as it would be
      without them. */
  ghost predicate OnTrack(s: Session, g: Goal, stale: set<Topic>, n: nat) {
    && Apt(g, n)
    && Inv(Unheard(s.chan), g, n)
    && Safe(Wider(g, stale), Pending(s))
    && (!s.known ==> s.view == map[])
    && (Bound(n, stale) <= MAX_SUBSCRIPTIONS ==> Inv(s, Wider(g, stale), Bound(n, stale)))
  }

  /** A broker at its limits applies less, never more. */
  lemma {:induction false} ApplyFewer(a: View, b: View, ms: seq<Ctl>)
    requires a.Keys <= b.Keys
    ensures Apply(a, ms).Keys <= Apply(b, ms).Keys
    decreases |ms|
  {
    if ms == [] {
    } else {
      ApplyFewer(Apply1(a, ms[0]), Apply1(b, ms[0]), ms[1..]);
    }
  }

  lemma ReceiveSafe(s: Session)
    requires s.chan != []
    ensures Pending(Receive(s)).Keys <= Pending(s).Keys
  {
    ApplyFewer(Accept(s.view, s.chan[0]), Apply1(s.view, s.chan[0]), s.chan[1..]);
  }

  lemma OnTrackReceive(s: Session, g: Goal, stale: set<Topic>, n: nat)
    requires OnTrack(s, g, stale, n) && s.chan != []
    ensures OnTrack(Receive(s), g, stale, n)
  {
    hide Inv, Pending, Accept;
    ReceiveSafe(s);
    ForgetKeeps(Unheard(s.chan), g, n, 1, 1);
    if Bound(n, stale) <= MAX_SUBSCRIPTIONS { ReceiveKeeps(s, Wider(g, stale), Bound(n, stale)); }
  }

  lemma OnTrackPoke(s: Session, g: Goal, stale: set<Topic>, n: nat)
    requires OnTrack(s, g, stale, n)
    ensures OnTrack(Poke(s), g, stale, n)
  {
    hide Inv;
    if Bound(n, stale) <= MAX_SUBSCRIPTIONS { PokeKeeps(s, Wider(g, stale), Bound(n, stale)); }
  }

  /** Forgetting the session rids it of what was stale. */
  lemma OnTrackForget(s: Session, g: Goal, stale: set<Topic>, n: nat, lost: nat, resets: nat)
    requires OnTrack(s, g, stale, n) && lost <= |s.chan|
    ensures OnTrack(Forget(s, lost, resets), g, {}, n)
  {
    hide Inv, Safe, Pending, Apt, Wider, Bound;
    var x := Unheard(s.chan);
    ForgetKeeps(x, g, n, lost, 1);
    ForgetKeeps(x, g, n, lost, resets);
    NothingStale(g, n);
    InvSafe(Forget(x, lost, resets), g, n);
  }

  lemma NothingStale(g: Goal, n: nat)
    ensures Wider(g, {}) == g && Bound(n, {}) == n
  {
    assert g.may + {} == g.may;
  }

  lemma InvSafe(s: Session, g: Goal, n: nat)
    requires Inv(s, g, n)
    ensures Safe(g, Pending(s))
  {
  }

  lemma OnTrackPush(s: Session, g: Goal, g': Goal, stale: set<Topic>, ms: seq<Ctl>, n: nat)
    requires OnTrack(s, g, stale, n) && Carries(g, g', ms, n) && Apt(g', n)
    ensures OnTrack(Push(s, ms), g', stale, n)
  {
    hide Inv, Carries, Safe, Pending, Wider, Apt, Bound;
    WiderCarriesToo(g, g', stale, ms, n);
    PushKeeps(Unheard(s.chan), g, g', ms, n);
    PushSafe(s, Wider(g, stale), Wider(g', stale), ms, Bound(n, stale));
    if Bound(n, stale) <= MAX_SUBSCRIPTIONS { PushKeeps(s, Wider(g, stale), Wider(g', stale), ms, Bound(n, stale)); }
  }

  lemma PushSafe(s: Session, g: Goal, g': Goal, ms: seq<Ctl>, n: nat)
    requires Safe(g, Pending(s)) && Carries(g, g', ms, n)
    ensures Safe(g', Pending(Push(s, ms)))
  {
    ApplyConcat(s.view, s.chan, ms);
  }

  lemma RestoreSafe(s: Session, g: Goal, ms: seq<Ctl>, n: nat)
    requires Safe(g, Pending(s)) && Restores(g, ms, n)
    ensures Safe(g, Pending(Push(s, ms)))
  {
    ApplyConcat(s.view, s.chan, ms);
  }

  lemma OnTrackAnswer(s: Session, g: Goal, stale: set<Topic>, ms: seq<Ctl>, n: nat)
    requires OnTrack(s, g, stale, n) && s.resets > 0 && Restores(g, ms, n) && !HasConnect(ms)
    ensures OnTrack(AnswerReset(s, ms), g, stale, n)
  {
    assert forall i :: 0 < i < |ms| ==> ms[i] != Connect;
    hide Inv, Restores, Safe, Pending, Wider, Apt, Bound, HasConnect;
    WiderRestoresToo(g, stale, ms, n);
    RestoreUnheard(s.chan, g, ms, n);
    RestoreSafe(s.(resets := s.resets - 1), Wider(g, stale), ms, Bound(n, stale));
    assert Pending(s.(resets := s.resets - 1)) == Pending(s) by { SamePending(s, s.resets - 1); }
    if Bound(n, stale) <= MAX_SUBSCRIPTIONS { AnswerKeeps(s, Wider(g, stale), ms, Bound(n, stale)); }
  }

  lemma SamePending(s: Session, resets: nat)
    ensures Pending(s.(resets := resets)) == Pending(s)
  {
  }

  lemma RestoreUnheard(chan: seq<Ctl>, g: Goal, ms: seq<Ctl>, n: nat)
    requires Inv(Unheard(chan), g, n) && Restores(g, ms, n) && forall i :: 0 < i < |ms| ==> ms[i] != Connect
    ensures Inv(Unheard(chan + ms), g, n)
  {
    hide Restores;
    RestoreKeeps(Unheard(chan), g, g, ms, n);
  }

  /** Taking over a session with a CONNECT and everything: it is on track with whatever it holds outside
      the goal. */
  lemma OnTrackTakeover(known: bool, view: View, g: Goal, stale: set<Topic>, ms: seq<Ctl>, n: nat)
    requires Apt(g, n) && Restores(g, ms, n) && !HasConnect(ms)
    requires view.Keys <= g.may + stale && (!known ==> view == map[])
    ensures OnTrack(Session(known, view, [Connect] + ms, 0), g, stale, n)
  {
    var all := [Connect] + ms;
    ConnectRestores(g, ms, n);
    assert forall i :: 0 < i < |all| ==> all[i] == ms[i - 1];
    hide Restores, Inv, Safe, Pending, Wider, Apt, Bound, HasConnect;
    UnheardRestored(g, all, n);
    Takeover(known, view, g, stale, all, n);
    InvSafe(Session(known, view, all, 0), Wider(g, stale), Bound(n, stale));
  }

  lemma UnheardRestored(g: Goal, all: seq<Ctl>, n: nat)
    requires Restores(g, all, n) && forall i :: 0 < i < |all| ==> all[i] != Connect
    ensures Inv(Unheard(all), g, n)
  {
    assert Inv(Unheard([]), g, n);
    hide Inv, Restores;
    RestoreUnheard([], g, all, n);
    assert [] + all == all;
  }

  lemma Takeover(known: bool, view: View, g: Goal, stale: set<Topic>, all: seq<Ctl>, n: nat)
    requires Apt(g, n) && Restores(g, all, n) && forall i :: 0 < i < |all| ==> all[i] != Connect
    requires view.Keys <= g.may + stale && (!known ==> view == map[])
    ensures Inv(Session(known, view, all, 0), Wider(g, stale), Bound(n, stale))
  {
    WiderRestoresToo(g, stale, all, n);
    ViewFits(view, g, stale, n);
    assert Safe(Wider(g, stale), view);
    hide Restores, Fits, Inv, Wider;
    RestoreEmpty(known, view, Wider(g, stale), all, Bound(n, stale));
  }

  lemma RestoreEmpty(known: bool, view: View, g: Goal, all: seq<Ctl>, n: nat)
    requires Fits(view, [], n) && Safe(g, view) && (!known ==> view == map[])
    requires Restores(g, all, n) && forall i :: 0 < i < |all| ==> all[i] != Connect
    ensures Inv(Session(known, view, all, 0), g, n)
  {
    hide Restores;
    RestoreKeeps(Session(known, view, [], 0), g, g, all, n);
    assert [] + all == all;
  }

  lemma ViewFits(view: View, g: Goal, stale: set<Topic>, n: nat)
    requires view.Keys <= g.may + stale && |g.may| <= n
    ensures Fits(view, [], Bound(n, stale))
  {
    Text.SubsetSize(view.Keys, g.may + stale);
    assert |g.may + stale| <= |g.may| + |stale|;
    assert |view| == |view.Keys|;
  }

  /** Messages that only name topics of M keep every view inside M. */
  lemma {:induction false} Within(v: View, ms: seq<Ctl>, m: set<Topic>, n: nat)
    requires v.Keys <= m && |m| <= n
    requires forall i :: 0 <= i < |ms| && ms[i].Sub? ==> ms[i].topic in m && LegalTopic(ms[i].topic)
    ensures Fits(v, ms, n) && Apply(v, ms).Keys <= m
    decreases |ms|
  {
    Text.SubsetSize(v.Keys, m);
    if ms == [] {
    } else {
      Within(Apply1(v, ms[0]), ms[1..], m, n);
    }
  }

  /** One SUBSCRIBE moves the goal by one topic. */
  lemma SubCarries(g: Goal, g': Goal, t: Topic, scope: Origin, n: nat)
    requires SubView(g'.must, g.must[t := scope]) && g.may + {t} <= g'.may
    requires LegalTopic(t) && |g'.may| <= n
    ensures Carries(g, g', [Sub(t, scope)], n)
  {
    var ms := [Sub(t, scope)];
    forall v | Safe(g, v)
      ensures Fits(v, ms, n) && Apply(v, ms) == v[t := scope]
    {
      Within(v, ms, g'.may, n);
    }
  }

  /** One UNSUBSCRIBE takes a topic out. */
  lemma UnsubCarries(g: Goal, g': Goal, t: Topic, n: nat)
    requires SubView(g'.must, g.must) && t !in g'.must && g.may - {t} <= g'.may
    ensures Carries(g, g', [Unsub(t)], n)
  {
    var ms := [Unsub(t)];
    hide Fits, Apply;
    forall v | Safe(g, v)
      ensures Apply(v, ms) == v - {t} && (|v| <= n ==> Fits(v, ms, n))
    {
      UnsubApply(v, t, n);
    }
  }

  lemma UnsubApply(v: View, t: Topic, n: nat)
    ensures Apply(v, [Unsub(t)]) == v - {t} && (|v| <= n ==> Fits(v, [Unsub(t)], n))
  {
    SubViewSize(v - {t}, v);
  }

  /** A goal that demands no more and allows no less needs no message. */
  lemma WiderCarries(g: Goal, g': Goal, n: nat)
    requires SubView(g'.must, g.must) && g.may <= g'.may
    ensures Carries(g, g', [], n)
  {
  }
}
