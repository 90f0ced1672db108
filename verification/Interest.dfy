/** What a broker wants from its peers: the interest set with its two widening flags, and the
    control messages each change sends down every link (server/broker.cpp). */
module Interest {
  import opened Keys
  import opened Replica
  import Text

  /** `saturated` is permanent; `wildcard` lasts while some local subscriber holds "*". */
  datatype Interest = Interest(topics: set<Topic>, saturated: bool, wildcard: bool)

  const NO_INTEREST := Interest({}, false, false)

  /** A new interest and what to send to every peer link. */
  datatype Noted = Noted(interest: Interest, out: seq<Ctl>)

  predicate Wide(i: Interest) { i.saturated || i.wildcard }

  function SubAll(topics: seq<Topic>): (ms: seq<Ctl>)
    ensures |ms| == |topics| && forall k :: 0 <= k < |ms| ==> ms[k] == Sub(topics[k], ANY)
  {
    seq(|topics|, k requires 0 <= k < |topics| => Sub(topics[k], ANY))
  }

  function Gain(i: Interest, t: Topic): Noted {
    if t == WILDCARD then
      if i.wildcard then Noted(i, []) else Noted(i.(wildcard := true), [Sub(WILDCARD, ANY)])
    else if !Propagatable(t) || i.saturated || t in i.topics then Noted(i, [])
    else if |i.topics + {t}| > MAX_INTEREST then
      Noted(i.(topics := i.topics + {t}, saturated := true), [Sub(WILDCARD, ANY)])
    else Noted(i.(topics := i.topics + {t}), [Sub(t, ANY)])
  }

  function Lose(i: Interest, t: Topic): Noted {
    if t == WILDCARD then
      if !i.wildcard then Noted(i, [])
      else if i.saturated then Noted(i.(wildcard := false), [])
      else Noted(i.(wildcard := false), [Unsub(WILDCARD)] + SubAll(Text.Sorted(i.topics)))
    else if !Propagatable(t) || i.saturated || t !in i.topics then Noted(i, [])
    else Noted(i.(topics := i.topics - {t}), [Unsub(t)])
  }

  /** A topic's being wanted from the mesh went from `before` to `now`. */
  function Change(i: Interest, t: Topic, before: bool, now: bool): Noted {
    if before == now then Noted(i, []) else if now then Gain(i, t) else Lose(i, t)
  }

  /** Everything a new or reset link is told. */
  function Snapshot(i: Interest): seq<Ctl> {
    if Wide(i) then [Sub(WILDCARD, ANY)] else SubAll(Text.Sorted(i.topics))
  }

  /** Changes for several topics in turn, each of them wanted until now. */
  function LoseUnwanted(i: Interest, topics: seq<Topic>, wanted: set<Topic>): Noted
    decreases |topics|
  {
    if topics == [] then Noted(i, [])
    else
      var first := Change(i, topics[0], true, topics[0] in wanted);
      var rest := LoseUnwanted(first.interest, topics[1..], wanted);
      Noted(rest.interest, first.out + rest.out)
  }

  // The interest follows the set of topics wanted from the mesh.

  predicate Sized(i: Interest) {
    && |i.topics| <= MAX_INTEREST + (if i.saturated then 1 else 0)
    && forall t :: t in i.topics ==> Propagatable(t) && LegalTopic(t)
  }

  /** The wildcard flag says whether "*" is wanted and, until saturation, the set is exactly the
      propagatable topics wanted. */
  ghost predicate Tracks(i: Interest, wanted: set<Topic>) {
    && Sized(i)
    && (i.wildcard <==> WILDCARD in wanted)
    && (!i.saturated ==> forall t :: t in i.topics <==> t in wanted && Propagatable(t))
  }

  function Moved(wanted: set<Topic>, t: Topic, now: bool): set<Topic> {
    if now then wanted + {t} else wanted - {t}
  }

  lemma ChangeTracks(i: Interest, wanted: set<Topic>, t: Topic, now: bool)
    requires Tracks(i, wanted) && LegalTopic(t)
    ensures Tracks(Change(i, t, t in wanted, now).interest, Moved(wanted, t, now))
    ensures i.saturated ==> Change(i, t, t in wanted, now).interest.saturated
  {
  }

  lemma {:induction false} LoseUnwantedTracks(i: Interest, before: set<Topic>, topics: seq<Topic>, wanted: set<Topic>)
    requires Tracks(i, before)
    requires forall k :: 0 <= k < |topics| ==> topics[k] in before && LegalTopic(topics[k])
    requires forall j, k :: 0 <= j < k < |topics| ==> topics[j] != topics[k]
    ensures Tracks(LoseUnwanted(i, topics, wanted).interest,
                   set t | t in before && (t in topics ==> t in wanted))
    ensures i.saturated ==> LoseUnwanted(i, topics, wanted).interest.saturated
    decreases |topics|
  {
    var after := set t | t in before && (t in topics ==> t in wanted);
    if topics == [] {
      assert after == before;
    } else {
      var t := topics[0];
      ChangeTracks(i, before, t, t in wanted);
      var mid := Moved(before, t, t in wanted);
      LoseUnwantedTracks(Change(i, t, true, t in wanted).interest, mid, topics[1..], wanted);
      assert after == set x | x in mid && (x in topics[1..] ==> x in wanted) by {
        assert forall x :: x in topics <==> x == t || x in topics[1..];
      }
    }
  }

  // What the links are told keeps every remote's view of the link on the goal below.

  const LINK_BOUND := MAX_INTEREST + 2

  /** A wide broker's links must hold "*"; otherwise they must hold exactly the interest set. */
  function LinkGoal(i: Interest): Goal {
    if Wide(i) then Goal(map[WILDCARD := ANY], i.topics + {WILDCARD})
    else Goal(map t | t in i.topics :: ANY, i.topics)
  }

  lemma MayFits(i: Interest)
    requires Sized(i)
    ensures Sound(LinkGoal(i)) && |LinkGoal(i).may| <= LINK_BOUND
  {
  }

  lemma GainSized(i: Interest, t: Topic)
    requires Sized(i) && LegalTopic(t)
    ensures Sized(Gain(i, t).interest)
  {
  }

  lemma GainCarries(i: Interest, t: Topic)
    requires Sized(i) && LegalTopic(t)
    ensures Carries(LinkGoal(i), LinkGoal(Gain(i, t).interest), Gain(i, t).out, LINK_BOUND)
  {
    var n := Gain(i, t);
    var g, g' := LinkGoal(i), LinkGoal(n.interest);
    GainSized(i, t);
    MayFits(n.interest);
    hide Carries, Sized, Propagatable;
    if n.out == [] {
      NothingCarries(g);
    } else if n.out == [Sub(WILDCARD, ANY)] {
      WildGain(i, t);
      hide Gain, LinkGoal, SubView;
      SubCarries(g, g', WILDCARD, ANY, LINK_BOUND);
    } else {
      NamedGain(i, t);
      hide Gain, LinkGoal, SubView;
      SubCarries(g, g', t, ANY, LINK_BOUND);
    }
  }

  lemma WildGain(i: Interest, t: Topic)
    requires Gain(i, t).out == [Sub(WILDCARD, ANY)]
    ensures var g, g' := LinkGoal(i), LinkGoal(Gain(i, t).interest);
            SubView(g'.must, g.must[WILDCARD := ANY]) && g.may + {WILDCARD} <= g'.may
  {
    hide Propagatable;
  }

  lemma NamedGain(i: Interest, t: Topic)
    requires Gain(i, t).out != [] && Gain(i, t).out != [Sub(WILDCARD, ANY)]
    ensures Gain(i, t).out == [Sub(t, ANY)]
    ensures var g, g' := LinkGoal(i), LinkGoal(Gain(i, t).interest);
            SubView(g'.must, g.must[t := ANY]) && g.may + {t} <= g'.may
  {
  }

  predicate HoldsAny(v: View, t: Topic) { t in v && v[t] == ANY }

  lemma {:induction false} ApplySubAll(v: View, topics: seq<Topic>)
    ensures forall t :: t in topics || HoldsAny(v, t) ==> HoldsAny(Apply(v, SubAll(topics)), t)
    decreases |topics|
  {
    if topics == [] {
    } else {
      var v' := Apply1(v, Sub(topics[0], ANY));
      assert SubAll(topics)[1..] == SubAll(topics[1..]);
      ApplySubAll(v', topics[1..]);
      forall t | t in topics || HoldsAny(v, t)
        ensures t in topics[1..] || HoldsAny(v', t)
      {
      }
    }
  }

  lemma SnapshotRestores(i: Interest)
    requires Sized(i)
    ensures Restores(LinkGoal(i), Snapshot(i), LINK_BOUND) && !HasConnect(Snapshot(i))
  {
    var ms := Snapshot(i);
    forall v | Safe(LinkGoal(i), v)
      ensures Fits(v, ms, LINK_BOUND)
      ensures Safe(LinkGoal(i), Apply(v, ms)) && Exact(LinkGoal(i), Apply(v, ms))
    {
      Within(v, ms, i.topics + {WILDCARD}, LINK_BOUND);
      if !Wide(i) {
        Within(v, ms, i.topics, LINK_BOUND);
        ApplySubAll(v, Text.Sorted(i.topics));
      }
    }
  }

  /** The last wildcard subscriber goes: the links drop "*" and are told the whole set instead. */
  lemma NarrowCarries(i: Interest)
    requires Sized(i) && i.wildcard && !i.saturated
    ensures Carries(LinkGoal(i), LinkGoal(Lose(i, WILDCARD).interest), Lose(i, WILDCARD).out, LINK_BOUND)
  {
    var n := Lose(i, WILDCARD);
    SnapshotRestores(n.interest);
    forall v | Safe(LinkGoal(i), v)
      ensures Safe(LinkGoal(n.interest), Apply(v, n.out)) && Exact(LinkGoal(n.interest), Apply(v, n.out))
      ensures |v| <= LINK_BOUND ==> Fits(v, n.out, LINK_BOUND)
    {
      DropThenRestore(v, n.interest);
    }
  }

  lemma DropThenRestore(v: View, i: Interest)
    requires v.Keys <= i.topics + {WILDCARD} && Sized(i) && !Wide(i)
    ensures var r := Apply(v, [Unsub(WILDCARD)] + Snapshot(i)); Safe(LinkGoal(i), r) && Exact(LinkGoal(i), r)
    ensures |v| <= LINK_BOUND ==> Fits(v, [Unsub(WILDCARD)] + Snapshot(i), LINK_BOUND)
  {
    SnapshotRestores(i);
    var rest := Snapshot(i);
    var ms := [Unsub(WILDCARD)] + rest;
    assert ms[1..] == rest;
    hide Snapshot;
    var v' := v - {WILDCARD};
    assert Safe(LinkGoal(i), v') && Apply1(v, ms[0]) == v';
    SubViewSize(v', v);
    hide LinkGoal, Exact, Safe;
    assert Apply(v, ms) == Apply(v', rest);
  }

  lemma LoseCarries(i: Interest, t: Topic)
    requires Sized(i)
    ensures Carries(LinkGoal(i), LinkGoal(Lose(i, t).interest), Lose(i, t).out, LINK_BOUND)
  {
    if t == WILDCARD && i.wildcard && !i.saturated {
      NarrowCarries(i);
      return;
    }
    var n := Lose(i, t);
    hide Carries;
    if n.out == [] {
      WiderCarries(LinkGoal(i), LinkGoal(n.interest), LINK_BOUND);
    } else {
      UnsubCarries(LinkGoal(i), LinkGoal(n.interest), t, LINK_BOUND);
    }
  }

  lemma ChangeCarries(i: Interest, t: Topic, before: bool, now: bool)
    requires Sized(i) && LegalTopic(t)
    ensures Sized(Change(i, t, before, now).interest)
    ensures Carries(LinkGoal(i), LinkGoal(Change(i, t, before, now).interest), Change(i, t, before, now).out, LINK_BOUND)
  {
    if before == now {
      NothingCarries(LinkGoal(i));
    } else if now {
      GainCarries(i, t);
    } else {
      LoseCarries(i, t);
    }
  }

  lemma NothingCarries(g: Goal)
    ensures Carries(g, g, [], LINK_BOUND)
  {
  }

  lemma {:induction false} LoseUnwantedCarries(i: Interest, topics: seq<Topic>, wanted: set<Topic>)
    requires Sized(i) && forall k :: 0 <= k < |topics| ==> LegalTopic(topics[k])
    ensures Sized(LoseUnwanted(i, topics, wanted).interest)
    ensures Carries(LinkGoal(i), LinkGoal(LoseUnwanted(i, topics, wanted).interest),
                    LoseUnwanted(i, topics, wanted).out, LINK_BOUND)
    decreases |topics|
  {
    if topics == [] {
      NothingCarries(LinkGoal(i));
    } else {
      var first := Change(i, topics[0], true, topics[0] in wanted);
      var rest := LoseUnwanted(first.interest, topics[1..], wanted);
      ChangeCarries(i, topics[0], true, topics[0] in wanted);
      LoseUnwantedCarries(first.interest, topics[1..], wanted);
      CarriesTrans(LinkGoal(i), LinkGoal(first.interest), LinkGoal(rest.interest), first.out, rest.out, LINK_BOUND);
    }
  }
}
