/** The two-index client/topic subscription registry (server/subscriptionregistry.h). */
module Registry {
  import opened Keys
  import Text

  datatype Subscriber = Subscriber(client: ClientId, scope: Origin)

  type ClientTopics = map<ClientId, map<Topic, Origin>>
  type TopicSubscribers = map<Topic, seq<Subscriber>>

  /** What both indices stand for: the scope each (client, topic) pair is subscribed with. */
  type Relation = map<(ClientId, Topic), Origin>

  predicate Holds(ct: ClientTopics, c: ClientId, t: Topic) {
    c in ct && t in ct[c]
  }

  predicate Distinct(subs: seq<Subscriber>) {
    forall i, j :: 0 <= i < j < |subs| ==> subs[i].client != subs[j].client
  }

  /** The indices are exact inverses: no duplicate client in a vector, no empty vector, equal scopes. */
  ghost predicate Linked(ct: ClientTopics, ts: TopicSubscribers) {
    && (forall t :: t in ts ==> ts[t] != [] && Distinct(ts[t]))
    && (forall c, t :: Holds(ct, c, t) ==> t in ts && Subscriber(c, ct[c][t]) in ts[t])
    && (forall t, s :: t in ts && s in ts[t] ==> Holds(ct, s.client, t) && ct[s.client][t] == s.scope)
  }

  ghost function RelationOf(ct: ClientTopics): Relation {
    map k | k in set c, t | c in ct && t in ct[c] :: (c, t) :: ct[k.0][k.1]
  }

  function TopicsOf(rel: Relation, c: ClientId): (topics: set<Topic>)
    ensures forall t :: t in topics <==> (c, t) in rel
  {
    set k | k in rel && k.0 == c :: k.1
  }

  function WithoutClient(rel: Relation, c: ClientId): Relation {
    map k | k in rel && k.0 != c :: rel[k]
  }

  /** The topics some subscriber wants from the mesh. */
  function Wanted(rel: Relation): set<Topic> {
    set k | k in rel && rel[k].mesh :: k.1
  }

  /** `subs` with the entry at `pos` overwritten by the last one and the last one popped. */
  function SwapOut(subs: seq<Subscriber>, pos: nat): seq<Subscriber>
    requires pos < |subs|
  {
    subs[pos := subs[|subs| - 1]][..|subs| - 1]
  }

  lemma SwapOutMembers(subs: seq<Subscriber>, pos: nat)
    requires pos < |subs| && Distinct(subs)
    ensures Distinct(SwapOut(subs, pos))
    ensures forall s :: s in SwapOut(subs, pos) <==> s in subs && s.client != subs[pos].client
  {
    var out := SwapOut(subs, pos);
    forall s | s in subs && s.client != subs[pos].client
      ensures s in out
    {
      var i :| 0 <= i < |subs| && subs[i] == s;
      assert out[if i == |subs| - 1 then pos else i] == s;
    }
  }

  function EraseTopic(ct: ClientTopics, c: ClientId, t: Topic): ClientTopics
    requires c in ct
  {
    ct[c := ct[c] - {t}]
  }

  function Put(ct: ClientTopics, c: ClientId, t: Topic, scope: Origin): ClientTopics {
    ct[c := (if c in ct then ct[c] else map[])[t := scope]]
  }

  lemma PutRelation(ct: ClientTopics, c: ClientId, t: Topic, scope: Origin)
    ensures RelationOf(Put(ct, c, t, scope)) == RelationOf(ct)[(c, t) := scope]
  {
    var ct' := Put(ct, c, t, scope);
    forall k: (ClientId, Topic)
      ensures k in RelationOf(ct') <==> k in RelationOf(ct)[(c, t) := scope]
    {
      RelationLookup(ct, k);
      RelationLookup(ct', k);
    }
  }

  lemma RelationLookup(ct: ClientTopics, k: (ClientId, Topic))
    ensures k in RelationOf(ct) <==> Holds(ct, k.0, k.1)
    ensures k in RelationOf(ct) ==> RelationOf(ct)[k] == ct[k.0][k.1]
  {
  }

  /** Indices that answer every lookup alike are the same relation, whichever empty entries they keep. */
  ghost predicate SameLookups(ct: ClientTopics, ct': ClientTopics) {
    forall c, t :: (Holds(ct, c, t) <==> Holds(ct', c, t)) && (Holds(ct, c, t) ==> ct[c][t] == ct'[c][t])
  }

  lemma SameLookupsSameRelation(ct: ClientTopics, ct': ClientTopics)
    requires SameLookups(ct, ct')
    ensures RelationOf(ct) == RelationOf(ct')
  {
    forall k | k in RelationOf(ct) || k in RelationOf(ct')
      ensures k in RelationOf(ct) && k in RelationOf(ct')
    {
      assert Holds(ct, k.0, k.1) && Holds(ct', k.0, k.1);
    }
  }

  lemma AddLinked(ct: ClientTopics, ts: TopicSubscribers, c: ClientId, t: Topic, scope: Origin)
    requires Linked(ct, ts) && !Holds(ct, c, t)
    ensures Linked(Put(ct, c, t, scope),
                   ts[t := (if t in ts then ts[t] else []) + [Subscriber(c, scope)]])
  {
    var ct' := Put(ct, c, t, scope);
    var subs := (if t in ts then ts[t] else []) + [Subscriber(c, scope)];
    var ts' := ts[t := subs];
    assert forall s :: s in subs <==> s == Subscriber(c, scope) || (t in ts && s in ts[t]);
    forall i, j | 0 <= i < j < |subs|
      ensures subs[i].client != subs[j].client
    {
      assert subs[i] in ts[t];
    }
    forall c', t' | Holds(ct', c', t')
      ensures t' in ts' && Subscriber(c', ct'[c'][t']) in ts'[t']
    {
      if c' != c || t' != t { assert Holds(ct, c', t'); }
    }
  }

  class SubscriptionRegistry {
    var clientTopics: ClientTopics
    var topicSubscribers: TopicSubscribers

    ghost predicate Valid()
      reads this
    {
      && Linked(clientTopics, topicSubscribers)
      && forall c :: c in clientTopics ==> clientTopics[c] != map[]
    }

    ghost function Rel(): Relation
      reads this
    {
      RelationOf(clientTopics)
    }

    constructor ()
      ensures Valid() && Rel() == map[]
    {
      clientTopics, topicSubscribers := map[], map[];
    }

    /** The position of the client in the vector, or its length. */
    static method Find(subs: seq<Subscriber>, c: ClientId) returns (pos: nat)
      ensures pos <= |subs|
      ensures pos < |subs| ==> subs[pos].client == c
      ensures pos == |subs| ==> forall s :: s in subs ==> s.client != c
    {
      pos := 0;
      while pos < |subs| && subs[pos].client != c
        invariant pos <= |subs|
        invariant forall i :: 0 <= i < pos ==> subs[i].client != c
      {
        pos := pos + 1;
      }
    }

    method Subscribe(c: ClientId, t: Topic, scope: Origin) returns (changed: bool)
      requires Valid()
      modifies this
      ensures Valid()
      ensures Rel() == old(Rel())[(c, t) := scope]
      ensures changed <==> Rel() != old(Rel())
    {
      hide RelationOf;
      PutRelation(clientTopics, c, t, scope);
      RelationLookup(clientTopics, (c, t));
      var held := if c in clientTopics then clientTopics[c] else map[];
      if t !in held {
        AddLinked(clientTopics, topicSubscribers, c, t, scope);
        clientTopics := clientTopics[c := held[t := scope]];
        var subs := if t in topicSubscribers then topicSubscribers[t] else [];
        topicSubscribers := topicSubscribers[t := subs + [Subscriber(c, scope)]];
        return true;
      }
      if held[t] == scope {
        return false;
      }
      var pos := Find(topicSubscribers[t], c);
      assert Holds(clientTopics, c, t);
      RescopeLinked(clientTopics, topicSubscribers, c, t, scope, pos);
      clientTopics := clientTopics[c := held[t := scope]];
      topicSubscribers := topicSubscribers[t := topicSubscribers[t][pos := Subscriber(c, scope)]];
      return true;
    }

    method Unsubscribe(c: ClientId, t: Topic) returns (existed: bool)
      requires Valid()
      modifies this
      ensures Valid()
      ensures Rel() == old(Rel()) - {(c, t)}
      ensures existed <==> (c, t) in old(Rel())
    {
      if c !in clientTopics || t !in clientTopics[c] {
        assert (c, t) !in Rel();
        return false;
      }
      assert (c, t) in Rel();
      ghost var erased := EraseTopic(clientTopics, c, t);
      topicSubscribers := DropSubscriber(topicSubscribers, clientTopics, c, t);
      var left := clientTopics[c] - {t};
      clientTopics := if left == map[] then clientTopics - {c} else clientTopics[c := left];
      SameLookupsLinked(erased, clientTopics, topicSubscribers);
      SameLookupsSameRelation(erased, clientTopics);
      EraseRelation(old(clientTopics), c, t);
      return true;
    }

    method RemoveClient(c: ClientId)
      requires Valid()
      modifies this
      ensures Valid()
      ensures Rel() == WithoutClient(old(Rel()), c)
    {
      hide RelationOf;
      RemoveRelation(clientTopics, c);
      if c !in clientTopics {
        assert clientTopics - {c} == clientTopics;
        return;
      }
      topicSubscribers := DropFromAll(topicSubscribers, clientTopics, c, Text.Sorted(clientTopics[c].Keys));
      clientTopics := clientTopics - {c};
    }

    /** Takes the client off every topic it holds. */
    static method DropFromAll(ts: TopicSubscribers, ghost ct: ClientTopics, c: ClientId, topics: seq<Topic>)
      returns (ts': TopicSubscribers)
      requires Linked(ct, ts) && c in ct && forall t :: t in ct[c] ==> t in topics
      ensures Linked(ct - {c}, ts')
    {
      hide Linked;
      ts' := ts;
      ghost var left := ct;
      for i := 0 to |topics|
        invariant c in left && left - {c} == ct - {c}
        invariant forall t :: t in left[c] ==> t in ct[c] && t !in topics[..i]
        invariant Linked(left, ts')
      {
        ts' := DropSubscriber(ts', left, c, topics[i]);
        left := EraseTopic(left, c, topics[i]);
      }
      assert left[c] == map[];
      SameLookupsLinked(left, ct - {c}, ts') by {
        assert left - {c} == ct - {c};
      }
    }

    /** Takes the client off the topic's vector, and the topic off the index when nobody is left. */
    static method DropSubscriber(ts: TopicSubscribers, ghost ct: ClientTopics, c: ClientId, t: Topic)
      returns (ts': TopicSubscribers)
      requires Linked(ct, ts) && c in ct
      ensures Linked(EraseTopic(ct, c, t), ts')
    {
      if t !in ts {
        assert !Holds(ct, c, t);
        SameLookupsLinked(ct, EraseTopic(ct, c, t), ts);
        return ts;
      }
      var subs := ts[t];
      var pos := Find(subs, c);
      if pos < |subs| {
        SwapOutMembers(subs, pos);
        subs := SwapOut(subs, pos);
      }
      DropLinked(ct, ts, c, t, subs);
      ts' := if subs == [] then ts - {t} else ts[t := subs];
    }

    method HasMeshSubscriber(t: Topic) returns (wanted: bool)
      requires Valid()
      ensures wanted <==> t in Wanted(Rel())
    {
      if t !in topicSubscribers {
        assert forall k :: k in Rel() ==> Holds(clientTopics, k.0, k.1);
        return false;
      }
      var subs := topicSubscribers[t];
      for i := 0 to |subs|
        invariant forall j :: 0 <= j < i ==> !subs[j].scope.mesh
      {
        if ScopeAccepts(subs[i].scope, false) {
          assert subs[i] in subs;
          assert (subs[i].client, t) in Rel();
          return true;
        }
      }
      forall k | k in Rel() && k.1 == t
        ensures !Rel()[k].mesh
      {
        assert Holds(clientTopics, k.0, t);
        assert Subscriber(k.0, clientTopics[k.0][t]) in subs;
      }
      return false;
    }
  }

  lemma DropLinked(ct: ClientTopics, ts: TopicSubscribers, c: ClientId, t: Topic, left: seq<Subscriber>)
    requires Linked(ct, ts) && c in ct && t in ts && Distinct(left)
    requires forall s :: s in left <==> s in ts[t] && s.client != c
    ensures Linked(EraseTopic(ct, c, t), if left == [] then ts - {t} else ts[t := left])
  {
    var ct' := EraseTopic(ct, c, t);
    var ts' := if left == [] then ts - {t} else ts[t := left];
    forall c', t' | Holds(ct', c', t')
      ensures t' in ts' && Subscriber(c', ct'[c'][t']) in ts'[t']
    {
      assert Holds(ct, c', t');
      if t' == t { assert Subscriber(c', ct[c'][t]) in left; }
    }
  }

  lemma SameLookupsLinked(ct: ClientTopics, ct': ClientTopics, ts: TopicSubscribers)
    requires SameLookups(ct, ct') && Linked(ct, ts)
    ensures Linked(ct', ts)
  {
  }

  lemma EraseRelation(ct: ClientTopics, c: ClientId, t: Topic)
    requires c in ct
    ensures RelationOf(EraseTopic(ct, c, t)) == RelationOf(ct) - {(c, t)}
  {
    var l, r := RelationOf(EraseTopic(ct, c, t)), RelationOf(ct) - {(c, t)};
    assert l.Keys == r.Keys;
  }

  lemma RemoveRelation(ct: ClientTopics, c: ClientId)
    ensures RelationOf(ct - {c}) == WithoutClient(RelationOf(ct), c)
  {
    forall k: (ClientId, Topic)
      ensures k in RelationOf(ct - {c}) <==> k in WithoutClient(RelationOf(ct), c)
    {
      RelationLookup(ct, k);
      RelationLookup(ct - {c}, k);
    }
  }

  lemma RescopeLinked(ct: ClientTopics, ts: TopicSubscribers, c: ClientId, t: Topic, scope: Origin, pos: nat)
    requires Linked(ct, ts) && Holds(ct, c, t)
    requires t in ts && pos < |ts[t]| && ts[t][pos].client == c
    ensures Linked(ct[c := ct[c][t := scope]], ts[t := ts[t][pos := Subscriber(c, scope)]])
  {
    var ct' := ct[c := ct[c][t := scope]];
    var subs := ts[t][pos := Subscriber(c, scope)];
    var ts' := ts[t := subs];
    forall c', t' | Holds(ct', c', t')
      ensures t' in ts' && Subscriber(c', ct'[c'][t']) in ts'[t']
    {
      if t' == t {
        if c' == c {
          assert subs[pos] == Subscriber(c, scope);
        } else {
          var i :| 0 <= i < |ts[t]| && ts[t][i] == Subscriber(c', ct[c'][t]);
          assert subs[i] == ts[t][i];
        }
      }
    }
    forall t', s: Subscriber | t' in ts' && s in ts'[t']
      ensures Holds(ct', s.client, t') && ct'[s.client][t'] == s.scope
    {
      if t' == t {
        var i :| 0 <= i < |subs| && subs[i] == s;
        if i != pos { assert ts[t][i] in ts[t]; }
      }
    }
  }
}
