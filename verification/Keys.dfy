/** Subscription scopes, reserved keys and topic classes (common/messagekeys.h). */
module Keys {

  type Topic = string
  type ClientId = string

  /** The scope bitmask: bit 0 asks for local traffic, bit 1 for mesh traffic. */
  datatype Origin = Origin(local: bool, mesh: bool)

  const LOCAL_ONLY := Origin(true, false)
  const MESH_ONLY := Origin(false, true)
  const ANY := Origin(true, true)
  /** The value a union starts from before any scope has been widened into it. */
  const NO_SCOPE := Origin(false, false)

  const WILDCARD: Topic := "*"
  const MAX_TOPIC_LENGTH := 512
  const MAX_SUBSCRIPTIONS := 10000
  const MAX_INTEREST := 1000

  predicate ScopeAccepts(scope: Origin, isLocal: bool) {
    if isLocal then scope.local else scope.mesh
  }

  function Widen(left: Origin, right: Origin): Origin {
    Origin(left.local || right.local, left.mesh || right.mesh)
  }

  predicate IsReserved(key: string) {
    |key| >= 2 && key[0] == '_' && key[1] == '_'
  }

  /** A topic a broker carries its interest in to its peers. */
  predicate Propagatable(topic: Topic) {
    topic != "" && topic != WILDCARD && !IsReserved(topic)
  }

  /** A topic the broker accepts in a SUBSCRIBE. */
  predicate LegalTopic(topic: Topic) {
    0 < |topic| <= MAX_TOPIC_LENGTH
  }

  // The scope codec: the payload frame of a SUBSCRIBE.

  function Bits(scope: Origin): bv8 {
    (if scope.local then 1 else 0) | (if scope.mesh then 2 else 0)
  }

  function EncodeScope(scope: Origin): seq<bv8> {
    if scope == ANY then [] else [Bits(scope)]
  }

  function DecodeScope(payload: seq<bv8>): Origin {
    if |payload| == 0 then ANY
    else
      var bits := payload[0] & 3;
      if bits == 0 then ANY else Origin(bits & 1 != 0, bits & 2 != 0)
  }

  /** Every scope survives the wire except the empty one, which widens to Any. */
  lemma ScopeRoundTrip(scope: Origin)
    ensures DecodeScope(EncodeScope(scope)) == if scope == NO_SCOPE then ANY else scope
  {
    var b := Bits(scope);
    assert b & 3 == b;
    assert scope.local <==> b & 1 != 0;
    assert scope.mesh <==> b & 2 != 0;
  }

  /** Whatever bytes arrive, the decoded scope asks for something: no payload narrows to nothing. */
  lemma DecodedScopeAsksForSomething(payload: seq<bv8>)
    ensures DecodeScope(payload) != NO_SCOPE
    ensures |payload| == 0 || payload[0] & 3 == 0 ==> DecodeScope(payload) == ANY
  {
    if |payload| > 0 {
      var bits := payload[0] & 3;
      assert bits != 0 ==> bits & 1 != 0 || bits & 2 != 0;
    }
  }
}
