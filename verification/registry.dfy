/**
 The streaming-status registry held by the mod's companion object: a
 process-wide set of player UUIDs, empty at start-up, with a membership
 query and an insert/remove update. The mutable set is modelled as an
 immutable value that every update returns anew.
 */
module Registry {

  /** A `java.util.UUID`: 128 bits kept as two 64-bit halves. Only equality is used. */
  datatype UUID = UUID(mostSigBits: bv64, leastSigBits: bv64)

  /** A server-side player. Status is keyed by `uuid` alone; `name` stands for
      everything else a player object carries. */
  datatype Player = Player(uuid: UUID, name: string)

  /** The UUIDs of the players who have streaming mode enabled. */
  type Streaming = set<UUID>

  /** The registry as the process starts: nobody is streaming. */
  const Initial: Streaming := {}

  /** Whether `p` has streaming mode enabled. */
  predicate IsPlayerStreaming(s: Streaming, p: Player) {
    p.uuid in s
  }

  /** Enables (`streaming`) or disables streaming mode for `p`: afterwards `p`
      queries as `streaming`, and no other UUID changes membership. */
  function SetPlayerStreaming(s: Streaming, p: Player, streaming: bool): (s': Streaming)
    ensures IsPlayerStreaming(s', p) == streaming
    ensures forall u :: u != p.uuid ==> (u in s' <==> u in s)
  {
    if streaming then s + {p.uuid} else s - {p.uuid}
  }

  /** No player queries as streaming before any update. */
  lemma InitiallyNobodyStreams(p: Player)
    ensures !IsPlayerStreaming(Initial, p)
  {
  }

  /** An update is exactly a set insertion or a set removal of the player's UUID. */
  lemma SetIsInsertOrRemove(s: Streaming, p: Player, streaming: bool)
    ensures streaming ==> SetPlayerStreaming(s, p, streaming) == s + {p.uuid}
    ensures !streaming ==> SetPlayerStreaming(s, p, streaming) == s - {p.uuid}
  {
  }

  /** Applying the same update twice leaves the same registry as applying it once. */
  lemma SetIdempotent(s: Streaming, p: Player, streaming: bool)
    ensures SetPlayerStreaming(SetPlayerStreaming(s, p, streaming), p, streaming)
         == SetPlayerStreaming(s, p, streaming)
  {
  }

  /** Disabling a player who is not streaming (for instance one never enabled)
      is a no-op; likewise enabling one who already is. */
  lemma SetToCurrentIsNoOp(s: Streaming, p: Player)
    ensures !IsPlayerStreaming(s, p) ==> SetPlayerStreaming(s, p, false) == s
    ensures IsPlayerStreaming(s, p) ==> SetPlayerStreaming(s, p, true) == s
  {
  }

  /** For one UUID the later update wins: the earlier one leaves no trace. */
  lemma LaterSetWins(s: Streaming, p: Player, q: Player, first: bool, second: bool)
    requires p.uuid == q.uuid
    ensures SetPlayerStreaming(SetPlayerStreaming(s, p, first), q, second)
         == SetPlayerStreaming(s, q, second)
  {
  }

  /** Updates of two different UUIDs do not interfere: their order is irrelevant. */
  lemma DistinctUpdatesCommute(s: Streaming, p: Player, q: Player, a: bool, b: bool)
    requires p.uuid != q.uuid
    ensures SetPlayerStreaming(SetPlayerStreaming(s, p, a), q, b)
         == SetPlayerStreaming(SetPlayerStreaming(s, q, b), p, a)
  {
  }

  /** Two player values with the same UUID are indistinguishable to the registry,
      both when queried and when updated. */
  lemma StatusDependsOnlyOnUuid(s: Streaming, p: Player, q: Player, streaming: bool)
    requires p.uuid == q.uuid
    ensures IsPlayerStreaming(s, p) == IsPlayerStreaming(s, q)
    ensures SetPlayerStreaming(s, p, streaming) == SetPlayerStreaming(s, q, streaming)
  {
  }
}
