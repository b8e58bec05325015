/**
 Sequences of registry updates, as the companion set sees them over the
 life of the process, and the reference reading of the registry they
 produce: a UUID's status is the value of the last update that named it,
 or its earlier status when no update did.
 */
module History {
  import opened Wrappers
  import opened Registry

  /** One call `setPlayerStreaming(player, streaming)`. */
  datatype Update = Update(player: Player, streaming: bool)

  /** The registry after applying `ups` to `s`, oldest first. */
  function Replay(s: Streaming, ups: seq<Update>): Streaming
    decreases |ups|
  {
    if |ups| == 0 then s
    else
      var last := ups[|ups| - 1];
      SetPlayerStreaming(Replay(s, ups[..|ups| - 1]), last.player, last.streaming)
  }

  /** The value of the most recent update in `ups` naming `u`, if any. */
  function LastWrite(ups: seq<Update>, u: UUID): Option<bool>
    decreases |ups|
  {
    if |ups| == 0 then None
    else if ups[|ups| - 1].player.uuid == u then Some(ups[|ups| - 1].streaming)
    else LastWrite(ups[..|ups| - 1], u)
  }

  /** Whether `u` is streaming after `ups`, read off the history alone. */
  predicate StreamingAfter(s: Streaming, ups: seq<Update>, u: UUID) {
    LastWrite(ups, u).GetOr(u in s)
  }

  /** Replaying updates agrees with the last-write reading, for every UUID. */
  lemma {:induction false} ReplayAgreesWithLastWrite(s: Streaming, ups: seq<Update>, u: UUID)
    ensures u in Replay(s, ups) <==> StreamingAfter(s, ups, u)
    decreases |ups|
  {
    if |ups| > 0 {
      ReplayAgreesWithLastWrite(s, ups[..|ups| - 1], u);
    }
  }

  /** Replaying `xs` then `ys` is replaying their concatenation. */
  lemma {:induction false} ReplayAppend(s: Streaming, xs: seq<Update>, ys: seq<Update>)
    ensures Replay(s, xs + ys) == Replay(Replay(s, xs), ys)
    decreases |ys|
  {
    if |ys| > 0 {
      assert (xs + ys)[..|xs + ys| - 1] == xs + ys[..|ys| - 1];
      ReplayAppend(s, xs, ys[..|ys| - 1]);
    } else {
      assert xs + ys == xs;
    }
  }

  /** From the initial registry, a player streams exactly when the last update
      naming its UUID enabled streaming; a UUID never named is not streaming. */
  lemma StreamingFromStart(ups: seq<Update>, p: Player)
    ensures IsPlayerStreaming(Replay(Initial, ups), p) <==> LastWrite(ups, p.uuid) == Some(true)
    ensures LastWrite(ups, p.uuid) == None ==> !IsPlayerStreaming(Replay(Initial, ups), p)
  {
    ReplayAgreesWithLastWrite(Initial, ups, p.uuid);
  }

  /** Applies `ups` one at a time to a working copy of the set, as the
      companion's mutable set is updated call after call. */
  method ApplyAll(s: Streaming, ups: seq<Update>) returns (cur: Streaming)
    ensures cur == Replay(s, ups)
    ensures forall u :: u in cur <==> StreamingAfter(s, ups, u)
  {
    cur := s;
    var i := 0;
    while i < |ups|
      invariant 0 <= i <= |ups|
      invariant cur == Replay(s, ups[..i])
    {
      assert ups[..i + 1][..i] == ups[..i];
      cur := SetPlayerStreaming(cur, ups[i].player, ups[i].streaming);
      i := i + 1;
    }
    assert ups[..i] == ups;
    forall u
      ensures u in cur <==> StreamingAfter(s, ups, u)
    {
      ReplayAgreesWithLastWrite(s, ups, u);
    }
  }
}
