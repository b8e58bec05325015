/**
 The `%streamertag:status%` placeholder: for the player the text is rendered
 for, the recording-glyph tag when that player is streaming, otherwise empty
 text. A context without a player is an ordinary input, not an error.
 */
module Placeholder {
  import opened Wrappers
  import opened Registry
  import opened History

  /** What the placeholder renders to: the pre-built red recording glyph, or empty text. */
  datatype Fragment = StreamingTag | EmptyText

  /** What the host hands the resolver: the player the text is rendered for, if any. */
  datatype Context = Context(player: Option<Player>)

  /** Resolves the placeholder against the registry. Total, and the registry is only read. */
  function ResolveStatus(ctx: Context, s: Streaming): (r: Fragment)
    ensures ctx.player.None? ==> r == EmptyText
    ensures ctx.player.Some? ==> (r == StreamingTag <==> ctx.player.value.uuid in s)
  {
    if ctx.player.Some? && IsPlayerStreaming(s, ctx.player.value) then StreamingTag
    else EmptyText
  }

  /** From start-up, a player's placeholder shows the tag exactly when the last
      update naming that player's UUID enabled streaming; otherwise it is empty. */
  lemma ResolveAfterHistory(ups: seq<Update>, p: Player)
    ensures ResolveStatus(Context(Some(p)), Replay(Initial, ups)) == StreamingTag
        <==> LastWrite(ups, p.uuid) == Some(true)
    ensures LastWrite(ups, p.uuid) != Some(true)
        ==> ResolveStatus(Context(Some(p)), Replay(Initial, ups)) == EmptyText
  {
    StreamingFromStart(ups, p);
  }

  /** The placeholder renders the same for two player values with one UUID. */
  lemma ResolveDependsOnlyOnUuid(s: Streaming, p: Player, q: Player)
    requires p.uuid == q.uuid
    ensures ResolveStatus(Context(Some(p)), s) == ResolveStatus(Context(Some(q)), s)
  {
  }
}
