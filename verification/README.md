# StreamerTag — a Dafny model of the streaming-status registry

StreamerTag is a Minecraft server mod. A player types `/streaming on` or
`/streaming off` to toggle a personal "streaming" flag. The placeholder
`%streamertag:status%` then renders a red recording glyph, wherever the
token is used, for the player the text is rendered for while that player's
flag is on, and empty text otherwise.

The model covers the mod's logic:

- `Registry` (`registry.dfy`): the companion object's process-wide set of
  player UUIDs. It starts empty. `IsPlayerStreaming` is a membership query.
  `SetPlayerStreaming` inserts the UUID for `true` and removes it for
  `false`. The mutable set becomes an immutable `set<UUID>` value that each
  update returns, so a query cannot change the registry by construction.
- `History` (`history.dfy`): sequences of updates over the process lifetime.
  It has a reference reading of the result: a UUID's status is the value of
  the last update that named it, or its earlier status if none did.
  `ApplyAll` applies the updates one by one, as the mutable set sees them.
- `Placeholder` (`placeholder.dfy`): the placeholder resolver. It returns the
  tag only when a player is present and streaming.
- `Commands` (`commands.dfy`): the `on` and `off` handler bodies, the root
  guard "the source has a player", dispatching of a command sequence, and
  the scenario of one player turning streaming on and then off.
- `Wrappers` (`wrappers.dfy`): `Option`, for the nullable player.

A UUID is the two 64-bit halves of `java.util.UUID`, and only equality is
used. A player carries a UUID and a name. The name stands for everything
else a player object holds, so status is keyed by UUID and not by player
value. `SINGLE_SUCCESS` is Brigadier's `Command.SINGLE_SUCCESS`, which is 1.

Two facts about the code shape the model:
- The indicator is only the glyph. The comment at `StreamerTag.kt:26`
  mentions brackets, but lines 27-28 build none.
- The registry is the plain `mutableSetOf` of line 23, so the model is
  sequential. `Registry.DistinctUpdatesCommute` states that updates to
  distinct UUIDs do not interfere.

## Model

| member | source | states |
|---|---|---|
| Registry.InitiallyNobodyStreams | src/main/kotlin/com/zephbyte/streamertag/StreamerTag.kt:23 | the registry starts empty, so no player queries as streaming |
| Registry.SetPlayerStreaming | src/main/kotlin/com/zephbyte/streamertag/StreamerTag.kt:44-50 | after the update the player queries as the requested value, and no other UUID changes membership |
| Registry.SetIsInsertOrRemove | src/main/kotlin/com/zephbyte/streamertag/StreamerTag.kt:44-50 | the new set is the old set plus the UUID for `true`, and the old set minus the UUID for `false` |
| Registry.SetIdempotent | src/main/kotlin/com/zephbyte/streamertag/StreamerTag.kt:44-48 | applying the same update twice gives the same set as applying it once |
| Registry.SetToCurrentIsNoOp | src/main/kotlin/com/zephbyte/streamertag/StreamerTag.kt:44-50 | disabling a player who is not streaming, including one never set, leaves the set unchanged; so does enabling one who is |
| Registry.LaterSetWins | src/main/kotlin/com/zephbyte/streamertag/StreamerTag.kt:44-50 | of two updates to one UUID, only the later one affects the result |
| Registry.DistinctUpdatesCommute | src/main/kotlin/com/zephbyte/streamertag/StreamerTag.kt:44-50 | updates to two different UUIDs give the same set in either order |
| Registry.StatusDependsOnlyOnUuid | src/main/kotlin/com/zephbyte/streamertag/StreamerTag.kt:35-50 | two player values with the same UUID query the same and update the set the same way |
| History.ReplayAgreesWithLastWrite | src/main/kotlin/com/zephbyte/streamertag/StreamerTag.kt:35-50 | after any sequence of updates, a UUID is in the set exactly when the last update naming it enabled streaming, or, with no such update, when it was in the set before |
| History.StreamingFromStart | src/main/kotlin/com/zephbyte/streamertag/StreamerTag.kt:23-50 | from start-up, a player streams exactly when its last update was `true`; a player never updated does not stream |
| History.ApplyAll | src/main/kotlin/com/zephbyte/streamertag/StreamerTag.kt:44-50 | applying updates one at a time to a working set gives the replayed registry, and every UUID ends with its last-written status |
| Placeholder.ResolveStatus | src/main/kotlin/com/zephbyte/streamertag/StreamerTag.kt:57-66 | a missing player resolves to empty text; a present player resolves to the tag exactly when its UUID is in the registry; the resolver is total |
| Placeholder.ResolveAfterHistory | src/main/kotlin/com/zephbyte/streamertag/StreamerTag.kt:57-66 | from start-up, a player's placeholder shows the tag exactly when the last update naming its UUID enabled streaming, and is empty otherwise |
| Placeholder.ResolveDependsOnlyOnUuid | src/main/kotlin/com/zephbyte/streamertag/StreamerTag.kt:59-60 | two player values with the same UUID render the same placeholder |
| Commands.ExecuteOn | src/main/kotlin/com/zephbyte/streamertag/StreamerTag.kt:76-84 | for a player source, `on` makes the caller stream, leaves every other UUID as it was, sends the ON confirmation and returns the success code |
| Commands.ExecuteOff | src/main/kotlin/com/zephbyte/streamertag/StreamerTag.kt:88-96 | for a player source, `off` makes the caller not stream, leaves every other UUID as it was, sends the OFF confirmation and returns the success code |
| Commands.OnOffRoundTrip | src/main/kotlin/com/zephbyte/streamertag/StreamerTag.kt:76-96 | `off` restores the registry from before an `on` for a caller who was not streaming, and `on` restores it from before an `off` for one who was |
| Commands.Dispatch | src/main/kotlin/com/zephbyte/streamertag/StreamerTag.kt:70-97 | a command is refused exactly when its source has no player; otherwise it returns the success code, sends the ON confirmation for `on` and the OFF one for `off`, and leaves the caller streaming exactly for `on`, with other UUIDs unchanged |
| Commands.RunIsReplayOfAccepted | src/main/kotlin/com/zephbyte/streamertag/StreamerTag.kt:73-96 | dispatching a command sequence gives the same registry as replaying the updates of the commands the guard accepted |
| Commands.UpdatesRecordLastCommand | src/main/kotlin/com/zephbyte/streamertag/StreamerTag.kt:73-96 | the last registry update naming a UUID comes from that player's last accepted command: `true` for `on`, `false` for `off` |
| Commands.Session | src/main/kotlin/com/zephbyte/streamertag/StreamerTag.kt:69-99 | processing commands in order refuses exactly the player-less ones, returns the success code and the subcommand's confirmation for the others, and leaves each UUID streaming exactly when its last accepted command was `on`, or, with no accepted command, when it was streaming before |
| Commands.OnThenOffScenario | src/main/kotlin/com/zephbyte/streamertag/StreamerTag.kt:57-96 | at start-up both A's and B's placeholders are empty; A's `on` sends the ON confirmation and A's placeholder then shows the tag; A's following `off` sends the OFF confirmation and A's placeholder is empty again; a player B who never issues a command renders empty at all three moments |

## Left out

- Logging at start-up (`StreamerTag.kt:54`, `:101-103`). It is output only and has no effect on state.
- The construction of `Text` values and their `Formatting` colours (`:27-28`, `:80`, `:92`). The tag and the two confirmations are abstract constructors (`StreamingTag`, `StreamingOnMessage`, `StreamingOffMessage`), not text.
- Registration with the host: `Placeholders.register`, `CommandRegistrationCallback` and building the Brigadier command tree (`:57`, `:69-99`). Only the resolver and handler bodies are modelled, plus the guard, as plain functions.
- Delivery of `sendFeedback` and its broadcast-to-operators flag (`:79-82`, `:91-94`). These are host messaging. The model records only which confirmation is sent.
- The failure of `playerOrThrow` (`:77`, `:89`). For a command its source issues directly, the root guard at `:73` makes the failure unreachable, so the handlers take a player-bearing source as a precondition. `Commands.Dispatch` refuses a player-less source before any handler runs. Redirected execution is not modelled. With `/execute as <entity> run streaming on`, for example, the handler runs with a different source than the guard checked. That source may be a non-player entity, for which `playerOrThrow` throws, or a different player.
- Concurrent access to the set. The source uses a plain `mutableSetOf` and leaves any serialisation to the host, so the model is sequential.
- Brigadier's parsing of command text. An `Invocation` is the already-parsed source and subcommand.
