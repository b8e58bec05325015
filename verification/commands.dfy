/**
 The `/streaming` command: a root literal guarded by "the source has a
 player", with literal subcommands `on` and `off`. Each handler applies one
 registry update for the calling player, sends that player a private
 confirmation and reports Brigadier's single-success code.
 */
module Commands {
  import opened Wrappers
  import opened Registry
  import opened History
  import opened Placeholder

  /** Brigadier's `Command.SINGLE_SUCCESS`. */
  const SINGLE_SUCCESS: int := 1

  /** Who issued a command: a player, or a non-player source such as the console. */
  datatype CommandSource = CommandSource(player: Option<Player>)

  datatype Subcommand = On | Off

  /** The confirmation sent privately to the caller (never broadcast to operators). */
  datatype Feedback = StreamingOnMessage | StreamingOffMessage

  /** What a handler produces: its return code, the registry after it, and its message. */
  datatype Outcome = Outcome(code: int, state: Streaming, feedback: Feedback)

  /** The root command's guard: only a source with a player may use `/streaming`. */
  predicate CanRun(src: CommandSource) {
    src.player.Some?
  }

  /** `/streaming on`: enables streaming mode for the caller and nobody else. */
  function ExecuteOn(src: CommandSource, s: Streaming): (o: Outcome)
    requires CanRun(src)
    ensures o.code == SINGLE_SUCCESS
    ensures IsPlayerStreaming(o.state, src.player.value)
    ensures forall u :: u != src.player.value.uuid ==> (u in o.state <==> u in s)
    ensures o.feedback == StreamingOnMessage
  {
    Outcome(SINGLE_SUCCESS, SetPlayerStreaming(s, src.player.value, true), StreamingOnMessage)
  }

  /** `/streaming off`: disables streaming mode for the caller and nobody else. */
  function ExecuteOff(src: CommandSource, s: Streaming): (o: Outcome)
    requires CanRun(src)
    ensures o.code == SINGLE_SUCCESS
    ensures !IsPlayerStreaming(o.state, src.player.value)
    ensures forall u :: u != src.player.value.uuid ==> (u in o.state <==> u in s)
    ensures o.feedback == StreamingOffMessage
  {
    Outcome(SINGLE_SUCCESS, SetPlayerStreaming(s, src.player.value, false), StreamingOffMessage)
  }

  /** `off` undoes an `on` issued while the caller was not streaming, and `on`
      undoes an `off` issued while the caller was streaming. */
  lemma OnOffRoundTrip(src: CommandSource, s: Streaming)
    requires CanRun(src)
    ensures !IsPlayerStreaming(s, src.player.value) ==> ExecuteOff(src, ExecuteOn(src, s).state).state == s
    ensures IsPlayerStreaming(s, src.player.value) ==> ExecuteOn(src, ExecuteOff(src, s).state).state == s
  {
  }

  /** One command as issued: its source and the subcommand typed. */
  datatype Invocation = Invocation(source: CommandSource, sub: Subcommand)

  /** The dispatcher's answer: the handler ran, or the guard refused the source. */
  datatype Reply = Executed(outcome: Outcome) | Rejected

  /** Runs one command through the root guard and then the chosen handler. */
  function Dispatch(inv: Invocation, s: Streaming): (r: Reply)
    ensures r.Rejected? <==> !CanRun(inv.source)
    ensures r.Executed? ==> r.outcome.code == SINGLE_SUCCESS
    ensures r.Executed? ==> (IsPlayerStreaming(r.outcome.state, inv.source.player.value) <==> inv.sub == On)
    ensures r.Executed? ==> forall u :: u != inv.source.player.value.uuid ==> (u in r.outcome.state <==> u in s)
    ensures r.Executed? ==> r.outcome.feedback == (if inv.sub == On then StreamingOnMessage else StreamingOffMessage)
  {
    if !CanRun(inv.source) then Rejected
    else match inv.sub
      case On => Executed(ExecuteOn(inv.source, s))
      case Off => Executed(ExecuteOff(inv.source, s))
  }

  /** The registry after a reply: a refused command leaves it as it was. */
  function StateAfter(s: Streaming, r: Reply): Streaming {
    if r.Executed? then r.outcome.state else s
  }

  /** The registry after dispatching `cmds` in order, starting from `s`. */
  function RunCommands(s: Streaming, cmds: seq<Invocation>): Streaming
    decreases |cmds|
  {
    if |cmds| == 0 then s
    else
      var prev := RunCommands(s, cmds[..|cmds| - 1]);
      StateAfter(prev, Dispatch(cmds[|cmds| - 1], prev))
  }

  /** The registry update a command performs, if the guard lets it through. */
  function UpdateOf(inv: Invocation): seq<Update> {
    if CanRun(inv.source) then [Update(inv.source.player.value, inv.sub == On)] else []
  }

  /** The registry updates performed by `cmds`, in order. */
  function UpdatesOf(cmds: seq<Invocation>): seq<Update>
    decreases |cmds|
  {
    if |cmds| == 0 then [] else UpdatesOf(cmds[..|cmds| - 1]) + UpdateOf(cmds[|cmds| - 1])
  }

  /** The subcommand of the last accepted command issued by the player with UUID `u`. */
  function LastCommandBy(cmds: seq<Invocation>, u: UUID): Option<Subcommand>
    decreases |cmds|
  {
    if |cmds| == 0 then None
    else
      var last := cmds[|cmds| - 1];
      if CanRun(last.source) && last.source.player.value.uuid == u then Some(last.sub)
      else LastCommandBy(cmds[..|cmds| - 1], u)
  }

  /** Dispatching one command is replaying the update it performs, if any. */
  lemma DispatchIsReplayOfUpdate(s: Streaming, inv: Invocation)
    ensures StateAfter(s, Dispatch(inv, s)) == Replay(s, UpdateOf(inv))
  {
    if CanRun(inv.source) {
      var up := UpdateOf(inv);
      assert up[..0] == [];
      assert Replay(s, up) == SetPlayerStreaming(s, inv.source.player.value, inv.sub == On);
    }
  }

  /** Dispatching commands is replaying the updates of the accepted ones. */
  lemma {:induction false} RunIsReplayOfAccepted(s: Streaming, cmds: seq<Invocation>)
    ensures RunCommands(s, cmds) == Replay(s, UpdatesOf(cmds))
    decreases |cmds|
  {
    if |cmds| > 0 {
      var pre := cmds[..|cmds| - 1];
      var last := cmds[|cmds| - 1];
      var prev := RunCommands(s, pre);
      RunIsReplayOfAccepted(s, pre);
      ReplayAppend(s, UpdatesOf(pre), UpdateOf(last));
      DispatchIsReplayOfUpdate(prev, last);
      assert RunCommands(s, cmds) == StateAfter(prev, Dispatch(last, prev));
      assert UpdatesOf(cmds) == UpdatesOf(pre) + UpdateOf(last);
    }
  }

  /** The last update naming `u` is the one made by `u`'s last accepted command. */
  lemma {:induction false} UpdatesRecordLastCommand(cmds: seq<Invocation>, u: UUID)
    ensures LastWrite(UpdatesOf(cmds), u)
         == match LastCommandBy(cmds, u)
            case None => None
            case Some(sub) => Some(sub == On)
    decreases |cmds|
  {
    if |cmds| > 0 {
      var pre := cmds[..|cmds| - 1];
      var last := cmds[|cmds| - 1];
      UpdatesRecordLastCommand(pre, u);
      var xs := UpdatesOf(pre) + UpdateOf(last);
      if CanRun(last.source) {
        assert xs[..|xs| - 1] == UpdatesOf(pre);
      } else {
        assert xs == UpdatesOf(pre);
      }
    }
  }

  /** Whether the player with UUID `u` streams after `cmds`, read off the commands:
      its last accepted command decides, and without one its earlier status stands. */
  predicate StreamingAfterCommands(s: Streaming, cmds: seq<Invocation>, u: UUID) {
    match LastCommandBy(cmds, u)
    case None => u in s
    case Some(sub) => sub == On
  }

  /** Processes a sequence of commands in order against one registry, as the
      server does, collecting each command's reply. */
  method Session(s: Streaming, cmds: seq<Invocation>) returns (state: Streaming, replies: seq<Reply>)
    ensures |replies| == |cmds|
    ensures forall i :: 0 <= i < |cmds| ==> (replies[i].Rejected? <==> !CanRun(cmds[i].source))
    ensures forall i :: 0 <= i < |cmds| && replies[i].Executed? ==> replies[i].outcome.code == SINGLE_SUCCESS
    ensures forall i :: 0 <= i < |cmds| && replies[i].Executed? ==>
              replies[i].outcome.feedback == (if cmds[i].sub == On then StreamingOnMessage else StreamingOffMessage)
    ensures state == RunCommands(s, cmds)
    ensures forall u :: u in state <==> StreamingAfterCommands(s, cmds, u)
  {
    state := s;
    replies := [];
    var i := 0;
    while i < |cmds|
      invariant 0 <= i <= |cmds|
      invariant |replies| == i
      invariant forall j :: 0 <= j < i ==> (replies[j].Rejected? <==> !CanRun(cmds[j].source))
      invariant forall j :: 0 <= j < i && replies[j].Executed? ==> replies[j].outcome.code == SINGLE_SUCCESS
      invariant forall j :: 0 <= j < i && replies[j].Executed? ==>
                  replies[j].outcome.feedback == (if cmds[j].sub == On then StreamingOnMessage else StreamingOffMessage)
      invariant state == RunCommands(s, cmds[..i])
    {
      assert cmds[..i + 1][..i] == cmds[..i];
      var r := Dispatch(cmds[i], state);
      state := StateAfter(state, r);
      replies := replies + [r];
      i := i + 1;
    }
    assert cmds[..i] == cmds;
    forall u
      ensures u in state <==> StreamingAfterCommands(s, cmds, u)
    {
      RunIsReplayOfAccepted(s, cmds);
      ReplayAgreesWithLastWrite(s, UpdatesOf(cmds), u);
      UpdatesRecordLastCommand(cmds, u);
    }
  }

  /** Player A turns streaming on, then off; player B never issues a command.
      Both placeholders start empty. A receives the ON and then the OFF
      confirmation, and A's placeholder shows the tag only in between; B's is
      empty at every moment. */
  lemma OnThenOffScenario(a: Player, b: Player)
    requires a.uuid != b.uuid
    ensures && ResolveStatus(Context(Some(a)), RunCommands(Initial, [])) == EmptyText
            && ResolveStatus(Context(Some(b)), RunCommands(Initial, [])) == EmptyText
    ensures var on := Dispatch(Invocation(CommandSource(Some(a)), On), Initial);
            var off := Dispatch(Invocation(CommandSource(Some(a)), Off), StateAfter(Initial, on));
            && on.Executed? && on.outcome.feedback == StreamingOnMessage
            && off.Executed? && off.outcome.feedback == StreamingOffMessage
    ensures var on := [Invocation(CommandSource(Some(a)), On)];
            && ResolveStatus(Context(Some(a)), RunCommands(Initial, on)) == StreamingTag
            && ResolveStatus(Context(Some(b)), RunCommands(Initial, on)) == EmptyText
    ensures var onOff := [Invocation(CommandSource(Some(a)), On), Invocation(CommandSource(Some(a)), Off)];
            && ResolveStatus(Context(Some(a)), RunCommands(Initial, onOff)) == EmptyText
            && ResolveStatus(Context(Some(b)), RunCommands(Initial, onOff)) == EmptyText
  {
    var on := [Invocation(CommandSource(Some(a)), On)];
    var onOff := on + [Invocation(CommandSource(Some(a)), Off)];
    assert onOff[..1] == on;
    assert on[..0] == [];
  }
}
