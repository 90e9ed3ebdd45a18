/** The gateway side of `UserBotClient`: how a message becomes a command
    (it must start with a mention of the bot's own user), how the voice
    states of a `GUILD_CREATE` reach the voice-state registry, and how
    `READY` is re-dispatched as one `GUILD_CREATE` per guild. */
module Client {
  import opened Bytes
  import opened JavaStrings
  import opened Json

  // ---------------------------------------------------------------------
  // Commands from messages

  /** `String.format("<@%s>", selfId)`; before `READY` the id is unset and
      Java formats it as `null`. */
  function Mention(selfId: Option<string>): (m: string)
    ensures |m| >= 3 && m[0] == '<' && m[1] == '@' && m[|m| - 1] == '>'
    ensures selfId.Some? ==> m == "<@" + selfId.value + ">"
    ensures selfId.None? ==> m == "<@null>"
  {
    "<@" + (if selfId.Some? then selfId.value else "null") + ">"
  }

  /** The command name and the raw argument text handed to the command
      manager. */
  datatype CommandCall = CommandCall(name: string, args: string)

  /** The command listener: trim the content; ignore it unless it starts
      with the mention; trim what follows the mention; the name is its
      first whitespace-free token and the arguments everything after the
      first whitespace run, or `""`. */
  function ParseCommand(content: string, selfId: Option<string>): (r: Option<CommandCall>)
    ensures r.Some? <==> StartsWith(Trim(content), Mention(selfId))
    ensures r.Some? ==> NoSpace(r.value.name)
    ensures r.Some? ==> FirstToken(Trim(Trim(content)[|Mention(selfId)|..]), r.value.name, r.value.args)
  {
    var message := Trim(content);
    var mention := Mention(selfId);
    if !StartsWith(message, mention) then None
    else
      var rest := Trim(message[|mention|..]);
      var parts := SplitWs2(rest);
      Some(CommandCall(parts[0], if |parts| > 1 then parts[1] else ""))
  }

  /** After the mention and `trim`, the rest of the message is what the
      name and arguments are cut from. */
  lemma ParseCommandTrimmed(selfId: Option<string>, front: string, sep: string, body: string, back: string)
    requires AllTrimmed(front) && AllTrimmed(sep) && AllTrimmed(back)
    requires body != "" && !IsTrimmed(body[0]) && !IsTrimmed(body[|body| - 1])
    ensures var parts := SplitWs2(body);
            ParseCommand(front + Mention(selfId) + sep + body + back, selfId)
              == Some(CommandCall(parts[0], if |parts| > 1 then parts[1] else ""))
  {
    var m := Mention(selfId);
    var tail := sep + body;
    var x := m + tail;
    AppendAssoc(m, sep, body);
    assert x[0] == '<' && x[|x| - 1] == body[|body| - 1];
    TrimPadded(front, x, back);
    AppendAssoc(front, m, sep);
    AppendAssoc(front, m + sep, body);
    AppendAssoc(front, m, tail);
    assert x[..|m|] == m && x[|m|..] == tail;
    TrimPadded(sep, body, "");
    assert tail + "" == tail;
  }

  /** A mention, a name, whitespace and arguments, padded with anything
      `trim` cuts, parse to that name and those arguments. */
  lemma ParseCommandOf(selfId: Option<string>, front: string, sep: string, name: string,
                       gap: string, args: string, back: string)
    requires AllTrimmed(front) && AllTrimmed(sep) && AllTrimmed(back)
    requires name != "" && NoSpace(name) && !IsTrimmed(name[0])
    requires gap != "" && AllSpace(gap)
    requires args != "" && !IsTrimmed(args[0]) && !IsTrimmed(args[|args| - 1])
    ensures ParseCommand(front + Mention(selfId) + sep + name + gap + args + back, selfId)
              == Some(CommandCall(name, args))
  {
    var body := name + gap + args;
    assert body[0] == name[0] && body[|body| - 1] == args[|args| - 1];
    ParseCommandTrimmed(selfId, front, sep, body, back);
    SplitWs2Of(name, gap, args);
    var p := front + Mention(selfId) + sep;
    AppendAssoc(p, name, gap);
    AppendAssoc(p, name + gap, args);
  }

  /** A mention followed by a name alone gives empty arguments. */
  lemma ParseNameOnly(selfId: Option<string>, front: string, sep: string, name: string, back: string)
    requires AllTrimmed(front) && AllTrimmed(sep) && AllTrimmed(back)
    requires name != "" && NoSpace(name) && !IsTrimmed(name[0]) && !IsTrimmed(name[|name| - 1])
    ensures ParseCommand(front + Mention(selfId) + sep + name + back, selfId) == Some(CommandCall(name, ""))
  {
    ParseCommandTrimmed(selfId, front, sep, name, back);
  }

  /** Before `READY` sets the bot's id, a message mentioning the literal
      user `null` is taken as a command. */
  lemma CommandBeforeReady()
    ensures Mention(None) == "<@null>"
    ensures ParseCommand(Mention(None) + " " + "ping", None) == Some(CommandCall("ping", ""))
  {
    assert !IsTrimmed('p') && !IsTrimmed('g');
    assert NoSpace("ping") by {
      assert forall k :: 0 <= k < 4 ==> "ping"[k] in "ping";
    }
    assert AllTrimmed(" ");
    ParseNameOnly(None, "", " ", "ping", "");
    var m := Mention(None);
    assert "" + m == m;
    assert m + " " + "ping" + "" == m + " " + "ping";
  }

  // ---------------------------------------------------------------------
  // Voice states of GUILD_CREATE

  /** What the loop over `voice_states` does with one entry. */
  datatype VoiceStep = Skip | Update(userId: string, channelId: string) | Abort

  /** One entry: it must be an object (`getAsJsonObject` throws otherwise);
      it updates the registry only with a `user_id` and a non-null
      `channel_id`, both read with `getAsString`, which may throw. */
  function VoiceStepOf(el: Json): (s: VoiceStep)
    ensures s.Update? <==>
              el.JObject? && "user_id" in el.members && "channel_id" in el.members
              && el.members["channel_id"] != JNull
              && GetAsString(el.members["user_id"]).Ok? && GetAsString(el.members["channel_id"]).Ok?
    ensures s.Update? ==> GetAsString(el.members["user_id"]) == Ok(s.userId)
                          && GetAsString(el.members["channel_id"]) == Ok(s.channelId)
    ensures s == Abort ==> !el.JObject? || ("user_id" in el.members && "channel_id" in el.members)
  {
    if !el.JObject? then Abort
    else
      var vs := el.members;
      if "user_id" in vs && "channel_id" in vs && vs["channel_id"] != JNull then
        var userId := GetAsString(vs["user_id"]);
        var channelId := GetAsString(vs["channel_id"]);
        if userId.Ok? && channelId.Ok? then Update(userId.value, channelId.value) else Abort
      else Skip
  }

  /** The registry after the loop: the updates in entry order, up to the
      first entry that throws. */
  function ApplyVoiceStates(registry: map<string, string>, states: seq<Json>): map<string, string>
    decreases |states|
  {
    if |states| == 0 then registry
    else
      match VoiceStepOf(states[0])
      case Abort => registry
      case Skip => ApplyVoiceStates(registry, states[1..])
      case Update(u, c) => ApplyVoiceStates(registry[u := c], states[1..])
  }

  /** Whether the loop runs to the end. */
  predicate VoiceStatesComplete(states: seq<Json>)
  {
    forall k :: 0 <= k < |states| ==> VoiceStepOf(states[k]) != Abort
  }

  /** A user no entry updates keeps its registry entry, or its absence. */
  lemma {:induction false} VoiceStatesOthersUnchanged(registry: map<string, string>, states: seq<Json>, user: string)
    requires forall k :: 0 <= k < |states| ==> !(VoiceStepOf(states[k]).Update? && VoiceStepOf(states[k]).userId == user)
    ensures user in ApplyVoiceStates(registry, states) <==> user in registry
    ensures user in registry ==> ApplyVoiceStates(registry, states)[user] == registry[user]
    decreases |states|
  {
    if |states| > 0 && VoiceStepOf(states[0]) != Abort {
      assert forall k :: 0 <= k < |states[1..]| ==> states[1..][k] == states[k + 1];
      match VoiceStepOf(states[0])
      case Skip => VoiceStatesOthersUnchanged(registry, states[1..], user);
      case Update(u, c) => VoiceStatesOthersUnchanged(registry[u := c], states[1..], user);
    }
  }

  /** In a run to the end, a user's channel is the one of its last entry. */
  lemma {:induction false} VoiceStatesLastWins(registry: map<string, string>, states: seq<Json>, k: nat)
    requires VoiceStatesComplete(states)
    requires k < |states| && VoiceStepOf(states[k]).Update?
    requires forall m :: k < m < |states| ==>
               !(VoiceStepOf(states[m]).Update? && VoiceStepOf(states[m]).userId == VoiceStepOf(states[k]).userId)
    ensures VoiceStepOf(states[k]).userId in ApplyVoiceStates(registry, states)
    ensures ApplyVoiceStates(registry, states)[VoiceStepOf(states[k]).userId] == VoiceStepOf(states[k]).channelId
    decreases |states|
  {
    var tail := states[1..];
    assert forall m :: 0 <= m < |tail| ==> tail[m] == states[m + 1];
    if k == 0 {
      var s := VoiceStepOf(states[0]);
      VoiceStatesOthersUnchanged(registry[s.userId := s.channelId], tail, s.userId);
    } else {
      match VoiceStepOf(states[0])
      case Skip => VoiceStatesLastWins(registry, tail, k - 1);
      case Update(u, c) => VoiceStatesLastWins(registry[u := c], tail, k - 1);
    }
  }

  /** An entry without `user_id`, without `channel_id` or with a null
      `channel_id` leaves the registry as it is. */
  lemma VoiceStateSkipped(registry: map<string, string>, el: map<string, Json>, rest: seq<Json>)
    requires !("user_id" in el && "channel_id" in el && el["channel_id"] != JNull)
    ensures ApplyVoiceStates(registry, [JObject(el)] + rest) == ApplyVoiceStates(registry, rest)
  {
    assert ([JObject(el)] + rest)[1..] == rest;
  }

  /** `GuildCreateEvent.getVoiceStates`: the `voice_states` array, or an
      empty one when the member is absent; a member that is no array
      throws. */
  function VoiceStatesOf(data: map<string, Json>): (r: Result<seq<Json>>)
    ensures "voice_states" !in data ==> r == Ok([])
    ensures "voice_states" in data ==> (r.Ok? <==> data["voice_states"].JArray?)
    ensures "voice_states" in data && r.Ok? ==> r.value == data["voice_states"].elems
  {
    if "voice_states" !in data then Ok([])
    else if data["voice_states"].JArray? then Ok(data["voice_states"].elems)
    else Throws
  }

  /** `VoiceStateRegistry`: the voice channel of each user. */
  class VoiceStateRegistry {
    var channels: map<string, string>

    constructor ()
      ensures channels == map[]
    {
      channels := map[];
    }

    method Update(userId: string, channelId: string)
      modifies this
      ensures channels == old(channels)[userId := channelId]
    {
      channels := channels[userId := channelId];
    }
  }

  // ---------------------------------------------------------------------
  // READY

  /** The `GUILD_CREATE` payloads `READY` dispatches: one per guild, in
      array order, up to the first entry that is no object. */
  function GuildPayloads(guilds: seq<Json>): (r: seq<Json>)
    ensures |r| <= |guilds|
    ensures forall k :: 0 <= k < |r| ==> r[k] == Payload("GUILD_CREATE", guilds[k]) && guilds[k].JObject?
    ensures |r| < |guilds| ==> !guilds[|r|].JObject?
  {
    if |guilds| == 0 || !guilds[0].JObject? then []
    else [Payload("GUILD_CREATE", guilds[0])] + GuildPayloads(guilds[1..])
  }

  /** When every guild is an object, every guild gets its payload. */
  lemma AllGuildsDispatched(guilds: seq<Json>)
    requires forall k :: 0 <= k < |guilds| ==> guilds[k].JObject?
    ensures |GuildPayloads(guilds)| == |guilds|
  {
  }

  class UserBotClient {
    var selfId: Option<string>
    const dispatcher: Dispatcher
    const registry: VoiceStateRegistry

    constructor (dispatcher: Dispatcher, registry: VoiceStateRegistry)
      ensures selfId == None && this.dispatcher == dispatcher && this.registry == registry
    {
      selfId := None;
      this.dispatcher := dispatcher;
      this.registry := registry;
    }

    /** The `READY` subscriber: record the bot's id, then dispatch
        `{"t": "GUILD_CREATE", "d": guild}` for each entry of `guilds`; an
        absent or non-array `guilds` or a non-object entry throws and ends
        the handler. */
    method OnReady(userId: string, data: map<string, Json>) returns (completed: bool)
      modifies this, dispatcher
      ensures selfId == Some(userId)
      ensures "guilds" in data && data["guilds"].JArray? ==>
                dispatcher.dispatched == old(dispatcher.dispatched) + GuildPayloads(data["guilds"].elems)
                && (completed <==> |GuildPayloads(data["guilds"].elems)| == |data["guilds"].elems|)
      ensures !("guilds" in data && data["guilds"].JArray?) ==> dispatcher.dispatched == old(dispatcher.dispatched) && !completed
    {
      selfId := Some(userId);
      if "guilds" !in data || !data["guilds"].JArray? {
        return false;
      }
      var guilds := data["guilds"].elems;
      var i := 0;
      while i < |guilds|
        invariant i <= |guilds| && selfId == Some(userId)
        invariant |dispatcher.dispatched| == |old(dispatcher.dispatched)| + i
        invariant old(dispatcher.dispatched) + GuildPayloads(guilds) == dispatcher.dispatched + GuildPayloads(guilds[i..])
      {
        var guildData := AsObject(guilds[i]);
        if guildData.Throws? {
          assert GuildPayloads(guilds[i..]) == [];
          assert dispatcher.dispatched + [] == dispatcher.dispatched;
          return false;
        }
        assert guilds[i..][1..] == guilds[i + 1..];
        ghost var before := dispatcher.dispatched;
        var payload := Payload("GUILD_CREATE", JObject(guildData.value));
        assert GuildPayloads(guilds[i..]) == [payload] + GuildPayloads(guilds[i + 1..]);
        dispatcher.Dispatch(payload);
        AppendAssoc(before, [payload], GuildPayloads(guilds[i + 1..]));
        i := i + 1;
      }
      assert guilds[i..] == [];
      assert dispatcher.dispatched + [] == dispatcher.dispatched;
      completed := true;
    }

    /** The `GUILD_CREATE` subscriber: each voice state in turn, as
        `VoiceStepOf` says, until one throws. */
    method OnGuildCreate(data: map<string, Json>) returns (completed: bool)
      modifies registry
      ensures VoiceStatesOf(data).Throws? ==> registry.channels == old(registry.channels) && !completed
      ensures VoiceStatesOf(data).Ok? ==>
                registry.channels == ApplyVoiceStates(old(registry.channels), VoiceStatesOf(data).value)
                && (completed <==> VoiceStatesComplete(VoiceStatesOf(data).value))
    {
      var voiceStates := VoiceStatesOf(data);
      if voiceStates.Throws? {
        return false;
      }
      var states := voiceStates.value;
      var i := 0;
      while i < |states|
        invariant i <= |states|
        invariant ApplyVoiceStates(registry.channels, states[i..]) == ApplyVoiceStates(old(registry.channels), states)
        invariant forall k :: 0 <= k < i ==> VoiceStepOf(states[k]) != Abort
      {
        assert states[i..][1..] == states[i + 1..];
        var step := VoiceStepOf(states[i]);
        if step.Abort? {
          assert !VoiceStatesComplete(states);
          return false;
        }
        if step.Update? {
          registry.Update(step.userId, step.channelId);
        }
        i := i + 1;
      }
      completed := true;
    }

    /** The command listener for one message, with the current id. */
    method OnMessageCreate(content: string) returns (call: Option<CommandCall>)
      ensures call == ParseCommand(content, selfId)
    {
      call := ParseCommand(content, selfId);
    }
  }
}
