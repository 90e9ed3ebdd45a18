/** Commands: the argument parser and typed getters of `CommandContext`, and
    the registry of `CommandManager`, which derives a lower-case key from a
    command's first group and name, looks raw commands up by that key and
    splits the key into group and action. */
module Commands {
  import opened Bytes
  import opened JavaStrings
  import opened Json

  // ---------------------------------------------------------------------
  // Argument parsing

  /** `part.split("=", 2)` on a part holding `=`: the option key is the text
      before the first `=`, the value everything after it, later `=`s
      included. */
  function SplitOption(part: string): (kv: (string, string))
    requires '=' in part
    ensures part == kv.0 + "=" + kv.1 && '=' !in kv.0
  {
    var r := SplitChar2(part, '=');
    (r[0], r[1])
  }

  /** Splitting `key=value` gives the key and the value back. */
  lemma SplitOptionOf(key: string, value: string)
    requires '=' !in key
    ensures '=' in key + "=" + value
    ensures SplitOption(key + "=" + value) == (key, value)
  {
    var part := key + "=" + value;
    assert part[|key|] == '=';
    var kv := SplitOption(part);
    assert |kv.0| == |key|;
    assert kv.0 == part[..|key|] == key;
    assert kv.1 == part[|key| + 1..] == value;
  }

  /** The whitespace-split parts without `=`, in order: the positional
      arguments `parseArgs` collects. */
  function Positionals(parts: seq<string>): (r: seq<string>)
    ensures forall k :: 0 <= k < |r| ==> '=' !in r[k]
  {
    if |parts| == 0 then []
    else
      var last := parts[|parts| - 1];
      Positionals(parts[..|parts| - 1]) + (if '=' in last then [] else [last])
  }

  /** The parts holding `=`, in order. */
  function OptionParts(parts: seq<string>): (r: seq<string>)
    ensures forall k :: 0 <= k < |r| ==> '=' in r[k]
  {
    if |parts| == 0 then []
    else
      var last := parts[|parts| - 1];
      OptionParts(parts[..|parts| - 1]) + (if '=' in last then [last] else [])
  }

  /** The options map `parseArgs` builds: each part holding `=` put in turn,
      so a later key overwrites an earlier one. */
  function Options(parts: seq<string>): map<string, string>
  {
    if |parts| == 0 then map[]
    else
      var last := parts[|parts| - 1];
      var before := Options(parts[..|parts| - 1]);
      if '=' in last then before[SplitOption(last).0 := SplitOption(last).1] else before
  }

  /** Every part lands in exactly one of the two lists: together they hold
      the parts, each as often as it occurs. */
  lemma {:induction false} PartsPartitioned(parts: seq<string>)
    ensures multiset(Positionals(parts)) + multiset(OptionParts(parts)) == multiset(parts)
  {
    if |parts| > 0 {
      var init := parts[..|parts| - 1];
      PartsPartitioned(init);
      assert parts == init + [parts[|parts| - 1]];
    }
  }

  /** The key of every option part is in the options map, and every key of
      the map comes from an option part. */
  lemma {:induction false} OptionsKeys(parts: seq<string>)
    ensures forall k :: 0 <= k < |OptionParts(parts)| ==> SplitOption(OptionParts(parts)[k]).0 in Options(parts)
    ensures forall key :: key in Options(parts) ==>
              exists k :: 0 <= k < |OptionParts(parts)| && SplitOption(OptionParts(parts)[k]).0 == key
  {
    if |parts| > 0 {
      var init := parts[..|parts| - 1];
      OptionsKeys(init);
      var last := parts[|parts| - 1];
      if '=' in last {
        var ops := OptionParts(parts);
        assert ops == OptionParts(init) + [last];
        forall key | key in Options(parts)
          ensures exists k :: 0 <= k < |ops| && SplitOption(ops[k]).0 == key
        {
          if key == SplitOption(last).0 {
            assert SplitOption(ops[|ops| - 1]).0 == key;
          } else {
            var k :| 0 <= k < |OptionParts(init)| && SplitOption(OptionParts(init)[k]).0 == key;
            assert ops[k] == OptionParts(init)[k];
          }
        }
      } else {
        assert OptionParts(parts) == OptionParts(init);
      }
    }
  }

  /** For a repeated key the last occurrence wins. */
  lemma {:induction false} OptionsLastWins(parts: seq<string>, k: nat)
    requires k < |parts| && '=' in parts[k]
    requires forall m :: k < m < |parts| && '=' in parts[m] ==> SplitOption(parts[m]).0 != SplitOption(parts[k]).0
    ensures SplitOption(parts[k]).0 in Options(parts)
    ensures Options(parts)[SplitOption(parts[k]).0] == SplitOption(parts[k]).1
  {
    if k < |parts| - 1 {
      var init := parts[..|parts| - 1];
      assert init[k] == parts[k];
      assert forall m :: k < m < |init| ==> init[m] == parts[m];
      OptionsLastWins(init, k);
    }
  }

  /** Positional arguments keep their input order across any cut. */
  lemma {:induction false} PositionalsAppend(a: seq<string>, b: seq<string>)
    ensures Positionals(a + b) == Positionals(a) + Positionals(b)
    decreases |b|
  {
    if |b| > 0 {
      var b' := b[..|b| - 1];
      assert (a + b)[..|a + b| - 1] == a + b';
      PositionalsAppend(a, b');
    } else {
      assert a + b == a;
    }
  }

  /** Without any `=` every part is positional, in order. */
  lemma {:induction false} PositionalsAllPlain(parts: seq<string>)
    requires forall k :: 0 <= k < |parts| ==> '=' !in parts[k]
    ensures Positionals(parts) == parts && Options(parts) == map[]
  {
    if |parts| > 0 {
      PositionalsAllPlain(parts[..|parts| - 1]);
    }
  }

  /** Empty raw arguments give one empty positional argument and no
      option: `"".split("\\s+")` is `[""]`. */
  lemma EmptyArgs()
    ensures Positionals(SplitWs("")) == [""] && Options(SplitWs("")) == map[]
  {
    assert SplitWs("") == [""];
    PositionalsAllPlain([""]);
  }

  // ---------------------------------------------------------------------
  // Typed values

  /** The classes `getOption` and `getPositional` convert to. */
  datatype ValueType = StringType | IntegerType | LongType | BooleanType

  datatype Value = StringValue(s: string) | IntegerValue(i: int) | LongValue(l: int) | BooleanValue(b: bool)

  /** `Integer.valueOf`, `Long.valueOf`, `Boolean.valueOf` or the text
      itself; `None` where the conversion throws. */
  function Convert(text: string, ty: ValueType): (r: Option<Value>)
    ensures r.Some? ==> (ty == StringType <==> r.value.StringValue?) && (ty == IntegerType <==> r.value.IntegerValue?)
                        && (ty == LongType <==> r.value.LongValue?) && (ty == BooleanType <==> r.value.BooleanValue?)
    ensures r.Some? && r.value.IntegerValue? ==> INT_MIN <= r.value.i <= INT_MAX
    ensures r.Some? && r.value.LongValue? ==> LONG_MIN <= r.value.l <= LONG_MAX
    ensures ty == StringType || ty == BooleanType ==> r.Some?
  {
    match ty
    case StringType => Some(StringValue(text))
    case IntegerType => if ParseInt(text).Some? then Some(IntegerValue(ParseInt(text).value)) else None
    case LongType => if ParseLong(text).Some? then Some(LongValue(ParseLong(text).value)) else None
    case BooleanType => Some(BooleanValue(Lower(text) == "true"))
  }

  /** A number written in decimal converts back to itself when it is in
      range for the type asked for, and fails otherwise. */
  lemma ConvertShow(n: int)
    ensures Convert(ShowInt(n), IntegerType) == if INT_MIN <= n <= INT_MAX then Some(IntegerValue(n)) else None
    ensures Convert(ShowInt(n), LongType) == if LONG_MIN <= n <= LONG_MAX then Some(LongValue(n)) else None
  {
    if INT_MIN <= n <= INT_MAX { ParseShow(n, INT_MIN, INT_MAX); } else { ParseOverflow(n, INT_MIN, INT_MAX); }
    if LONG_MIN <= n <= LONG_MAX { ParseShow(n, LONG_MIN, LONG_MAX); } else { ParseOverflow(n, LONG_MIN, LONG_MAX); }
  }

  /** A lower-case letter is what exactly its two cases lower-case to. */
  lemma LowerCharIs(c: char, l: char, u: char)
    requires 'a' <= l <= 'z' && u as int == l as int - 32
    ensures LowerChar(c) == l <==> c == l || c == u
  {
  }

  /** `Boolean.valueOf` never fails: it is `true` exactly for the four
      letters of "true" in any mix of cases, and `false` for any other
      text. */
  lemma ConvertBoolean(text: string)
    ensures Convert(text, BooleanType)
         == Some(BooleanValue(|text| == 4 && forall i :: 0 <= i < 4 ==> text[i] == "true"[i] || text[i] == "TRUE"[i]))
  {
    if |text| == 4 {
      forall i | 0 <= i < 4
        ensures Lower(text)[i] == "true"[i] <==> text[i] == "true"[i] || text[i] == "TRUE"[i]
      {
        LowerCharIs(text[i], "true"[i], "TRUE"[i]);
      }
      if forall i :: 0 <= i < 4 ==> text[i] == "true"[i] || text[i] == "TRUE"[i] {
        assert Lower(text) == "true";
      } else {
        var i :| 0 <= i < 4 && !(text[i] == "true"[i] || text[i] == "TRUE"[i]);
        assert Lower(text)[i] != "true"[i];
      }
    }
  }

  /** The fields of the `MESSAGE_CREATE` event a context is made from
      (`getGuildId`, `getUserVoiceChannelId` may be `null`). */
  datatype MessageEvent = MessageEvent(channelId: string, authorId: string, messageId: string,
                                       guildId: Option<string>, voiceChannelId: Option<string>)

  class CommandContext {
    const rawArgs: string
    const event: MessageEvent
    var positionalArgs: seq<string>
    var options: map<string, string>
    var group: Option<string>
    var action: Option<string>
    /** The texts `reply` sent, in order. */
    var replies: seq<string>

    /** The arguments as `parseArgs` leaves them. */
    ghost predicate Parsed()
      reads this
    {
      positionalArgs == Positionals(SplitWs(rawArgs)) && options == Options(SplitWs(rawArgs))
    }

    constructor (rawArgs: string, event: MessageEvent)
      ensures this.rawArgs == rawArgs && this.event == event
      ensures Parsed() && group == None && action == None && replies == []
    {
      this.rawArgs := rawArgs;
      this.event := event;
      positionalArgs := [];
      options := map[];
      group := None;
      action := None;
      replies := [];
      new;
      ParseArgs();
    }

    /** `parseArgs`: each whitespace-split part goes to the options when it
        holds `=`, to the positional arguments otherwise. */
    method ParseArgs()
      requires positionalArgs == [] && options == map[]
      modifies this
      ensures Parsed()
      ensures group == old(group) && action == old(action) && replies == old(replies)
    {
      var parts := SplitWs(rawArgs);
      for i := 0 to |parts|
        invariant positionalArgs == Positionals(parts[..i]) && options == Options(parts[..i])
        invariant group == old(group) && action == old(action) && replies == old(replies)
      {
        assert parts[..i + 1][..i] == parts[..i];
        var part := parts[i];
        if '=' in part {
          var kv := SplitChar2(part, '=');
          options := options[kv[0] := kv[1]];
        } else {
          positionalArgs := positionalArgs + [part];
        }
      }
      assert parts[..|parts|] == parts;
    }

    /** `getOption`: the default for a key that was not given or whose value
        does not convert. */
    function GetOption(key: string, ty: ValueType, default: Value): (v: Value)
      reads this
      ensures key !in options ==> v == default
      ensures key in options && ty == StringType ==> v == StringValue(options[key])
      ensures key in options && Convert(options[key], ty).None? ==> v == default
      ensures key in options && Convert(options[key], ty).Some? ==> v == Convert(options[key], ty).value
    {
      if key !in options then default
      else
        var converted := Convert(options[key], ty);
        if converted.Some? then converted.value else default
    }

    /** `getPositional`: the default past the last argument or when the
        conversion fails; a negative index throws, as `List.get` does
        outside the `try`. */
    function GetPositional(index: int, ty: ValueType, default: Value): (v: Result<Value>)
      reads this
      ensures v == Throws <==> index < 0
      ensures index >= |positionalArgs| ==> v == Ok(default)
      ensures 0 <= index < |positionalArgs| && ty == StringType ==> v == Ok(StringValue(positionalArgs[index]))
      ensures 0 <= index < |positionalArgs| && Convert(positionalArgs[index], ty).None? ==> v == Ok(default)
      ensures 0 <= index < |positionalArgs| && Convert(positionalArgs[index], ty).Some? ==>
                v == Ok(Convert(positionalArgs[index], ty).value)
    {
      if index >= |positionalArgs| then Ok(default)
      else if index < 0 then Throws
      else
        var converted := Convert(positionalArgs[index], ty);
        Ok(if converted.Some? then converted.value else default)
    }

    method SetGroup(group: string)
      modifies this
      ensures this.group == Some(group)
      ensures action == old(action) && replies == old(replies)
      ensures positionalArgs == old(positionalArgs) && options == old(options)
    {
      this.group := Some(group);
    }

    method SetAction(action: string)
      modifies this
      ensures this.action == Some(action)
      ensures group == old(group) && replies == old(replies)
      ensures positionalArgs == old(positionalArgs) && options == old(options)
    {
      this.action := Some(action);
    }

    /** `reply`: a message answering the one that carried the command. */
    method Reply(message: string)
      modifies this
      ensures replies == old(replies) + [message]
      ensures group == old(group) && action == old(action)
      ensures positionalArgs == old(positionalArgs) && options == old(options)
    {
      replies := replies + [message];
    }
  }

  /** The value `getOption` finds for a key is the one given last. */
  lemma OptionGivenLast(ctx: CommandContext, k: nat, ty: ValueType, default: Value)
    requires ctx.Parsed()
    requires k < |SplitWs(ctx.rawArgs)| && '=' in SplitWs(ctx.rawArgs)[k]
    requires forall m :: k < m < |SplitWs(ctx.rawArgs)| && '=' in SplitWs(ctx.rawArgs)[m] ==>
               SplitOption(SplitWs(ctx.rawArgs)[m]).0 != SplitOption(SplitWs(ctx.rawArgs)[k]).0
    ensures var kv := SplitOption(SplitWs(ctx.rawArgs)[k]);
            ctx.GetOption(kv.0, StringType, default) == StringValue(kv.1)
  {
    OptionsLastWins(SplitWs(ctx.rawArgs), k);
  }

  /** An option given as a decimal number reads back as that number when it
      is in range for `Integer` or `Long`, and as the default otherwise. */
  lemma NumericOption(ctx: CommandContext, key: string, n: int, default: Value)
    requires key in ctx.options && ctx.options[key] == ShowInt(n)
    ensures ctx.GetOption(key, IntegerType, default) == if INT_MIN <= n <= INT_MAX then IntegerValue(n) else default
    ensures ctx.GetOption(key, LongType, default) == if LONG_MIN <= n <= LONG_MAX then LongValue(n) else default
  {
    ConvertShow(n);
  }

  /** So does a positional argument, within the argument list. */
  lemma NumericPositional(ctx: CommandContext, index: nat, n: int, default: Value)
    requires index < |ctx.positionalArgs| && ctx.positionalArgs[index] == ShowInt(n)
    ensures ctx.GetPositional(index, IntegerType, default) == Ok(if INT_MIN <= n <= INT_MAX then IntegerValue(n) else default)
    ensures ctx.GetPositional(index, LongType, default) == Ok(if LONG_MIN <= n <= LONG_MAX then LongValue(n) else default)
  {
    ConvertShow(n);
  }

  // ---------------------------------------------------------------------
  // The command registry

  /** A scanned command: its name, its groups, and which class answers it. */
  datatype CommandInfo = CommandInfo(name: string, groups: seq<string>, commandClass: nat)

  /** The registry key: `name`, or `firstGroup:name`, lower-cased. */
  function CommandKey(cmd: CommandInfo): string
  {
    Lower(if |cmd.groups| == 0 then cmd.name else cmd.groups[0] + ":" + cmd.name)
  }

  /** The map `registerCommands` leaves: each command put under its key in
      turn, so a later command with the same key replaces an earlier one. */
  function Registry(commands: map<string, CommandInfo>, list: seq<CommandInfo>): map<string, CommandInfo>
  {
    if |list| == 0 then commands
    else Registry(commands, list[..|list| - 1])[CommandKey(list[|list| - 1]) := list[|list| - 1]]
  }

  /** Whether some command of `list` has `key`. */
  ghost predicate Registered(list: seq<CommandInfo>, key: string)
  {
    exists k :: 0 <= k < |list| && CommandKey(list[k]) == key
  }

  lemma RegisteredSnoc(init: seq<CommandInfo>, last: CommandInfo, key: string)
    ensures Registered(init + [last], key) <==> Registered(init, key) || CommandKey(last) == key
  {
    var list := init + [last];
    if Registered(init, key) {
      var k :| 0 <= k < |init| && CommandKey(init[k]) == key;
      assert list[k] == init[k];
    }
    if CommandKey(last) == key {
      assert list[|init|] == last;
    }
    if Registered(list, key) {
      var k :| 0 <= k < |list| && CommandKey(list[k]) == key;
      if k < |init| {
        assert init[k] == list[k];
      }
    }
  }

  /** The registry holds a key exactly when it held it before or some
      registered command has it. */
  lemma {:induction false} RegistryKeys(commands: map<string, CommandInfo>, list: seq<CommandInfo>, key: string)
    ensures key in Registry(commands, list) <==> key in commands || Registered(list, key)
  {
    if |list| > 0 {
      var init := list[..|list| - 1];
      var last := list[|list| - 1];
      RegistryKeys(commands, init, key);
      assert list == init + [last];
      RegisteredSnoc(init, last, key);
      var lastKey := CommandKey(last);
      assert Registry(commands, list) == Registry(commands, init)[lastKey := last];
    }
  }

  /** The command a key finds is the last one registered under it. */
  lemma {:induction false} RegistryLastWins(commands: map<string, CommandInfo>, list: seq<CommandInfo>, k: nat)
    requires k < |list|
    requires forall m :: k < m < |list| ==> CommandKey(list[m]) != CommandKey(list[k])
    ensures CommandKey(list[k]) in Registry(commands, list)
    ensures Registry(commands, list)[CommandKey(list[k])] == list[k]
  {
    if k < |list| - 1 {
      var init := list[..|list| - 1];
      assert init[k] == list[k];
      assert forall m :: k < m < |init| ==> init[m] == list[m];
      RegistryLastWins(commands, init, k);
    }
  }

  /** A key no registered command has keeps what it held. */
  lemma {:induction false} RegistryUntouched(commands: map<string, CommandInfo>, list: seq<CommandInfo>, key: string)
    requires key in commands
    requires forall k :: 0 <= k < |list| ==> CommandKey(list[k]) != key
    ensures key in Registry(commands, list) && Registry(commands, list)[key] == commands[key]
  {
    if |list| > 0 {
      var init := list[..|list| - 1];
      assert forall k :: 0 <= k < |init| ==> init[k] == list[k];
      RegistryUntouched(commands, init, key);
    }
  }

  /** The group and the action `handleCommand` reads from a key: the first
      two pieces of `key.split(":")` when there are more than one, else
      `general` and the whole key. */
  function GroupAction(key: string): (ga: (string, string))
  {
    var parts := SplitChar(key, ':');
    if |parts| > 1 then (parts[0], parts[1]) else ("general", key)
  }

  /** A key without `:` is an action of the `general` group. */
  lemma GroupActionPlain(key: string)
    requires ':' !in key
    ensures GroupAction(key) == ("general", key)
  {
  }

  /** The first piece of `a` followed by nothing or by a `:` is `a`. */
  lemma HeadPiece(a: string, rest: string)
    requires ':' !in a
    requires rest == "" || rest[0] == ':'
    ensures CharPieces(a + rest, ':')[0] == a
  {
    if rest == "" {
      assert a + rest == a;
    } else {
      assert a + rest == a + [':'] + rest[1..];
      CharPiecesAt(a, rest[1..], ':');
    }
  }

  /** `group:action`, with anything from a further `:` on, splits into the
      group and the action; a third piece is ignored. */
  lemma GroupActionSplit(g: string, a: string, rest: string)
    requires ':' !in g && ':' !in a && a != ""
    requires rest == "" || rest[0] == ':'
    ensures GroupAction(g + ":" + a + rest) == (g, a)
  {
    var key := g + ":" + a + rest;
    var tail := a + rest;
    assert key == g + [':'] + tail;
    CharPiecesAt(g, tail, ':');
    HeadPiece(a, rest);
    var pieces := CharPieces(key, ':');
    assert pieces[0] == g && pieces[1] == a;
    DropTrailingEmptyKeeps(pieces, 1);
  }

  /** A trailing `:` leaves a single piece, since `split` drops the empty
      one after it: `help:` is the action `help:` of the `general` group. */
  lemma GroupActionTrailingColon(g: string)
    requires ':' !in g
    ensures GroupAction(g + ":") == ("general", g + ":")
  {
    var key := g + ":";
    assert key == g + [':'] + "";
    CharPiecesAt(g, "", ':');
    assert CharPieces(key, ':') == [g, ""];
    assert CharPieces(key, ':')[..1] == [g];
  }

  /** Lower-casing neither adds nor removes a character. */
  lemma LowerKeepsColon(s: string)
    ensures ':' in s <==> ':' in Lower(s)
    ensures s == "" <==> Lower(s) == ""
  {
    if ':' in s {
      var k :| 0 <= k < |s| && s[k] == ':';
      assert Lower(s)[k] == ':';
    }
    if ':' in Lower(s) {
      var k :| 0 <= k < |Lower(s)| && Lower(s)[k] == ':';
      assert s[k] == ':';
    }
  }

  /** The group and action a registered command runs under are its first
      group and its name, lower-cased; with no group it is a `general`
      action. */
  lemma RegisteredGroupAction(cmd: CommandInfo)
    requires ':' !in cmd.name && cmd.name != ""
    requires |cmd.groups| > 0 ==> ':' !in cmd.groups[0]
    ensures |cmd.groups| == 0 ==> GroupAction(CommandKey(cmd)) == ("general", Lower(cmd.name))
    ensures |cmd.groups| > 0 ==> GroupAction(CommandKey(cmd)) == (Lower(cmd.groups[0]), Lower(cmd.name))
  {
    LowerKeepsColon(cmd.name);
    if |cmd.groups| > 0 {
      var g := cmd.groups[0];
      LowerKeepsColon(g);
      LowerAppend(g + ":", cmd.name);
      LowerAppend(g, ":");
      assert Lower(":") == ":";
      GroupActionSplit(Lower(g), Lower(cmd.name), "");
      assert Lower(g) + ":" + Lower(cmd.name) + "" == Lower(g) + ":" + Lower(cmd.name);
    } else {
      GroupActionPlain(Lower(cmd.name));
    }
  }

  // ---------------------------------------------------------------------
  // Handling a command

  /** How running the command class goes: its no-argument constructor fails
      (`InstantiationException`, `IllegalAccessException`,
      `NoSuchMethodException`), or `execute` is missing or throws (after the
      group and action are set), or it runs. */
  datatype Execution = Executes | ConstructionFails | ExecutionFails

  const UNKNOWN_COMMAND: string := "❌ Unknown command: "
  const EXECUTION_FAILED: string := "❌ Failed to execute command: "

  /** What `handleCommand` does once the event is dispatched: the group
      and action it sets, the reply it sends and the command it looked up
      and instantiated. Whether that command's `execute` then ran to the
      end, was missing, or threw is the `Execution` given. */
  datatype Outcome = Outcome(groupAction: Option<(string, string)>, reply: Option<string>, executed: Option<CommandInfo>)

  function Handling(commands: map<string, CommandInfo>, rawCommand: string, execution: Execution): (o: Outcome)
    ensures Lower(rawCommand) !in commands ==> o == Outcome(None, Some(UNKNOWN_COMMAND + rawCommand), None)
    ensures Lower(rawCommand) in commands ==> (o.reply.Some? <==> execution != Executes)
    ensures o.executed.Some? ==> o.executed.value == commands[Lower(rawCommand)] && o.groupAction.Some?
  {
    var key := Lower(rawCommand);
    if key !in commands then Outcome(None, Some(UNKNOWN_COMMAND + rawCommand), None)
    else
      match execution
      case ConstructionFails => Outcome(None, Some(EXECUTION_FAILED + rawCommand), None)
      case ExecutionFails => Outcome(Some(GroupAction(key)), Some(EXECUTION_FAILED + rawCommand), Some(commands[key]))
      case Executes => Outcome(Some(GroupAction(key)), None, Some(commands[key]))
  }

  /** A raw command in any letter case runs the command last registered
      under its key, with the command's own group and name as group and
      action. */
  lemma HandlesRegistered(list: seq<CommandInfo>, k: nat, rawCommand: string)
    requires k < |list|
    requires forall m :: k < m < |list| ==> CommandKey(list[m]) != CommandKey(list[k])
    requires Lower(rawCommand) == CommandKey(list[k])
    requires ':' !in list[k].name && list[k].name != ""
    requires |list[k].groups| > 0 ==> ':' !in list[k].groups[0]
    ensures var o := Handling(Registry(map[], list), rawCommand, Executes);
            o.executed == Some(list[k]) && o.reply == None
            && o.groupAction == Some(if |list[k].groups| == 0 then ("general", Lower(list[k].name))
                                     else (Lower(list[k].groups[0]), Lower(list[k].name)))
  {
    RegistryLastWins(map[], list, k);
    RegisteredGroupAction(list[k]);
  }

  /** The `COMMAND_EXECUTE` payload dispatched for every command, known or
      not. */
  function CommandExecutePayload(event: MessageEvent, rawCommand: string, contextId: string): (p: Json)
    ensures p.JObject? && "t" in p.members && "d" in p.members && p.members["t"] == JString("COMMAND_EXECUTE")
    ensures "d" in p.members && var d := p.members["d"];
            d.JObject? && d.members.Keys == {"userId", "guildId", "commandName", "contextId"}
            && d.members["commandName"] == JString(rawCommand) && d.members["contextId"] == JString(contextId)
            && d.members["userId"] == JString(event.authorId) && d.members["guildId"] == StringOrNull(event.guildId)
  {
    Payload("COMMAND_EXECUTE", JObject(map[
      "userId" := JString(event.authorId),
      "guildId" := StringOrNull(event.guildId),
      "commandName" := JString(rawCommand),
      "contextId" := JString(contextId)]))
  }

  /** `CommandContextStore`: contexts by id, for the event listeners. */
  class ContextStore {
    var contexts: map<string, CommandContext>

    constructor ()
      ensures contexts == map[]
    {
      contexts := map[];
    }

    method Put(id: string, context: CommandContext)
      modifies this
      ensures contexts == old(contexts)[id := context]
    {
      contexts := contexts[id := context];
    }
  }

  class CommandManager {
    var commands: map<string, CommandInfo>

    constructor ()
      ensures commands == map[]
    {
      commands := map[];
    }

    /** `registerCommands`: each command put under its key, in list order. */
    method RegisterCommands(list: seq<CommandInfo>)
      modifies this
      ensures commands == Registry(old(commands), list)
    {
      for i := 0 to |list|
        invariant commands == Registry(old(commands), list[..i])
      {
        assert list[..i + 1][..i] == list[..i];
        var cmd := list[i];
        var key := if |cmd.groups| == 0 then cmd.name else cmd.groups[0] + ":" + cmd.name;
        commands := commands[Lower(key) := cmd];
      }
      assert list[..|list|] == list;
    }

    /** `handleCommand`: the context is stored under `contextId` (a random
        UUID in the source) and `COMMAND_EXECUTE` is dispatched before the
        lookup, so both happen for unknown commands too; then the outcome
        of `Handling`. */
    method HandleCommand(rawCommand: string, context: CommandContext, contextId: string,
                         store: ContextStore, dispatcher: Dispatcher, execution: Execution)
      returns (executed: Option<CommandInfo>)
      modifies context, store, dispatcher
      ensures store.contexts == old(store.contexts)[contextId := context]
      ensures dispatcher.dispatched == old(dispatcher.dispatched) + [CommandExecutePayload(context.event, rawCommand, contextId)]
      ensures var o := Handling(commands, rawCommand, execution);
              executed == o.executed
              && (o.groupAction.Some? ==> context.group == Some(o.groupAction.value.0) && context.action == Some(o.groupAction.value.1))
              && (o.groupAction.None? ==> context.group == old(context.group) && context.action == old(context.action))
              && context.replies == old(context.replies) + (if o.reply.Some? then [o.reply.value] else [])
      ensures context.positionalArgs == old(context.positionalArgs) && context.options == old(context.options)
    {
      store.Put(contextId, context);
      dispatcher.Dispatch(CommandExecutePayload(context.event, rawCommand, contextId));

      var lookupKey := Lower(rawCommand);
      if lookupKey !in commands {
        context.Reply(UNKNOWN_COMMAND + rawCommand);
        executed := None;
        return;
      }
      var cmd := commands[lookupKey];
      if execution == ConstructionFails {
        context.Reply(EXECUTION_FAILED + rawCommand);
        executed := None;
        return;
      }
      var parts := SplitChar(lookupKey, ':');
      var group := if |parts| > 1 then parts[0] else "general";
      var action := if |parts| > 1 then parts[1] else lookupKey;
      context.SetGroup(group);
      context.SetAction(action);
      executed := Some(cmd);
      if execution == ExecutionFails {
        context.Reply(EXECUTION_FAILED + rawCommand);
      }
    }
  }
}
