/** What the bot does with one server event: every event other than a chat message is
    ignored; a chat message that starts with the command prefix is resolved to a command
    and answered. The send itself is not performed here: the answer is returned as an
    Outcome. */
module Dispatch {
  import opened Commands

  /** Settings the source reads from the environment and the build: the command prefix
      (COMMAND_PREFIX), the joined channel (TWITCH_CHANNEL), the package version and
      whether the build is a debug build. */
  datatype Settings = Settings(prefix: string, channel: string, version: string, debug: bool)

  /** What handling one event leads to: nothing, one chat reply, or an aborted task
      (a command whose handler is not implemented). */
  datatype Outcome = NoReply | Reply(channel: string, text: string) | Abort

  /** A chat message: its text, who sent it and the channel it was sent in. */
  datatype PrivmsgMessage = PrivmsgMessage(messageText: string, sender: string, channel: string)

  /** The server events the bot distinguishes, and a catch-all for the rest. */
  datatype ServerMessage =
    | ClearChat | ClearMsg | GlobalUserState | Join | Notice | Part | Ping | Pong
    | Privmsg(message: PrivmsgMessage)
    | Reconnect | RoomState | UserNotice | UserState | Whisper
    | Other

  const DefaultPrefix: string := "!"

  /** The command prefix: the configured one if there is one, "!" otherwise. */
  function CommandPrefix(configured: Option<string>): (p: string)
    ensures configured.Some? ==> p == configured.value
    ensures configured.None? ==> p == "!"
  {
    match configured
    case Some(q) => q
    case None => DefaultPrefix
  }

  /** The text of the About reply. */
  function AboutText(version: string, debug: bool): (t: string)
    ensures StartsWith(t, "Version: " + version + " - Debug mode: ")
    ensures t[|"Version: " + version + " - Debug mode: "|..] == (if debug then "On" else "Off")
  {
    "Version: " + version + " - Debug mode: " + (if debug then "On" else "Off")
  }

  /** The handler of a resolved command. */
  function Respond(cmd: BotCommand, cfg: Settings): (r: Outcome)
    ensures r.Reply? <==> cmd == BotCommand.Ping || cmd == About
    ensures r.Reply? ==> r.channel == cfg.channel
    ensures r.Abort? <==> cmd == Help || cmd == Quote
  {
    match cmd
    case Ping => Reply(cfg.channel, "Pong!")
    case Help => Abort
    case Quote => Abort
    case About => Reply(cfg.channel, AboutText(cfg.version, cfg.debug))
  }

  /** pmsg_handle: a chat text that does not start with the prefix, or that resolves no
      command, gets no reply; otherwise the resolved command's handler decides. */
  function PmsgHandle(text: string, cfg: Settings): (r: Outcome)
    ensures !StartsWith(text, cfg.prefix) ==> r == NoReply
    ensures StartsWith(text, cfg.prefix) ==>
              (r == NoReply <==> WhatCommand(cfg.prefix, text).None?)
    ensures r.Reply? ==> r.channel == cfg.channel
  {
    if StartsWith(text, cfg.prefix) then
      match WhatCommand(cfg.prefix, text)
      case None => NoReply
      case Some(cmd) => Respond(cmd, cfg)
    else
      NoReply
  }

  /** message_processing_hub: only chat messages are handled; every other event is a no-op. */
  function MessageProcessingHub(event: ServerMessage, cfg: Settings): (r: Outcome)
    ensures r != NoReply ==> event.Privmsg? && StartsWith(event.message.messageText, cfg.prefix)
  {
    match event
    case Privmsg(pm) => PmsgHandle(pm.messageText, cfg)
    case _ => NoReply
  }

  // ---------------------------------------------------------------------------
  // Properties of the pipeline

  /** Every event other than a chat message is a no-op that yields no reply and no failure. */
  lemma NonChatEventsAreNoOps(event: ServerMessage, cfg: Settings)
    requires !event.Privmsg?
    ensures MessageProcessingHub(event, cfg) == NoReply
  {
  }

  /** A chat message without the prefix is not a command: no reply, no failure. */
  lemma NonCommandIsIgnored(pm: PrivmsgMessage, cfg: Settings)
    requires !StartsWith(pm.messageText, cfg.prefix)
    ensures MessageProcessingHub(Privmsg(pm), cfg) == NoReply
  {
  }

  /** A chat message that is exactly the prefix gets no reply and no failure. */
  lemma BarePrefixIsIgnored(pm: PrivmsgMessage, cfg: Settings)
    requires pm.messageText == cfg.prefix
    ensures MessageProcessingHub(Privmsg(pm), cfg) == NoReply
  {
    EmptyRemainderResolvesNothing(cfg.prefix);
  }

  /** The prefix followed by any casing of "ping" and anything else: exactly one reply,
      "Pong!", to the configured channel. */
  lemma PingRepliesPong(pm: PrivmsgMessage, cfg: Settings, word: string, tail: string)
    requires Lower(word) == "ping"
    requires pm.messageText == cfg.prefix + word + tail
    ensures MessageProcessingHub(Privmsg(pm), cfg) == Reply(cfg.channel, "Pong!")
  {
    WhatCommandByName(cfg.prefix, word, tail, BotCommand.Ping);
  }

  /** The prefix followed by any casing of "about": the version reply. */
  lemma AboutRepliesVersion(pm: PrivmsgMessage, cfg: Settings, word: string, tail: string)
    requires Lower(word) == "about"
    requires pm.messageText == cfg.prefix + word + tail
    ensures MessageProcessingHub(Privmsg(pm), cfg)
            == Reply(cfg.channel, "Version: " + cfg.version + " - Debug mode: " + (if cfg.debug then "On" else "Off"))
  {
    WhatCommandByName(cfg.prefix, word, tail, About);
    assert PmsgHandle(pm.messageText, cfg) == Respond(About, cfg);
  }

  /** Help and Quote abort the handling of that event; this is distinct from "no command". */
  lemma UnimplementedCommandsAbort(pm: PrivmsgMessage, cfg: Settings, word: string, tail: string)
    requires Lower(word) == "help" || Lower(word) == "quote"
    requires pm.messageText == cfg.prefix + word + tail
    ensures MessageProcessingHub(Privmsg(pm), cfg) == Abort
  {
    if Lower(word) == "help" {
      WhatCommandByName(cfg.prefix, word, tail, Help);
    } else {
      WhatCommandByName(cfg.prefix, word, tail, Quote);
    }
  }

  /** The outcome of a chat message, by the command its lowercased remainder starts with. */
  lemma OutcomeByCommand(text: string, cfg: Settings, c: BotCommand)
    requires StartsWith(text, cfg.prefix)
    requires StartsWith(Lower(text[|cfg.prefix|..]), Name(c))
    ensures PmsgHandle(text, cfg) == Respond(c, cfg)
  {
    var r := WhatCommand(cfg.prefix, text);
    AtMostOneMatch(Lower(text[|cfg.prefix|..]), c, r.value);
  }

  /** Example with the default prefix "!": "!ping" answers "Pong!". */
  lemma DefaultPrefixPingExample(cfg: Settings)
    requires cfg.prefix == CommandPrefix(None)
    ensures PmsgHandle("!ping", cfg) == Reply(cfg.channel, "Pong!")
  {
    assert "!ping" == "!" + "ping" + "";
    WhatCommandByName("!", "ping", "", BotCommand.Ping);
  }

  /** Example with the default prefix "!": a prefix match, "!pingxyz", answers "Pong!" too. */
  lemma DefaultPrefixPrefixMatchExample(cfg: Settings)
    requires cfg.prefix == CommandPrefix(None)
    ensures PmsgHandle("!pingxyz", cfg) == Reply(cfg.channel, "Pong!")
  {
    assert "!pingxyz" == "!" + "ping" + "xyz";
    WhatCommandByName("!", "ping", "xyz", BotCommand.Ping);
  }

  /** Example with the default prefix "!": upper case answers "Pong!" too. */
  lemma DefaultPrefixUpperCaseExample(cfg: Settings)
    requires cfg.prefix == CommandPrefix(None)
    ensures PmsgHandle("!PING", cfg) == Reply(cfg.channel, "Pong!")
  {
    var l := Lower("PING");
    assert l[0] == 'p' && l[1] == 'i' && l[2] == 'n' && l[3] == 'g';
    assert l == "ping";
    assert "!PING" == "!" + "PING" + "";
    WhatCommandByName("!", "PING", "", BotCommand.Ping);
  }

  /** Examples with the default prefix "!" that get no reply. */
  lemma DefaultPrefixIgnoredExamples(cfg: Settings)
    requires cfg.prefix == CommandPrefix(None)
    ensures PmsgHandle("!xyz", cfg) == NoReply
    ensures PmsgHandle("!", cfg) == NoReply
    ensures PmsgHandle("ping", cfg) == NoReply
  {
    assert StartsWith("!xyz", "!");
    assert "!xyz"[1..] == "xyz";
    assert Lower("xyz") == "xyz";
    forall c: BotCommand ensures !StartsWith("xyz", Name(c)) {
      assert Name(c)[0] != 'x';
    }
    EmptyRemainderResolvesNothing("!");
    assert !StartsWith("ping", "!");
  }
}
