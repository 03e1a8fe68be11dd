# twitchy-mojo command pipeline, in Dafny

This project models how the twitchy-mojo chat bot decides what to do with one
server event from Twitch chat. Every event other than a chat message (`Privmsg`)
is ignored. A chat message whose text starts with the command prefix (`"!"`
unless `COMMAND_PREFIX` is set) is a command invocation. The bot strips the
prefix and lowercases the rest. It then resolves the result against the four
commands `Ping`, `Help`, `Quote` and `About`, in that order, taking the first
one whose lowercase name the text starts with. `Ping` answers `"Pong!"`.
`About` answers with the package version and the debug flag. `Help` and
`Quote` are `todo!()` and abort the handling of that event.

The model is pure, as the source logic is:

- `commands.dfy` (module `Commands`) holds the command enum and the string
  operations: prefix test, prefix stripping and lowercasing. It also holds the
  first-match search and `what_command`.
- `dispatch.dfy` (module `Dispatch`) holds the server events and the
  per-command handler. It also holds `pmsg_handle` and
  `message_processing_hub`, which return an `Outcome`: `NoReply`,
  `Reply(channel, text)` or `Abort`.

The environment and the build metadata are parameters, grouped in `Settings`:
the prefix, the channel, the package version and the debug flag. A send is
represented only by the `Reply` outcome.

The declaration-order tie-break is proved for any command list
(`FirstMatchIsLeast`). For the actual four names, `AtMostOneMatch` shows that
no text matches two commands, so the tie-break never has to choose.
Determinism is immediate, since every operation is a Dafny function.

## Model

| member | source | states |
|---|---|---|
| `Commands.Name` | src/main.rs:218-224 | each command's match name is non-empty and already lowercase |
| `Commands.AllCommandsComplete` | src/main.rs:218-224 | the resolution order lists every command |
| `Commands.StartsWith` | src/main.rs:155 | the `starts_with` test (also used at line 113): true exactly when the prefix is no longer than the text and agrees with it character by character |
| `Commands.StripPrefix` | src/main.rs:144-146 | a remainder exists exactly when the text starts with the prefix; prefix + remainder gives back the text |
| `Commands.StripPrefixOfConcat` | src/main.rs:144-146 | stripping the prefix from prefix + t gives exactly t |
| `Commands.LowerChar` | src/main.rs:147 | upper-case ASCII letters map to their lower-case letters; every other character is unchanged; the result is never an upper-case letter |
| `Commands.Lower` | src/main.rs:147 | keeps the length; each character is lowercased in place |
| `Commands.LowerIdempotent` | src/main.rs:147 | lowercasing an already lowercased text changes nothing |
| `Commands.LowerConcat` | src/main.rs:147 | lowercasing distributes over concatenation |
| `Commands.FirstMatch` | src/main.rs:150-162 | None exactly when no command in the list has a name the text starts with; otherwise a listed command whose name the text starts with |
| `Commands.FirstMatchIsLeast` | src/main.rs:150-158 | the command at the least matching position of the list is the one returned (declaration-order tie-break) |
| `Commands.NameInitialsDistinct` | src/main.rs:218-224 | different commands have names with different first letters |
| `Commands.AtMostOneMatch` | src/main.rs:218-224 | no text starts with the names of two different commands |
| `Commands.ResolvesByName` | src/main.rs:150-158 | any text starting with a command's name resolves to that command, so matching is a prefix test and not equality |
| `Commands.WhatCommand` | src/main.rs:142-163 | with the prefix present, None exactly when the lowercased remainder starts with no command name; otherwise the remainder starts with the returned command's name |
| `Commands.EmptyRemainderResolvesNothing` | src/main.rs:144-162 | a text equal to the prefix resolves no command |
| `Commands.WhatCommandCaseInsensitive` | src/main.rs:144-147 | two remainders with the same lowercase form resolve to the same result |
| `Commands.LowercasedRemainderResolvesAlike` | src/main.rs:144-147 | a remainder resolves as its lowercased form does |
| `Commands.WhatCommandByName` | src/main.rs:142-158 | prefix, then any casing of a command's name, then anything, resolves to that command |
| `Dispatch.CommandPrefix` | src/main.rs:113 | the configured prefix if one is set, otherwise "!" |
| `Dispatch.AboutText` | src/main.rs:132 | the About text is "Version: <version> - Debug mode: " followed by exactly "On" when the build is a debug build and "Off" otherwise |
| `Dispatch.Respond` | src/main.rs:121-136 | Ping and About reply to the configured channel; Help and Quote abort; nothing else replies or aborts |
| `Dispatch.PmsgHandle` | src/main.rs:108-140 | no prefix means no reply; with the prefix, no reply exactly when no command resolves; every reply goes to the configured channel |
| `Dispatch.MessageProcessingHub` | src/main.rs:57-105 | only a chat message that starts with the prefix can lead to a reply or an abort |
| `Dispatch.NonChatEventsAreNoOps` | src/main.rs:58-104 | every non-chat event, including the catch-all, gives no reply and no failure |
| `Dispatch.NonCommandIsIgnored` | src/main.rs:113-139 | a chat message without the prefix gives no reply and no failure |
| `Dispatch.BarePrefixIsIgnored` | src/main.rs:113-119 | a chat message equal to the prefix gives no reply and no failure |
| `Dispatch.PingRepliesPong` | src/main.rs:122-125 | prefix + any casing of "ping" + anything gives exactly the reply "Pong!" to the configured channel |
| `Dispatch.AboutRepliesVersion` | src/main.rs:129-134 | prefix + any casing of "about" + anything gives exactly "Version: " + version + " - Debug mode: " + On/Off to the configured channel |
| `Dispatch.UnimplementedCommandsAbort` | src/main.rs:127-128 | prefix + any casing of "help" or "quote" aborts, which is distinct from the no-command outcome |
| `Dispatch.OutcomeByCommand` | src/main.rs:114-136 | a chat message whose lowercased remainder starts with a command's name gets that command's handler outcome |
| `Dispatch.DefaultPrefixPingExample` | src/main.rs:113-125 | with the default prefix (no `COMMAND_PREFIX` set), "!ping" gives exactly the reply "Pong!" to the configured channel |
| `Dispatch.DefaultPrefixPrefixMatchExample` | src/main.rs:113-125 | with the default prefix (no `COMMAND_PREFIX` set), "!pingxyz" also gives "Pong!": a name that only starts the text still matches |
| `Dispatch.DefaultPrefixUpperCaseExample` | src/main.rs:113-125 | with the default prefix (no `COMMAND_PREFIX` set), "!PING" also gives "Pong!": matching ignores case |
| `Dispatch.DefaultPrefixIgnoredExamples` | src/main.rs:113-119 | with the default prefix (no `COMMAND_PREFIX` set), "!xyz", "!" and "ping" give no reply and no failure |

## Left out

- Commands.Lower: models ASCII lowercasing only. Rust's `to_lowercase` follows full Unicode case mapping, which can also change the length of a text. The four command names are ASCII and lowercase either way. Under the full mapping only U+0130 (to "i" followed by U+0307) and U+212A (to "k") lowercase into ASCII letters. No command name contains "k" or ends in "i", so neither can complete a name, and every resolution outcome agrees with src/main.rs:147.
- Commands.WhatCommand: the source returns `Result<Option<BotCommand>>`, but the `Result` is always `Ok`. The model returns the `Option` alone. The `unwrap` of `strip_prefix` is modelled as a precondition. Its only caller checks `starts_with` with the same prefix first.
- Dispatch.Respond: the `unwrap` on the send result is not modelled, so a failed send is not an outcome. A reply is only the `Reply(channel, text)` value.
- The ingestion loop in `main` is concurrency, not logic, and is not modelled. That loop spawns a tokio task per event and awaits it.
- `get_client`, `client.join` and `client.say` call the `twitch_irc` network transport. They are not modelled.
- `COMMAND_PREFIX` becomes `Settings.prefix`, and `CommandPrefix` gives its `"!"` default. `TWITCH_CHANNEL` becomes `Settings.channel`. The `dotenv` load (line 28) and the credential reads in `get_client` (lines 205-206) are not modelled.
  - The source reads `COMMAND_PREFIX` twice, once at line 113 and once at line 145. The model uses one prefix for both reads.
- `shadow_rs` build metadata is replaced by the `version` and `debug` fields of `Settings`. This covers `PKG_VERSION` and `is_debug`.
- Logging is not modelled. That covers `setup_tracing`, `event!` and `println!`. None of it affects the outcome.
- Rust panics from `todo!()` are modelled as the `Abort` outcome. The model does not capture what happens after the panic. The per-event task fails, and the `unwrap` at src/main.rs:40 then ends the ingestion task too.
- Resolution takes the first match in declaration order, not the longest match. With the four current names at most one command can match (`AtMostOneMatch`).
