/** The bot's command vocabulary and how a chat text is resolved to a command:
    strip the command prefix, lowercase the remainder, and take the first command,
    in declaration order, whose lowercase name starts the remainder. */
module Commands {

  datatype Option<+T> = None | Some(value: T)

  /** The closed set of commands, in declaration order. */
  datatype BotCommand = Ping | Help | Quote | About

  /** The order in which resolution tries the commands. */
  const AllCommands: seq<BotCommand> := [Ping, Help, Quote, About]

  /** The lowercase name a command is matched by (its variant name, lowercased). */
  function Name(c: BotCommand): (s: string)
    ensures |s| > 0 && Lower(s) == s
  {
    match c
    case Ping => "ping"
    case Help => "help"
    case Quote => "quote"
    case About => "about"
  }

  // ---------------------------------------------------------------------------
  // Strings

  /** `s` begins with `p`. */
  predicate StartsWith(s: string, p: string): (b: bool)
    ensures b <==> |p| <= |s| && forall i :: 0 <= i < |p| ==> s[i] == p[i]
  {
    |p| <= |s| && s[..|p|] == p
  }

  /** The text after `p` when `s` begins with `p`, and None otherwise. */
  function StripPrefix(s: string, p: string): (r: Option<string>)
    ensures r.Some? <==> StartsWith(s, p)
    ensures r.Some? ==> p + r.value == s
  {
    if StartsWith(s, p) then
      assert p + s[|p|..] == s[..|p|] + s[|p|..];
      Some(s[|p|..])
    else None
  }

  /** Stripping a prefix undoes prepending it. */
  lemma StripPrefixOfConcat(p: string, t: string)
    ensures StripPrefix(p + t, p) == Some(t)
  {
    assert (p + t)[..|p|] == p;
    assert (p + t)[|p|..] == t;
  }

  /** ASCII lowercase of one character. */
  function LowerChar(c: char): (d: char)
    ensures 'A' <= c <= 'Z' ==> d as int == c as int + 32
    ensures !('A' <= c <= 'Z') ==> d == c
    ensures !('A' <= d <= 'Z')
  {
    if 'A' <= c <= 'Z' then (c as int - 'A' as int + 'a' as int) as char else c
  }

  /** ASCII lowercase of a string, character by character. */
  function Lower(s: string): (r: string)
    ensures |r| == |s|
    ensures forall i :: 0 <= i < |s| ==> r[i] == LowerChar(s[i])
  {
    if s == [] then [] else [LowerChar(s[0])] + Lower(s[1..])
  }

  /** Lowercasing twice is lowercasing once. */
  lemma LowerIdempotent(s: string)
    ensures Lower(Lower(s)) == Lower(s)
  {
    var l := Lower(s);
    forall i | 0 <= i < |s| ensures Lower(l)[i] == l[i] {
      assert !('A' <= l[i] <= 'Z');
    }
  }

  /** Lowercasing distributes over concatenation. */
  lemma LowerConcat(s: string, t: string)
    ensures Lower(s + t) == Lower(s) + Lower(t)
  {
    var u := s + t;
    forall i | 0 <= i < |u| ensures Lower(u)[i] == (Lower(s) + Lower(t))[i] {
      if i < |s| { assert u[i] == s[i]; } else { assert u[i] == t[i - |s|]; }
    }
  }

  // ---------------------------------------------------------------------------
  // Resolution

  /** The first command of `cmds` whose name starts `s`, or None if there is none. */
  function FirstMatch(cmds: seq<BotCommand>, s: string): (r: Option<BotCommand>)
    ensures r.None? <==> forall c :: c in cmds ==> !StartsWith(s, Name(c))
    ensures r.Some? ==> r.value in cmds && StartsWith(s, Name(r.value))
  {
    if cmds == [] then None
    else if StartsWith(s, Name(cmds[0])) then Some(cmds[0])
    else
      assert forall i :: 1 <= i < |cmds| ==> cmds[i] == cmds[1..][i - 1];
      FirstMatch(cmds[1..], s)
  }

  /** Converse of FirstMatch's contract: the command at the least matching index is the one returned. */
  lemma {:induction false} FirstMatchIsLeast(cmds: seq<BotCommand>, s: string, i: nat)
    requires i < |cmds| && StartsWith(s, Name(cmds[i]))
    requires forall j :: 0 <= j < i ==> !StartsWith(s, Name(cmds[j]))
    ensures FirstMatch(cmds, s) == Some(cmds[i])
  {
    if i > 0 {
      assert !StartsWith(s, Name(cmds[0]));
      assert cmds[1..][i - 1] == cmds[i];
      FirstMatchIsLeast(cmds[1..], s, i - 1);
    }
  }

  /** Distinct commands have names with distinct first letters. */
  lemma NameInitialsDistinct(c: BotCommand, d: BotCommand)
    requires c != d
    ensures Name(c)[0] != Name(d)[0]
  {
  }

  /** No text starts with the names of two different commands, so at most one command
      ever matches and the declaration-order tie-break never has to choose. */
  lemma AtMostOneMatch(s: string, c: BotCommand, d: BotCommand)
    requires StartsWith(s, Name(c)) && StartsWith(s, Name(d))
    ensures c == d
  {
    if c != d {
      NameInitialsDistinct(c, d);
      assert false;
    }
  }

  /** Any text that starts with a command's name resolves to that command (prefix test, not equality). */
  lemma ResolvesByName(s: string, c: BotCommand)
    requires StartsWith(s, Name(c))
    ensures FirstMatch(AllCommands, s) == Some(c)
  {
    assert c in AllCommands;
    var r := FirstMatch(AllCommands, s);
    assert r.Some?;
    AtMostOneMatch(s, c, r.value);
  }

  /** what_command: strip the prefix (the caller has checked that it is there), lowercase
      the rest and resolve it against the commands in declaration order. */
  function WhatCommand(prefix: string, msg: string): (r: Option<BotCommand>)
    requires StartsWith(msg, prefix)
    ensures r.None? <==> forall c :: !StartsWith(Lower(msg[|prefix|..]), Name(c))
    ensures r.Some? ==> StartsWith(Lower(msg[|prefix|..]), Name(r.value))
  {
    var stripped := Lower(StripPrefix(msg, prefix).value);
    AllCommandsComplete();
    FirstMatch(AllCommands, stripped)
  }

  /** Every command is in the resolution order. */
  lemma AllCommandsComplete()
    ensures forall c :: c in AllCommands
  {
    forall c: BotCommand ensures c in AllCommands {
      match c
      case Ping => assert AllCommands[0] == c;
      case Help => assert AllCommands[1] == c;
      case Quote => assert AllCommands[2] == c;
      case About => assert AllCommands[3] == c;
    }
  }

  /** A message that is exactly the prefix resolves no command. */
  lemma EmptyRemainderResolvesNothing(prefix: string)
    ensures WhatCommand(prefix, prefix) == None
  {
    assert StartsWith(prefix, prefix);
    assert prefix[|prefix|..] == [];
  }

  /** Resolution ignores ASCII case: two remainders with the same lowercase form resolve alike. */
  lemma WhatCommandCaseInsensitive(prefix: string, s: string, t: string)
    requires Lower(s) == Lower(t)
    ensures StartsWith(prefix + s, prefix) && StartsWith(prefix + t, prefix)
    ensures WhatCommand(prefix, prefix + s) == WhatCommand(prefix, prefix + t)
  {
    StripPrefixOfConcat(prefix, s);
    StripPrefixOfConcat(prefix, t);
  }

  /** Lowercasing the remainder beforehand changes nothing: resolution only sees its lowercase form. */
  lemma LowercasedRemainderResolvesAlike(prefix: string, s: string)
    ensures StartsWith(prefix + s, prefix) && StartsWith(prefix + Lower(s), prefix)
    ensures WhatCommand(prefix, prefix + s) == WhatCommand(prefix, prefix + Lower(s))
  {
    LowerIdempotent(s);
    WhatCommandCaseInsensitive(prefix, s, Lower(s));
  }

  /** Prefix, then any casing of a command's name, then anything: resolves to that command. */
  // Not inductive: {:induction false} only keeps Dafny from adding induction hypotheses
  // over the three strings, which make this proof run out of resources.
  lemma {:induction false} WhatCommandByName(prefix: string, word: string, tail: string, c: BotCommand)
    requires Lower(word) == Name(c)
    ensures StartsWith(prefix + word + tail, prefix)
    ensures WhatCommand(prefix, prefix + word + tail) == Some(c)
  {
    var msg := prefix + (word + tail);
    assert prefix + word + tail == msg;
    StripPrefixOfConcat(prefix, word + tail);
    LowerConcat(word, tail);
    var stripped := Lower(word + tail);
    assert stripped[..|Name(c)|] == Name(c);
    ResolvesByName(stripped, c);
  }
}
