/**
 * The plugin's two registered English messages and the lookup that fills
 * them (LoadDefaultMessages and GetMessage). Per-player languages are not
 * modelled: every player reads the English text.
 */
module Lang {
  import opened Wrappers
  import opened Text
  import opened Formatting

  const CHAT_UNLOCK_ALERT := "ChatUnlockAlert"
  const DISCORD_UNLOCK_ALERT := "DiscordUnlockAlert"

  /** "Suspicious code unlock: {0} unlocked a {1} at {2} owned by {3}.", written piecewise. */
  const CHAT_TEMPLATE: string :=
    "Suspicious code unlock: " + "{0}" + " unlocked a " + "{1}" + " at " + "{2}" + " owned by " + "{3}" + "."

  /** "Suspicious code unlock: {0} ({1}) unlocked a {2} at {3} owned by {4} ({5}).", written piecewise. */
  const DISCORD_TEMPLATE: string :=
    "Suspicious code unlock: " + "{0}" + " (" + "{1}" + ") unlocked a " + "{2}" + " at " + "{3}"
    + " owned by " + "{4}" + " (" + "{5}" + ")."

  /** The messages LoadDefaultMessages registers, by key. */
  const DEFAULT_MESSAGES: map<string, string> :=
    map[CHAT_UNLOCK_ALERT := CHAT_TEMPLATE, DISCORD_UNLOCK_ALERT := DISCORD_TEMPLATE]

  /**
   * The registered message for `key`, formatted only when arguments are
   * given: without arguments the template comes back with its placeholders,
   * and with the arguments the plugin passes each message comes back filled.
   */
  function GetMessage(key: string, args: seq<string>): (r: Option<string>)
    requires key in DEFAULT_MESSAGES
    ensures |args| == 0 ==> r == Some(DEFAULT_MESSAGES[key])
    ensures key == CHAT_UNLOCK_ALERT && |args| == 4
            ==> r == Some("Suspicious code unlock: " + args[0] + " unlocked a " + args[1] + " at " + args[2]
                          + " owned by " + args[3] + ".")
    ensures key == DISCORD_UNLOCK_ALERT && |args| == 6
            ==> r == Some("Suspicious code unlock: " + args[0] + " (" + args[1] + ") unlocked a " + args[2] + " at "
                          + args[3] + " owned by " + args[4] + " (" + args[5] + ").")
  {
    var message := DEFAULT_MESSAGES[key];
    if |args| > 0 then
      FilledMessages(args);
      Format(message, args)
    else Some(message)
  }

  /** Both templates, filled with argument lists of the lengths the plugin uses. */
  lemma FilledMessages(args: seq<string>)
    ensures |args| == 4 ==>
      Format(DEFAULT_MESSAGES[CHAT_UNLOCK_ALERT], args)
      == Some("Suspicious code unlock: " + args[0] + " unlocked a " + args[1] + " at " + args[2]
              + " owned by " + args[3] + ".")
    ensures |args| == 6 ==>
      Format(DEFAULT_MESSAGES[DISCORD_UNLOCK_ALERT], args)
      == Some("Suspicious code unlock: " + args[0] + " (" + args[1] + ") unlocked a " + args[2] + " at "
              + args[3] + " owned by " + args[4] + " (" + args[5] + ").")
  {
    if |args| == 4 {
      assert args == [args[0], args[1], args[2], args[3]];
      ChatMessage(args[0], args[1], args[2], args[3]);
    }
    if |args| == 6 {
      assert args == [args[0], args[1], args[2], args[3], args[4], args[5]];
      DiscordMessage(args[0], args[1], args[2], args[3], args[4], args[5]);
    }
  }

  /**
   * One step of filling a template: a brace-free literal, then the
   * placeholder `{k}`, are replaced by the literal and the k-th argument.
   */
  lemma FormatStep(literal: string, k: nat, rest: string, args: seq<string>)
    requires BraceFree(literal) && k < 10 && k < |args|
    ensures Format(literal + ("{" + [DigitChar(k)] + "}") + rest, args)
         == Prepend(literal + args[k], Format(rest, args))
  {
    var hole := "{" + [DigitChar(k)] + "}";
    assert literal + hole + rest == literal + (hole + rest);
    FormatBraceFree(literal, hole + rest, args);
    assert hole + rest == "{" + [DigitChar(k)] + "}" + rest;
    FormatPlaceholder(k, rest, args);
    match Format(rest, args)
    case None =>
    case Some(out) =>
      assert literal + (args[k] + out) == literal + args[k] + out;
  }

  lemma HoleLiterals()
    ensures "{0}" == "{" + [DigitChar(0)] + "}" && "{1}" == "{" + [DigitChar(1)] + "}"
    ensures "{2}" == "{" + [DigitChar(2)] + "}" && "{3}" == "{" + [DigitChar(3)] + "}"
    ensures "{4}" == "{" + [DigitChar(4)] + "}" && "{5}" == "{" + [DigitChar(5)] + "}"
  {
  }

  /**
   * The chat alert: actor name, entity name, location and owner name fill
   * the template in that order. The arguments may hold any text, braces
   * included, and the message never raises a FormatException.
   */
  lemma ChatMessage(actor: string, entity: string, location: string, owner: string)
    ensures Format(DEFAULT_MESSAGES[CHAT_UNLOCK_ALERT], [actor, entity, location, owner])
         == Some("Suspicious code unlock: " + actor + " unlocked a " + entity + " at " + location
                 + " owned by " + owner + ".")
  {
    var args := [actor, entity, location, owner];
    HoleLiterals();
    // the template, and the expected text, split after each placeholder
    var r3, t3 := " owned by " + "{3}" + ".", " owned by " + owner + ".";
    var r2, t2 := " at " + "{2}" + r3, " at " + location + t3;
    var r1, t1 := " unlocked a " + "{1}" + r2, " unlocked a " + entity + t2;
    assert CHAT_TEMPLATE == "Suspicious code unlock: " + "{0}" + r1;
    assert Format(r3, args) == Some(t3) by {
      FormatIdentity(".", args);
      FormatStep(" owned by ", 3, ".", args);
    }
    assert Format(r2, args) == Some(t2) by { FormatStep(" at ", 2, r3, args); }
    assert Format(r1, args) == Some(t1) by { FormatStep(" unlocked a ", 1, r2, args); }
    FormatStep("Suspicious code unlock: ", 0, r1, args);
    assert "Suspicious code unlock: " + actor + t1
        == "Suspicious code unlock: " + actor + " unlocked a " + entity + " at " + location + " owned by " + owner + ".";
    assert DEFAULT_MESSAGES[CHAT_UNLOCK_ALERT] == CHAT_TEMPLATE;
  }

  /** The Discord template after its third placeholder, filled with the last three arguments. */
  lemma DiscordTail(args: seq<string>)
    requires |args| == 6
    ensures Format(" at " + "{3}" + (" owned by " + "{4}" + (" (" + "{5}" + ").")), args)
         == Some(" at " + args[3] + (" owned by " + args[4] + (" (" + args[5] + ").")))
  {
    HoleLiterals();
    var r5, t5 := " (" + "{5}" + ").", " (" + args[5] + ").";
    var r4, t4 := " owned by " + "{4}" + r5, " owned by " + args[4] + t5;
    assert Format(r5, args) == Some(t5) by {
      FormatIdentity(").", args);
      FormatStep(" (", 5, ").", args);
    }
    assert Format(r4, args) == Some(t4) by { FormatStep(" owned by ", 4, r5, args); }
    FormatStep(" at ", 3, r4, args);
  }

  /**
   * The Discord alert: actor name, actor id, entity, location, owner name and
   * owner id fill the template in that order.
   */
  lemma DiscordMessage(actor: string, actorId: string, entity: string, location: string,
                       owner: string, ownerId: string)
    ensures Format(DEFAULT_MESSAGES[DISCORD_UNLOCK_ALERT], [actor, actorId, entity, location, owner, ownerId])
         == Some("Suspicious code unlock: " + actor + " (" + actorId + ") unlocked a " + entity + " at "
                 + location + " owned by " + owner + " (" + ownerId + ").")
  {
    var args := [actor, actorId, entity, location, owner, ownerId];
    HoleLiterals();
    var r3 := " at " + "{3}" + (" owned by " + "{4}" + (" (" + "{5}" + ")."));
    var t3 := " at " + location + (" owned by " + owner + (" (" + ownerId + ")."));
    var r2, t2 := ") unlocked a " + "{2}" + r3, ") unlocked a " + entity + t3;
    var r1, t1 := " (" + "{1}" + r2, " (" + actorId + t2;
    assert DISCORD_TEMPLATE == "Suspicious code unlock: " + "{0}" + r1;
    assert Format(r3, args) == Some(t3) by { DiscordTail(args); }
    assert Format(r2, args) == Some(t2) by { FormatStep(") unlocked a ", 2, r3, args); }
    assert Format(r1, args) == Some(t1) by { FormatStep(" (", 1, r2, args); }
    FormatStep("Suspicious code unlock: ", 0, r1, args);
    assert "Suspicious code unlock: " + actor + t1
        == "Suspicious code unlock: " + actor + " (" + actorId + ") unlocked a " + entity + " at "
           + location + " owned by " + owner + " (" + ownerId + ").";
    assert DEFAULT_MESSAGES[DISCORD_UNLOCK_ALERT] == DISCORD_TEMPLATE;
  }
}
