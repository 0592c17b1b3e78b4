/**
 * The plugin object: its configuration, which LoadConfig and UpdateConfig
 * replace, and the log of everything it sends or prints. Each hook appends
 * to the log the effects that module Alerts or Config describes as values.
 */
module Plugin {
  import opened Wrappers
  import opened Formatting
  import opened Lang
  import opened Host
  import opened Config
  import opened Alerts

  class SuspiciousCodeUnlock {
    var config: Configuration
    var log: seq<Effect>

    /** A fresh plugin holding the defaults (LoadDefaultConfig) and having done nothing yet. */
    constructor ()
      ensures config == DefaultConfig(PLUGIN_VERSION) && log == []
    {
      config := DefaultConfig(PLUGIN_VERSION);
      log := [];
    }

    /** LoadDefaultConfig. */
    method LoadDefaultConfig()
      modifies this
      ensures config == DefaultConfig(PLUGIN_VERSION) && log == old(log)
    {
      config := DefaultConfig(PLUGIN_VERSION);
    }

    /** SaveConfig: writes the current configuration back. */
    method SaveConfig()
      modifies this
      ensures config == old(config) && log == old(log) + [Saved(config)]
    {
      log := log + [Saved(config)];
    }

    /**
     * UpdateConfig: announce the update, reset a configuration older than
     * 1.0.0, report the versions, stamp the current version. The report reads
     * the version after the reset (see UpdateWarningsAsWritten).
     */
    method UpdateConfig()
      modifies this
      ensures config == Update(old(config), PLUGIN_VERSION)
      ensures log == old(log) + [Warning(UpdateWarningsAsWritten(old(config), PLUGIN_VERSION)[0]),
                                 Warning(UpdateWarningsAsWritten(old(config), PLUGIN_VERSION)[1])]
    {
      log := log + [Warning(UPDATING)];
      var defaultConfig := DefaultConfig(PLUGIN_VERSION);
      if Below(config.version, RESET_BELOW) {
        config := defaultConfig;
      }
      log := log + [Warning(UPDATED_FROM + VersionText(config.version) + " to " + PLUGIN_VERSION)];
      config := config.(version := Some(PLUGIN_VERSION));
    }

    /** LoadConfig, given what Config.ReadObject returned. */
    method LoadConfig(stored: Configuration)
      modifies this
      ensures config == Migrate(stored, PLUGIN_VERSION)
      ensures log == old(log)
                     + (if Below(stored.version, PLUGIN_VERSION)
                        then [Warning(UpdateWarningsAsWritten(stored, PLUGIN_VERSION)[0]),
                              Warning(UpdateWarningsAsWritten(stored, PLUGIN_VERSION)[1])]
                        else [])
                     + [Saved(config)]
    {
      config := stored;
      if Below(config.version, PLUGIN_VERSION) {
        UpdateConfig();
      }
      SaveConfig();
    }

    /** MessagePlayer: look the message up, format it and send it to the player. */
    method MessagePlayer(player: Player, key: string, args: seq<string>)
      requires key in DEFAULT_MESSAGES && GetMessage(key, args).Some?
      modifies this
      ensures config == old(config)
      ensures log == old(log) + [Reply(player, GetMessage(key, args).value)]
    {
      var message := GetMessage(key, args).value;
      log := log + [Reply(player, message)];
    }

    /** AlertOnlineAdmins: one chat alert to every active player holding the admin permission. */
    method AlertOnlineAdmins(s: Server, lock: CodeLock, actor: Player)
      modifies this
      ensures config == old(config)
      ensures log == old(log) + AdminAlerts(s, s.activePlayers, ChatText(s, lock, actor))
    {
      var location := lock.location;
      var unlockedEntityName := EntityName(lock);
      var owner := FindById(s, lock.ownerId);
      var ownerName := UNKNOWN;
      if owner.Some? {
        ownerName := owner.value.displayName;
      }
      var args := [actor.displayName, unlockedEntityName, location, ownerName];
      ghost var text := ChatText(s, lock, actor);
      assert GetMessage(CHAT_UNLOCK_ALERT, args) == Some(text);
      var active := s.activePlayers;
      for i := 0 to |active|
        invariant config == old(config)
        invariant log == old(log) + AdminAlerts(s, active[..i], text)
      {
        var admin := active[i];
        if admin.Some? && HasPermission(s, admin.value, ADMIN) {
          MessagePlayer(admin.value, CHAT_UNLOCK_ALERT, args);
        }
        assert active[..i + 1][..i] == active[..i];
      }
      assert active[..|active|] == active;
    }

    /** SendDiscordAlert: enqueue one JSON POST to the webhook, if one is configured. */
    method SendDiscordAlert(s: Server, lock: CodeLock, actor: Player)
      modifies this
      ensures config == old(config)
      ensures log == old(log) + DiscordAlert(config, s, lock, actor)
    {
      if IsNullOrEmpty(config.discordWebhookUrl) {
        return;
      }
      var location := lock.location;
      var unlockedEntityName := EntityName(lock);
      var owner := FindById(s, lock.ownerId);
      var ownerName := UNKNOWN;
      var ownerId := NO_OWNER_ID;
      if owner.Some? {
        ownerName := owner.value.displayName;
        ownerId := UserIdString(owner.value);
      }
      var messageTemplate := DEFAULT_MESSAGES[DISCORD_UNLOCK_ALERT];
      DiscordMessage(actor.displayName, UserIdString(actor), unlockedEntityName, location, ownerName, ownerId);
      var message := Format(messageTemplate,
                            [actor.displayName, UserIdString(actor), unlockedEntityName, location, ownerName, ownerId]).value;
      var postData := Payload(message);
      log := log + [Enqueue(WebRequest(config.discordWebhookUrl.value, postData, POST, JSON_HEADERS))];
    }

    /** The webhook request's completion callback. */
    method OnDiscordResponse(code: int, response: string)
      modifies this
      ensures config == old(config)
      ensures log == old(log) + match ResponseWarning(code, response)
                                case Some(w) => [Warning(w)]
                                case None => []
    {
      if code < 200 || code >= 300 {
        log := log + [Warning(ALERT_FAILED + Text.IntToString(code) + ", Response: " + response)];
      }
    }

    /** OnCodeEntered: the guard chain, then the chat alerts, then the webhook alert. */
    method OnCodeEntered(s: Server, codeLock: Option<CodeLock>, player: Option<Player>, enteredCode: string)
      modifies this
      ensures config == old(config)
      ensures log == old(log) + CodeEntered(config, s, codeLock, player, enteredCode)
    {
      if codeLock.None? || player.None? {
        return;
      }
      if codeLock.value.code != enteredCode {
        return;
      }
      if player.value.userId == codeLock.value.ownerId {
        return;
      }
      if AreTeammates(s, codeLock.value.ownerId, player.value.userId) {
        return;
      }
      if player.value.buildingAuthed {
        return;
      }
      AlertOnlineAdmins(s, codeLock.value, player.value);
      SendDiscordAlert(s, codeLock.value, player.value);
    }
  }
}
