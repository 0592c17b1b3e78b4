# Suspicious Code Unlock, modelled in Dafny

Suspicious Code Unlock is an Oxide plugin for Rust. When a player types the correct code into a
code lock they do not own, it raises an alert. The player must also not be in the owner's team
and must not be building-authorised. The alert goes to every online player holding the
`suspiciouscodeunlock.admin` permission as a chat message. When a Discord webhook URL is
configured, the same event is also posted to that webhook as JSON. On load the plugin migrates
an older stored configuration to the current version.

This project models that behaviour and proves properties of it. Modules:

- `Wrappers` holds `Option`, the stand-in for a C# null reference.
- `Text` covers decimal rendering of ids and status codes, and ordinal string comparison.
- `Formatting` covers `string.Format` with `{k}` placeholders and `{{`/`}}` escapes. A malformed
  template or a missing argument gives `None`, where .NET would throw a `FormatException`.
- `Lang` holds the two registered English messages and `GetMessage`.
- `Host` passes the server in as plain data: players, code locks, the team registry and the
  permission grants. It also holds `PlayerUtil.FindById`, `GetTeam` and `AreTeammates`, and
  `PermissionUtil.HasPermission`.
- `Config` holds the configuration record and its version migration.
- `Alerts` describes what happens when a code is entered, as values:
  - the guard chain (`Classify`);
  - the chat alerts (`AdminAlerts`);
  - the webhook request (`DiscordAlert`);
  - the completion callback (`ResponseWarning`);
  - everything together (`CodeEntered`).
- `Plugin` holds the class `SuspiciousCodeUnlock`. Its fields are the configuration and a log of
  every observable effect: a reply to a player, an enqueued web request, a printed warning or a
  saved configuration. Each hook is a method whose postcondition ties the new log and
  configuration to the functions above. `AlertOnlineAdmins` keeps the source's loop over the
  active-player list.
- `Scenarios` works through concrete cases. Eve enters the right code on Bob's door while the
  admin Ada is online, and Eve is in turn a stranger, a teammate and the visitor of an owner who
  cannot be resolved.

## Model

| member | source | states |
|---|---|---|
| Alerts.Classify | SuspiciousCodeUnlock.cs:94-113 | An entry is suspicious exactly when the lock and the player exist, the code matches, and the player is not the owner, not the owner's teammate and not building-authorised. A missing lock or player, or a wrong code, is each characterised exactly. |
| Alerts.BenignEntries | SuspiciousCodeUnlock.cs:102-109 | The owner, a teammate of the owner and a building-authorised player each stop the chain at their own guard, whatever the later guards would say. |
| Alerts.NoEffectWithoutMatchingCode | SuspiciousCodeUnlock.cs:96-100 | With no lock, no player or a wrong code, no effect of any kind is produced. |
| Alerts.CodeEntered | SuspiciousCodeUnlock.cs:94-113 | Any effect at all implies that the entry is suspicious. |
| Alerts.CodeEnteredOrder | SuspiciousCodeUnlock.cs:111-112 | The effects are chat replies, then at most one webhook request, which comes last. The request is present exactly when the entry is suspicious and a webhook URL is set. |
| Alerts.CodeEnteredAlertsAdmins | SuspiciousCodeUnlock.cs:131-137 | For a suspicious entry, every player gets the chat text once per appearance in the active list if they hold the admin permission, and never otherwise. |
| Host.FindById | SuspiciousCodeUnlock.cs:223-226 | The lookup finds a player exactly when the id is known, and then returns that player. |
| Host.GetTeam | SuspiciousCodeUnlock.cs:228-234 | No relationship manager gives no team. Otherwise a team exists exactly when the registry maps the id to one, and it is that registered team. |
| Host.AreTeammates | SuspiciousCodeUnlock.cs:236-243 | True exactly when a relationship manager exists, the first player has a team, and that team lists the second player. |
| Host.NoRelationshipsNoTeammates | SuspiciousCodeUnlock.cs:228-242 | Without a relationship manager nobody is a teammate. |
| Host.AreTeammatesAsymmetric | SuspiciousCodeUnlock.cs:236-243 | Some registry makes a the teammate of b while b is not the teammate of a. Only the owner's team is consulted. |
| Host.TeammatesInConsistentRegistry | SuspiciousCodeUnlock.cs:236-243 | In a registry where every member maps to the same team, the relation is symmetric and transitive. |
| Host.HasPermission | SuspiciousCodeUnlock.cs:211-214 | No contract of its own; `GrantIsPerPlayer` states that the grant is looked up under the player's own UserIDString. |
| Host.GrantIsPerPlayer | SuspiciousCodeUnlock.cs:211-214 | A permission is looked up under the player's own UserIDString. Changing the grants of a player with another id leaves this player's permissions unchanged. |
| Host.UserIdStringIdentifies | SuspiciousCodeUnlock.cs:211-214 | Equal UserIDStrings mean equal ids, so a permission grant names one player. |
| Text.Decimal | SuspiciousCodeUnlock.cs:154 | The rendering of an id is a non-empty run of digits with no leading zero, except for 0 itself. |
| Text.DecimalRoundTrip | SuspiciousCodeUnlock.cs:213 | Reading an id's decimal rendering back gives the id. |
| Text.DecimalInjective | SuspiciousCodeUnlock.cs:213 | Distinct ids have distinct renderings. |
| Text.IntToStringRoundTrip | SuspiciousCodeUnlock.cs:169 | A status code's rendering is an optional minus sign and digits, and parsing it back gives the code. |
| Text.CompareOrdinal | SuspiciousCodeUnlock.cs:40 | The comparison result is -1, 0 or 1. |
| Text.CompareOrdinalZeroIff | SuspiciousCodeUnlock.cs:40 | Two versions compare equal exactly when they are the same string. |
| Text.CompareOrdinalAntisymmetric | SuspiciousCodeUnlock.cs:40 | Swapping the operands negates the result. |
| Text.CompareOrdinalTransitive | SuspiciousCodeUnlock.cs:62 | "Sorts before" is transitive. |
| Formatting.LeadingDigits | SuspiciousCodeUnlock.cs:270 | The placeholder index scanned is a maximal run of digits. |
| Formatting.Format | SuspiciousCodeUnlock.cs:270 | No contract of its own; what `string.Format` does with the templates is stated by `FormatBraceFree`, `FormatIdentity`, `FormatPlaceholder` and `FormatMissingArgument`. |
| Formatting.FormatBraceFree | SuspiciousCodeUnlock.cs:270 | Brace-free text at the front of a template passes to the output unchanged, before the formatted rest. |
| Formatting.FormatIdentity | SuspiciousCodeUnlock.cs:270 | A template without braces formats to itself. |
| Formatting.FormatPlaceholder | SuspiciousCodeUnlock.cs:270 | A single-digit `{k}` is replaced by the k-th argument verbatim, whatever that argument contains. That covers every placeholder of both templates. |
| Formatting.FormatMissingArgument | SuspiciousCodeUnlock.cs:270 | A placeholder beyond the argument list is a format error. |
| Lang.GetMessage | SuspiciousCodeUnlock.cs:265-273 | Without arguments the registered template comes back unformatted. With four arguments the chat message, and with six the Discord message, come back filled in argument order. |
| Lang.FilledMessages | SuspiciousCodeUnlock.cs:260-261 | Both registered templates format, for any argument texts of the lengths the plugin passes, to the templates with the placeholders replaced in order. |
| Lang.FormatStep | SuspiciousCodeUnlock.cs:260-270 | A literal followed by `{k}` formats to the literal followed by the k-th argument, before the formatted rest. |
| Lang.ChatMessage | SuspiciousCodeUnlock.cs:260-273 | The chat message is the template filled with actor name, entity, location and owner name, in that order. It always formats, whatever the four texts contain. |
| Lang.DiscordTail | SuspiciousCodeUnlock.cs:261 | The last three placeholders of the Discord template take the location, the owner name and the owner id. |
| Lang.DiscordMessage | SuspiciousCodeUnlock.cs:157-158 | The Discord message is the template filled with actor name, actor id, entity, location, owner name and owner id, in that order. |
| Alerts.EntityName | SuspiciousCodeUnlock.cs:181-189 | The entity name is the parent's short prefab name, or "unknown" when there is no parent. |
| Alerts.OwnerName | SuspiciousCodeUnlock.cs:124-129 | The owner name is the resolved owner's display name, or "unknown" when the owner cannot be found. |
| Alerts.OwnerIdText | SuspiciousCodeUnlock.cs:148-155 | The owner id is the resolved owner's UserIDString, or "0" when the owner cannot be found. Either way it is a non-empty decimal number. |
| Alerts.IsNullOrEmpty | SuspiciousCodeUnlock.cs:142 | A webhook URL counts as set exactly when it is present and has at least one character. |
| Alerts.ChatText | SuspiciousCodeUnlock.cs:121-135 | The chat text is the filled template, with the owner's name or "unknown" and the entity's prefab name or "unknown". |
| Alerts.DiscordText | SuspiciousCodeUnlock.cs:145-158 | The webhook text is the filled six-argument template, with the owner's name and id, or "unknown" and "0". |
| Alerts.AdminAlerts | SuspiciousCodeUnlock.cs:131-137 | The chat alerts number at most the active entries. Each is a reply carrying the chat text to a listed player holding the admin permission. |
| Alerts.AdminAlertsCount | SuspiciousCodeUnlock.cs:131-137 | A player receives as many alerts as their count in the active list if they hold the admin permission, and none otherwise. An empty list gives none. |
| Alerts.AdminAlertsOncePerAdmin | SuspiciousCodeUnlock.cs:131-137 | Over an active list naming each player once, each listed admin gets exactly one alert and every other player none. |
| Alerts.DiscordAlert | SuspiciousCodeUnlock.cs:140-175 | A null or empty webhook URL gives nothing. Otherwise exactly one POST goes to that URL, with body `{content: message}` carrying the filled text and the single header `Content-Type: application/json`. |
| Alerts.ResponseWarning | SuspiciousCodeUnlock.cs:166-170 | A warning exactly when the status is below 200 or at least 300, naming the code and the response. |
| Alerts.ResponseWarningNamesStatus | SuspiciousCodeUnlock.cs:169 | The status code can be read back from the warning text. |
| Config.DefaultConfig | SuspiciousCodeUnlock.cs:69-76 | The defaults carry the current version and an empty webhook URL. |
| Config.Update | SuspiciousCodeUnlock.cs:56-67 | After the update the version is the current one. A stored version below 1.0.0 resets to the defaults. Otherwise the webhook URL is kept. |
| Config.CompareVersion | SuspiciousCodeUnlock.cs:40 | The version comparison gives -1, 0 or 1. A null version sorts first, and a present version compares equal only to the same text. |
| Config.Below | SuspiciousCodeUnlock.cs:62 | A version is never below itself, and a null version is below everything. |
| Config.Migrate | SuspiciousCodeUnlock.cs:35-44 | After loading, the version is never below the current one. Loading changes it exactly when it was below. |
| Config.MigrateIdempotent | SuspiciousCodeUnlock.cs:35-44 | Loading an already loaded configuration changes nothing. |
| Config.MigrateKeepsWebhook | SuspiciousCodeUnlock.cs:35-67 | The webhook URL survives loading unless the stored version is below both the current version and 1.0.0. |
| Config.MigrateAtPluginVersion | SuspiciousCodeUnlock.cs:35-76 | At plugin version 1.0.0, loading keeps the stored configuration, or replaces it by the defaults when its version is null or below 1.0.0. |
| Config.UpdateWarningsAsWritten | SuspiciousCodeUnlock.cs:58-65 | As written, UpdateConfig prints two warnings, the first announcing the update. After a reset the second names the current version twice. Otherwise it agrees with the corrected report. |
| Config.UpdateWarningsAsWrittenLoseVersion | SuspiciousCodeUnlock.cs:62-65 | As written, stored versions "0.9.0" and null get the same report, "from 1.0.0 to 1.0.0". |
| Config.UpdateWarnings | SuspiciousCodeUnlock.cs:58-65 | The corrected report: the announcement, then a line naming the stored version, which `UpdateWarningsIdentifyVersion` pins down. |
| Config.UpdateWarningsIdentifyVersion | SuspiciousCodeUnlock.cs:65 | The corrected report determines the stored version's text. |
| Plugin.SuspiciousCodeUnlock.constructor | SuspiciousCodeUnlock.cs:46-76 | A fresh plugin holds the defaults and has done nothing. |
| Plugin.SuspiciousCodeUnlock.LoadDefaultConfig | SuspiciousCodeUnlock.cs:46-49 | The configuration becomes the defaults. The log is unchanged. |
| Plugin.SuspiciousCodeUnlock.SaveConfig | SuspiciousCodeUnlock.cs:51-54 | The current configuration is written. Nothing else changes. |
| Plugin.SuspiciousCodeUnlock.UpdateConfig | SuspiciousCodeUnlock.cs:56-67 | The configuration becomes `Update` of the old one. The two warnings of `UpdateWarningsAsWritten` are logged in order, the second built from the configuration after the reset. |
| Plugin.SuspiciousCodeUnlock.LoadConfig | SuspiciousCodeUnlock.cs:35-44 | The configuration becomes the migrated stored one. The as-written update warnings are logged only when the stored version is below the current one, and the save comes last. |
| Plugin.SuspiciousCodeUnlock.MessagePlayer | SuspiciousCodeUnlock.cs:265-279 | Exactly one reply to the player, with the formatted message. |
| Plugin.SuspiciousCodeUnlock.AlertOnlineAdmins | SuspiciousCodeUnlock.cs:119-138 | The loop appends exactly `AdminAlerts` of the active list, in list order. The configuration is unchanged. |
| Plugin.SuspiciousCodeUnlock.SendDiscordAlert | SuspiciousCodeUnlock.cs:140-175 | The log grows by exactly `DiscordAlert`. |
| Plugin.SuspiciousCodeUnlock.OnDiscordResponse | SuspiciousCodeUnlock.cs:166-170 | The log grows by the warning `ResponseWarning` gives, if any. |
| Plugin.SuspiciousCodeUnlock.OnCodeEntered | SuspiciousCodeUnlock.cs:94-113 | The log grows by exactly `CodeEntered`: the chat alerts, then the webhook request, for a suspicious entry, and nothing otherwise. |
| Scenarios.OnlyAdaIsAlerted | SuspiciousCodeUnlock.cs:131-137 | Of Eve, a null entry and Ada, only Ada, the admin, is alerted. |
| Scenarios.EveUnlocksBobsDoor | SuspiciousCodeUnlock.cs:94-175 | Eve opening Bob's door gives Ada the chat text, then one POST naming ids 111 and 222. |
| Scenarios.TeammateUnlocksBobsDoor | SuspiciousCodeUnlock.cs:105 | The same entry by a member of Bob's team produces nothing. |
| Scenarios.OnlyOwnersTeamCounts | SuspiciousCodeUnlock.cs:236-243 | Eve's team listing Bob does not make her Bob's teammate. |
| Scenarios.UnknownOwner | SuspiciousCodeUnlock.cs:148-155 | With the owner unresolved, Ada gets the chat text ending "owned by unknown.", then one POST goes out whose text ends "owned by unknown (0).". |
| Scenarios.QuietCases | SuspiciousCodeUnlock.cs:99-143 | A wrong code gives nothing. Without a webhook URL only chat replies go out. |

## Left out

- `Init`, `Unload` and `PermissionUtil.RegisterPermissions`: they only set or clear the static
  plugin reference and register the permission with the host.
- Host lookups are inputs, not calls:
  - `RelationshipManager.FindByID` is the `players` map;
  - `FindPlayersTeam` is the team registry;
  - `IsBuildingAuthed` is a flag on the player;
  - `permission.UserHasPermission` is the grants map;
  - `GetParentEntity().ShortPrefabName` is an optional prefab name on the lock.
- `MapHelper.PositionToString` formats a float vector. The location is an opaque string on the
  lock.
- Newtonsoft serialisation: the body is the record `Payload(content)`, not the JSON text it
  serialises to.
- The asynchronous `webrequest.Enqueue` transport: the request is recorded, and the callback is
  the separate method `OnDiscordResponse`, with no timing or threading.
- `SendReply` and `PrintWarning` are entries appended to the effect log.
- Per-player languages in `lang.GetMessage`: every player reads the English messages registered
  by `LoadDefaultMessages`, which are constants here.
- `string.Format` is modelled for `{k}` with any decimal index k and for the `{{` and `}}`
  escapes. .NET rejects indices of 1,000,000 and up; the model has no such cap, and an index at
  or beyond the argument count is an error in both. Alignment (`{0,5}`), format specifiers
  (`{0:x}`) and spaces after the index (`{0 }`) are accepted by .NET but are format errors here.
  The plugin's templates use none of them.
- Text.CompareOrdinal: `string.Compare` is culture-sensitive. The model compares ordinally,
  with a null version below every string. For version strings made of digits and dots, both
  orders agree.
- Config file I/O (`Config.ReadObject`, `WriteObject`): `LoadConfig` takes the stored record as a
  parameter, and saving is a log entry.
- A null lock code or null entered code: both codes are strings; only a null lock or player is
  modelled.
- Plugin.SuspiciousCodeUnlock.MessagePlayer: requires that the message formats. Where it does
  not, .NET throws a `FormatException`, which the model does not follow. Both alert messages
  always format (`Lang.ChatMessage`, `Lang.DiscordMessage`).
- UserId is an unsigned 64-bit id; no arithmetic is done on it, so no wrap-around arises.

## Findings

| source | as written | input that shows it | evidently intended | confidence | as-written member | corrected member |
|---|---|---|---|---|---|---|
| SuspiciousCodeUnlock.cs:62-65 | The "Updated from version" warning reads `_config.Version` after `_config` may have been replaced by the defaults. | A stored configuration with version "0.9.0", or with a null version, reports "Updated from version 1.0.0 to 1.0.0". | The report names the stored version, e.g. "from version 0.9.0 to 1.0.0". | medium, not executed | Config.UpdateWarningsAsWritten, Config.UpdateWarningsAsWrittenLoseVersion | Config.UpdateWarnings, Config.UpdateWarningsIdentifyVersion |
