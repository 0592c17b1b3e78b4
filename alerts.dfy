/**
 * What the plugin does when a code is entered on a lock, as values: the
 * guard chain of OnCodeEntered, the chat alerts of AlertOnlineAdmins, the
 * webhook request of SendDiscordAlert, and the warning its completion
 * callback prints.
 */
module Alerts {
  import opened Wrappers
  import opened Text
  import opened Formatting
  import opened Lang
  import opened Host
  import opened Config

  datatype RequestMethod = DELETE | GET | PATCH | POST | PUT

  /** The anonymous object `{ content = message }`, serialised as the body `{"content": message}`. */
  datatype Payload = Payload(content: string)

  /** One webrequest.Enqueue call; the completion callback is ResponseWarning. */
  datatype WebRequest = WebRequest(url: string, body: Payload, verb: RequestMethod, headers: map<string, string>)

  /** One observable action of the plugin. */
  datatype Effect =
    | Reply(to: Player, text: string)   // SendReply to a player
    | Enqueue(request: WebRequest)      // webrequest.Enqueue
    | Warning(text: string)             // PrintWarning
    | Saved(config: Configuration)      // SaveConfig

  const JSON_HEADERS: map<string, string> := map["Content-Type" := "application/json"]
  const UNKNOWN := "unknown"
  const NO_OWNER_ID := "0"

  /** Which step of OnCodeEntered's guard chain returns, or that both alerts go out. */
  datatype Verdict = NoLockOrPlayer | WrongCode | OwnerEntered | TeammateEntered | BuildingAuthed | Suspicious

  /**
   * OnCodeEntered's guards: a code entry is suspicious exactly when the lock
   * and player exist, the code is the lock's code, and the player is not the
   * owner, not in the owner's team and not building-authorised.
   */
  function Classify(s: Server, lock: Option<CodeLock>, player: Option<Player>, enteredCode: string): (v: Verdict)
    ensures v == Suspicious <==>
      && lock.Some? && player.Some?
      && lock.value.code == enteredCode
      && player.value.userId != lock.value.ownerId
      && !AreTeammates(s, lock.value.ownerId, player.value.userId)
      && !player.value.buildingAuthed
    ensures v == NoLockOrPlayer <==> lock.None? || player.None?
    ensures v == WrongCode <==> lock.Some? && player.Some? && lock.value.code != enteredCode
  {
    if lock.None? || player.None? then NoLockOrPlayer
    else if lock.value.code != enteredCode then WrongCode
    else if player.value.userId == lock.value.ownerId then OwnerEntered
    else if AreTeammates(s, lock.value.ownerId, player.value.userId) then TeammateEntered
    else if player.value.buildingAuthed then BuildingAuthed
    else Suspicious
  }

  /** Each benign condition keeps the entry quiet, whatever the later conditions say. */
  lemma BenignEntries(s: Server, lock: CodeLock, player: Player)
    ensures player.userId == lock.ownerId ==> Classify(s, Some(lock), Some(player), lock.code) == OwnerEntered
    ensures player.userId != lock.ownerId && AreTeammates(s, lock.ownerId, player.userId)
            ==> Classify(s, Some(lock), Some(player), lock.code) == TeammateEntered
    ensures player.buildingAuthed ==> Classify(s, Some(lock), Some(player), lock.code) != Suspicious
  {
  }

  /** The owner's display name, or "unknown" when FindById cannot resolve the owner. */
  function OwnerName(s: Server, lock: CodeLock): (name: string)
    ensures lock.ownerId in s.players ==> name == s.players[lock.ownerId].displayName
    ensures lock.ownerId !in s.players ==> name == "unknown"
  {
    match FindById(s, lock.ownerId)
    case Some(owner) => owner.displayName
    case None => UNKNOWN
  }

  /**
   * The owner's UserIDString, or "0" when FindById cannot resolve the owner;
   * either way a decimal number, which is the lock's owner id when the owner resolves.
   */
  function OwnerIdText(s: Server, lock: CodeLock): (id: string)
    ensures lock.ownerId in s.players ==> id == UserIdString(s.players[lock.ownerId])
    ensures lock.ownerId !in s.players ==> id == "0"
    ensures |id| > 0 && AllDigits(id)
  {
    match FindById(s, lock.ownerId)
    case Some(owner) => UserIdString(owner)
    case None => NO_OWNER_ID
  }

  /** GetUnlockedEntityName: the parent's short prefab name, or "unknown" without a parent. */
  function EntityName(lock: CodeLock): (name: string)
    ensures lock.parentPrefab.Some? ==> name == lock.parentPrefab.value
    ensures lock.parentPrefab.None? ==> name == "unknown"
  {
    lock.parentPrefab.GetOr(UNKNOWN)
  }

  /** The chat text every admin receives. */
  function ChatText(s: Server, lock: CodeLock, actor: Player): (text: string)
    ensures text == "Suspicious code unlock: " + actor.displayName + " unlocked a " + EntityName(lock)
                    + " at " + lock.location + " owned by " + OwnerName(s, lock) + "."
  {
    GetMessage(CHAT_UNLOCK_ALERT, [actor.displayName, EntityName(lock), lock.location, OwnerName(s, lock)]).value
  }

  /** The text of the webhook message. */
  function DiscordText(s: Server, lock: CodeLock, actor: Player): (text: string)
    ensures text == "Suspicious code unlock: " + actor.displayName + " (" + UserIdString(actor) + ") unlocked a "
                    + EntityName(lock) + " at " + lock.location + " owned by " + OwnerName(s, lock)
                    + " (" + OwnerIdText(s, lock) + ")."
  {
    var args := [actor.displayName, UserIdString(actor), EntityName(lock), lock.location,
                 OwnerName(s, lock), OwnerIdText(s, lock)];
    DiscordMessage(args[0], args[1], args[2], args[3], args[4], args[5]);
    Format(DEFAULT_MESSAGES[DISCORD_UNLOCK_ALERT], args).value
  }

  /** An entry of the active-player list that is a player holding the admin permission. */
  predicate IsAlertRecipient(s: Server, entry: Option<Player>) {
    entry.Some? && HasPermission(s, entry.value, ADMIN)
  }

  /** The replies AlertOnlineAdmins sends, walking the active-player list in order. */
  function AdminAlerts(s: Server, active: seq<Option<Player>>, text: string): (r: seq<Effect>)
    ensures |r| <= |active|
    ensures forall e :: e in r ==> e.Reply? && e.text == text && Some(e.to) in active && HasPermission(s, e.to, ADMIN)
  {
    if active == [] then []
    else
      var last := active[|active| - 1];
      AdminAlerts(s, active[..|active| - 1], text) + (if IsAlertRecipient(s, last) then [Reply(last.value, text)] else [])
  }

  /**
   * A player gets as many alerts as times it is listed if it holds the admin
   * permission, and none otherwise; in particular an empty list sends nothing.
   */
  lemma {:induction false} AdminAlertsCount(s: Server, active: seq<Option<Player>>, text: string, p: Player)
    ensures multiset(AdminAlerts(s, active, text))[Reply(p, text)]
         == if HasPermission(s, p, ADMIN) then multiset(active)[Some(p)] else 0
  {
    if active != [] {
      var init, last := active[..|active| - 1], active[|active| - 1];
      assert active == init + [last];
      AdminAlertsCount(s, init, text, p);
    }
  }

  /** No player is listed twice. */
  predicate Distinct(active: seq<Option<Player>>) {
    forall i, j :: 0 <= i < j < |active| && active[i].Some? ==> active[i] != active[j]
  }

  lemma {:induction false} DistinctCount(active: seq<Option<Player>>, p: Player)
    requires Distinct(active)
    ensures multiset(active)[Some(p)] == if Some(p) in active then 1 else 0
  {
    if active != [] {
      var init, last := active[..|active| - 1], active[|active| - 1];
      assert active == init + [last];
      assert Distinct(init);
      DistinctCount(init, p);
      if last == Some(p) {
        assert Some(p) !in init by {
          forall i | 0 <= i < |init| ensures init[i] != Some(p) {
            assert active[i] != active[|active| - 1];
          }
        }
      }
    }
  }

  /** Over a list that names each player once, every listed admin gets exactly one alert and nobody else any. */
  lemma AdminAlertsOncePerAdmin(s: Server, active: seq<Option<Player>>, text: string, p: Player)
    requires Distinct(active)
    ensures multiset(AdminAlerts(s, active, text))[Reply(p, text)]
         == if Some(p) in active && HasPermission(s, p, ADMIN) then 1 else 0
  {
    AdminAlertsCount(s, active, text, p);
    DistinctCount(active, p);
  }

  /** string.IsNullOrEmpty: a string is used only when it is present and has at least one character. */
  predicate IsNullOrEmpty(s: Option<string>)
    ensures !IsNullOrEmpty(s) <==> s.Some? && |s.value| > 0
  {
    s.None? || s.value == ""
  }

  /**
   * SendDiscordAlert: nothing without a webhook URL, otherwise one POST of
   * `{"content": message}` to that URL with the JSON content type.
   */
  function DiscordAlert(config: Configuration, s: Server, lock: CodeLock, actor: Player): (r: seq<Effect>)
    ensures r == [] <==> IsNullOrEmpty(config.discordWebhookUrl)
    ensures r != [] ==> r == [Enqueue(WebRequest(config.discordWebhookUrl.value, Payload(
      "Suspicious code unlock: " + actor.displayName + " (" + UserIdString(actor) + ") unlocked a "
      + EntityName(lock) + " at " + lock.location + " owned by " + OwnerName(s, lock)
      + " (" + OwnerIdText(s, lock) + ")."), POST, JSON_HEADERS))]
  {
    if IsNullOrEmpty(config.discordWebhookUrl) then []
    else [Enqueue(WebRequest(config.discordWebhookUrl.value, Payload(DiscordText(s, lock, actor)), POST, JSON_HEADERS))]
  }

  const ALERT_FAILED := "Failed to send Discord alert: Code: "

  /** The webhook's completion callback: a warning exactly for a status outside 200..299. */
  function ResponseWarning(code: int, response: string): (w: Option<string>)
    ensures w.Some? <==> code < 200 || code >= 300
    ensures w.Some? ==> w.value == ALERT_FAILED + IntToString(code) + ", Response: " + response
  {
    if code < 200 || code >= 300 then Some(ALERT_FAILED + IntToString(code) + ", Response: " + response)
    else None
  }

  /** The status code can be read back from the warning, so a failure report is never ambiguous. */
  lemma ResponseWarningNamesStatus(code: int, response: string)
    requires code < 200 || code >= 300
    ensures var w := ResponseWarning(code, response).value;
      var digits := w[|ALERT_FAILED|..|ALERT_FAILED| + |IntToString(code)|];
      ((|digits| > 0 && digits[0] == '-' && AllDigits(digits[1..])) || AllDigits(digits)) && ParseInt(digits) == code
  {
    var w := ResponseWarning(code, response).value;
    assert w[|ALERT_FAILED|..|ALERT_FAILED| + |IntToString(code)|] == IntToString(code);
    IntToStringRoundTrip(code);
  }

  /** Everything OnCodeEntered does: the chat alerts then the webhook alert for a suspicious entry, else nothing. */
  function CodeEntered(config: Configuration, s: Server, lock: Option<CodeLock>, player: Option<Player>,
                       enteredCode: string): (r: seq<Effect>)
    ensures r != [] ==> Classify(s, lock, player, enteredCode) == Suspicious
  {
    if Classify(s, lock, player, enteredCode) == Suspicious then
      AdminAlerts(s, s.activePlayers, ChatText(s, lock.value, player.value))
      + DiscordAlert(config, s, lock.value, player.value)
    else []
  }

  /**
   * The effects of a code entry are replies, followed by at most one webhook
   * request, which is there exactly when the entry is suspicious and a
   * webhook URL is configured.
   */
  lemma CodeEnteredOrder(config: Configuration, s: Server, lock: Option<CodeLock>, player: Option<Player>,
                         enteredCode: string)
    ensures var r := CodeEntered(config, s, lock, player, enteredCode);
      && (forall i :: 0 <= i < |r| ==> r[i].Reply? || (i == |r| - 1 && r[i].Enqueue?))
      && ((exists e :: e in r && e.Enqueue?)
          <==> Classify(s, lock, player, enteredCode) == Suspicious && !IsNullOrEmpty(config.discordWebhookUrl))
  {
    var r := CodeEntered(config, s, lock, player, enteredCode);
    if Classify(s, lock, player, enteredCode) == Suspicious {
      var chat := AdminAlerts(s, s.activePlayers, ChatText(s, lock.value, player.value));
      var discord := DiscordAlert(config, s, lock.value, player.value);
      assert forall i :: 0 <= i < |chat| ==> chat[i] in chat;
      assert discord != [] ==> r[|r| - 1] == discord[0];
    }
  }

  /** For a suspicious entry every listed admin gets the chat text once per listing, and nobody else gets it. */
  lemma CodeEnteredAlertsAdmins(config: Configuration, s: Server, lock: CodeLock, player: Player,
                                enteredCode: string, p: Player)
    requires Classify(s, Some(lock), Some(player), enteredCode) == Suspicious
    ensures multiset(CodeEntered(config, s, Some(lock), Some(player), enteredCode))[Reply(p, ChatText(s, lock, player))]
         == if HasPermission(s, p, ADMIN) then multiset(s.activePlayers)[Some(p)] else 0
  {
    AdminAlertsCount(s, s.activePlayers, ChatText(s, lock, player), p);
  }

  /** A wrong code, a missing lock or a missing player produces no effect at all. */
  lemma NoEffectWithoutMatchingCode(config: Configuration, s: Server, lock: Option<CodeLock>, player: Option<Player>,
                                    enteredCode: string)
    requires lock.None? || player.None? || lock.value.code != enteredCode
    ensures CodeEntered(config, s, lock, player, enteredCode) == []
  {
  }
}
