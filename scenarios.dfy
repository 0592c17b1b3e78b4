/**
 * Worked cases of the dispatcher: Eve (id 111) enters the right code on a
 * wooden door locked by Bob (id 222) while an admin, Ada (id 333), is online.
 */
module Scenarios {
  import opened Wrappers
  import opened Text
  import opened Host
  import opened Config
  import opened Alerts

  const EVE := Player(111, "Eve", false)
  const BOB := Player(222, "Bob", false)
  const ADA := Player(333, "Ada", false)
  const DOOR := CodeLock("1234", 222, "(120, 5, -40)", Some("door.hinged.wood"))
  const HOOK := "https://discord.example/hook"

  /** Ada holds the admin permission; Bob is resolvable unless `ownerOnline` is false. */
  function World(teams: map<UserId, set<UserId>>, ownerOnline: bool): Server {
    Server(Some(TeamRegistry(teams)),
           if ownerOnline then map[111 := EVE, 222 := BOB, 333 := ADA] else map[111 := EVE, 333 := ADA],
           [Some(EVE), None, Some(ADA)],
           map["333" := {ADMIN}])
  }

  lemma IdStrings()
    ensures UserIdString(EVE) == "111" && UserIdString(BOB) == "222" && UserIdString(ADA) == "333"
  {
    assert Decimal(11) == "11" && Decimal(22) == "22" && Decimal(33) == "33";
  }

  /** Of the three active entries only Ada's is an admin's. */
  lemma OnlyAdaIsAlerted(teams: map<UserId, set<UserId>>, ownerOnline: bool, text: string)
    ensures AdminAlerts(World(teams, ownerOnline), World(teams, ownerOnline).activePlayers, text) == [Reply(ADA, text)]
  {
    var s := World(teams, ownerOnline);
    IdStrings();
    assert !HasPermission(s, EVE, ADMIN);
    assert HasPermission(s, ADA, ADMIN);
    var active := s.activePlayers;
    assert active[..2][..1] == [Some(EVE)] && active[..2] == [Some(EVE), None] && active[..1][..0] == [];
    assert AdminAlerts(s, active[..1], text) == [];
    assert AdminAlerts(s, active[..2], text) == [];
  }

  /** The chat text: the four holes of the template filled with Eve, the prefab name, the position and Bob. */
  const EVE_CHAT := "Suspicious code unlock: " + "Eve" + " unlocked a " + "door.hinged.wood" + " at " + "(120, 5, -40)"
                    + " owned by " + "Bob" + "."

  /** The webhook text: as the chat text, with each player's id after the name. */
  const EVE_POST := "Suspicious code unlock: " + "Eve" + " (" + "111" + ") unlocked a " + "door.hinged.wood" + " at "
                    + "(120, 5, -40)" + " owned by " + "Bob" + " (" + "222" + ")."

  lemma EveAlerts()
    ensures Classify(World(map[], true), Some(DOOR), Some(EVE), "1234") == Suspicious
    ensures AdminAlerts(World(map[], true), World(map[], true).activePlayers, ChatText(World(map[], true), DOOR, EVE))
         == [Reply(ADA, EVE_CHAT)]
    ensures DiscordAlert(Configuration(Some("1.0.0"), Some(HOOK)), World(map[], true), DOOR, EVE)
         == [Enqueue(WebRequest(HOOK, Payload(EVE_POST), POST, JSON_HEADERS))]
  {
    var s := World(map[], true);
    OnlyAdaIsAlerted(map[], true, ChatText(s, DOOR, EVE));
    IdStrings();
  }

  /** The suspicious case: Ada gets the chat text, then one POST carries both ids. */
  lemma EveUnlocksBobsDoor()
    ensures CodeEntered(Configuration(Some("1.0.0"), Some(HOOK)), World(map[], true), Some(DOOR), Some(EVE), "1234")
         == [Reply(ADA, EVE_CHAT), Enqueue(WebRequest(HOOK, Payload(EVE_POST), POST, JSON_HEADERS))]
  {
    EveAlerts();
  }

  /** The same entry by a teammate of Bob's produces nothing at all. */
  lemma TeammateUnlocksBobsDoor()
    ensures CodeEntered(Configuration(Some("1.0.0"), Some(HOOK)), World(map[222 := {222, 111}], true),
                        Some(DOOR), Some(EVE), "1234") == []
  {
    assert AreTeammates(World(map[222 := {222, 111}], true), 222, 111);
  }

  /** Bob listing Eve is not enough when it is only Eve's team that names Bob: the owner's team decides. */
  lemma OnlyOwnersTeamCounts()
    ensures Classify(World(map[111 := {111, 222}], true), Some(DOOR), Some(EVE), "1234") == Suspicious
  {
  }

  /** The chat text when the owner cannot be resolved. */
  const UNKNOWN_CHAT := "Suspicious code unlock: " + "Eve" + " unlocked a " + "door.hinged.wood" + " at "
                        + "(120, 5, -40)" + " owned by " + "unknown" + "."

  /** The webhook text when the owner cannot be resolved: name "unknown", id "0". */
  const UNKNOWN_POST := "Suspicious code unlock: " + "Eve" + " (" + "111" + ") unlocked a " + "door.hinged.wood"
                        + " at " + "(120, 5, -40)" + " owned by " + "unknown" + " (" + "0" + ")."

  /** With Bob unresolvable the alert still goes out, naming "unknown" and id "0". */
  lemma UnknownOwner()
    ensures CodeEntered(Configuration(Some("1.0.0"), Some(HOOK)), World(map[], false), Some(DOOR), Some(EVE), "1234")
         == [Reply(ADA, UNKNOWN_CHAT), Enqueue(WebRequest(HOOK, Payload(UNKNOWN_POST), POST, JSON_HEADERS))]
  {
    var s := World(map[], false);
    var config := Configuration(Some("1.0.0"), Some(HOOK));
    assert Classify(s, Some(DOOR), Some(EVE), "1234") == Suspicious;
    assert CodeEntered(config, s, Some(DOOR), Some(EVE), "1234")
        == AdminAlerts(s, s.activePlayers, ChatText(s, DOOR, EVE)) + DiscordAlert(config, s, DOOR, EVE);
    OnlyAdaIsAlerted(map[], false, ChatText(s, DOOR, EVE));
    IdStrings();
  }

  /** A wrong code, like a missing webhook URL, keeps the webhook quiet. */
  lemma QuietCases()
    ensures CodeEntered(Configuration(Some("1.0.0"), Some(HOOK)), World(map[], true), Some(DOOR), Some(EVE), "4321") == []
    ensures var r := CodeEntered(Configuration(Some("1.0.0"), Some("")), World(map[], true), Some(DOOR), Some(EVE), "1234");
      forall e :: e in r ==> e.Reply?
  {
  }
}
