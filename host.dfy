/**
 * The parts of the game server the plugin reads, passed in as plain data:
 * players, code locks, the team registry (RelationshipManager), the
 * permission grants, and the PlayerUtil / PermissionUtil helpers over them.
 */
module Host {
  import opened Wrappers
  import opened Text

  /** Steam ids are 64-bit unsigned integers (ulong). */
  type UserId = n: nat | n < 0x1_0000_0000_0000_0000

  /** A BasePlayer: its id, display name and whether it is building-authorised. */
  datatype Player = Player(userId: UserId, displayName: string, buildingAuthed: bool)

  /** BasePlayer.UserIDString: the decimal rendering of the id. */
  function UserIdString(p: Player): string {
    Decimal(p.userId)
  }

  /**
   * A CodeLock: its code, its owner, its position already rendered by
   * MapHelper.PositionToString, and the short prefab name of the entity it
   * is attached to (None when GetParentEntity finds none).
   */
  datatype CodeLock = CodeLock(code: string, ownerId: UserId, location: string, parentPrefab: Option<string>)

  /** The team of each player that has one: FindPlayersTeam, with the team's member ids. */
  datatype TeamRegistry = TeamRegistry(teamOf: map<UserId, set<UserId>>)

  /**
   * What the plugin can see of the server: the relationship manager
   * (None when RelationshipManager.ServerInstance is null), the players
   * FindByID can resolve, BasePlayer.activePlayerList (entries may be null),
   * and the permissions granted to each UserIDString.
   */
  datatype Server = Server(
    relationships: Option<TeamRegistry>,
    players: map<UserId, Player>,
    activePlayers: seq<Option<Player>>,
    grants: map<string, set<string>>)

  const ADMIN := "suspiciouscodeunlock.admin"

  /** PlayerUtil.FindById. */
  function FindById(s: Server, id: UserId): (r: Option<Player>)
    ensures r.Some? <==> id in s.players
    ensures r.Some? ==> r.value == s.players[id]
  {
    if id in s.players then Some(s.players[id]) else None
  }

  /** PlayerUtil.GetTeam: the member set of the player's team, if there is a relationship manager and a team. */
  function GetTeam(s: Server, id: UserId): (r: Option<set<UserId>>)
    ensures s.relationships.None? ==> r.None?
    ensures r.Some? <==> s.relationships.Some? && id in s.relationships.value.teamOf
    ensures r.Some? ==> r.value == s.relationships.value.teamOf[id]
  {
    match s.relationships
    case None => None
    case Some(registry) => if id in registry.teamOf then Some(registry.teamOf[id]) else None
  }

  /** PlayerUtil.AreTeammates: the team of `first` exists and lists `second`. */
  function AreTeammates(s: Server, first: UserId, second: UserId): (r: bool)
    ensures r <==> s.relationships.Some? && first in s.relationships.value.teamOf
                   && second in s.relationships.value.teamOf[first]
  {
    var team := GetTeam(s, first);
    team.Some? && second in team.value
  }

  /** PermissionUtil.HasPermission: the grant is looked up by the player's UserIDString. */
  predicate HasPermission(s: Server, p: Player, permission: string) {
    UserIdString(p) in s.grants && permission in s.grants[UserIdString(p)]
  }

  /** Without a relationship manager nobody is anybody's teammate. */
  lemma NoRelationshipsNoTeammates(s: Server, first: UserId, second: UserId)
    requires s.relationships.None?
    ensures !AreTeammates(s, first, second)
  {
  }

  /**
   * AreTeammates consults only the first player's team, so it is not
   * symmetric: a registry that lists no team for the second player tells
   * them apart.
   */
  lemma AreTeammatesAsymmetric()
    ensures exists s: Server, a: UserId, b: UserId :: AreTeammates(s, a, b) && !AreTeammates(s, b, a)
  {
    var s := Server(Some(TeamRegistry(map[1 := {1, 2}])), map[], [], map[]);
    assert AreTeammates(s, 1, 2) && !AreTeammates(s, 2, 1);
  }

  /**
   * A registry in which every member of a team is mapped to that same team,
   * and every player is a member of their own team: the shape the server
   * keeps.
   */
  ghost predicate Consistent(r: TeamRegistry) {
    forall a :: a in r.teamOf ==>
      && a in r.teamOf[a]
      && forall b :: b in r.teamOf[a] ==> b in r.teamOf && r.teamOf[b] == r.teamOf[a]
  }

  /** Over a consistent registry the teammate relation is symmetric and transitive. */
  lemma TeammatesInConsistentRegistry(s: Server, a: UserId, b: UserId, c: UserId)
    requires s.relationships.Some? && Consistent(s.relationships.value)
    ensures AreTeammates(s, a, b) ==> AreTeammates(s, b, a)
    ensures AreTeammates(s, a, b) && AreTeammates(s, b, c) ==> AreTeammates(s, a, c)
  {
  }

  /**
   * HasPermission looks the grant up under the player's own UserIDString,
   * so granting or revoking anything for a player with another id leaves
   * the player's permissions as they were.
   */
  lemma GrantIsPerPlayer(s: Server, p: Player, q: Player, granted: set<string>, permission: string)
    requires p.userId != q.userId
    ensures HasPermission(s.(grants := s.grants[UserIdString(q) := granted]), p, permission)
        <==> HasPermission(s, p, permission)
  {
    if UserIdString(p) == UserIdString(q) {
      DecimalInjective(p.userId, q.userId);
    }
  }

  /** Two players with the same UserIDString are the same id, so a permission grant names one player. */
  lemma UserIdStringIdentifies(p: Player, q: Player)
    requires UserIdString(p) == UserIdString(q)
    ensures p.userId == q.userId
  {
    DecimalInjective(p.userId, q.userId);
  }
}
