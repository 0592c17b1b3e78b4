/**
 * The plugin's configuration and its version migration (LoadConfig,
 * UpdateConfig, GetDefaultConfig). string.Compare is modelled as ordinal
 * comparison, with a null version sorting before every string.
 */
module Config {
  import opened Wrappers
  import opened Text

  /** The plugin's own version, from its Info attribute. */
  const PLUGIN_VERSION := "1.0.0"

  /** Stored configurations older than this are replaced by the defaults. */
  const RESET_BELOW := "1.0.0"

  /** The stored settings; either field is None when the file holds null or lacks the key. */
  datatype Configuration = Configuration(version: Option<string>, discordWebhookUrl: Option<string>)

  /**
   * string.Compare(v, other) for a non-null `other`: a null version sorts
   * first, and a present one compares equal only to the same text.
   */
  function CompareVersion(v: Option<string>, other: string): (r: int)
    ensures -1 <= r <= 1
    ensures v.None? ==> r < 0
    ensures v.Some? ==> (r == 0 <==> v.value == other)
  {
    match v
    case None => -1
    case Some(s) => CompareOrdinalZeroIff(s, other); CompareOrdinal(s, other)
  }

  /** The version sorts strictly before `other`; never true of `other` itself, always of a null version. */
  predicate Below(v: Option<string>, other: string)
    ensures Below(v, other) ==> v != Some(other)
    ensures v.None? ==> Below(v, other)
  {
    CompareVersion(v, other) < 0
  }

  /** A version as C# string concatenation renders it: null contributes nothing. */
  function VersionText(v: Option<string>): string {
    v.GetOr("")
  }

  /** GetDefaultConfig: the current version and an empty webhook URL (remote alerts off). */
  function DefaultConfig(current: string): (c: Configuration)
    ensures c.version == Some(current) && c.discordWebhookUrl == Some("")
  {
    Configuration(Some(current), Some(""))
  }

  /** The configuration UpdateConfig leaves: older than 1.0.0 reset, then stamped with the current version. */
  function Update(c: Configuration, current: string): (u: Configuration)
    ensures u.version == Some(current)
    ensures Below(c.version, RESET_BELOW) ==> u == DefaultConfig(current)
    ensures !Below(c.version, RESET_BELOW) ==> u.discordWebhookUrl == c.discordWebhookUrl
  {
    var base := if Below(c.version, RESET_BELOW) then DefaultConfig(current) else c;
    base.(version := Some(current))
  }

  /**
   * The configuration LoadConfig keeps: migrated only when the stored
   * version is below the current one. Afterwards the version is never below
   * the current one, and it changes exactly when it was below.
   */
  function Migrate(stored: Configuration, current: string): (m: Configuration)
    ensures !Below(m.version, current)
    ensures Below(stored.version, current) <==> m.version == Some(current) != stored.version
  {
    if Below(stored.version, current) then Update(stored, current) else stored
  }

  /** Loading an already loaded configuration changes nothing. */
  lemma MigrateIdempotent(stored: Configuration, current: string)
    ensures Migrate(Migrate(stored, current), current) == Migrate(stored, current)
  {
    CompareOrdinalZeroIff(current, current);
  }

  /** The webhook URL survives loading unless the stored version is below both 1.0.0 and the current one. */
  lemma MigrateKeepsWebhook(stored: Configuration, current: string)
    ensures Migrate(stored, current).discordWebhookUrl
         == if Below(stored.version, current) && Below(stored.version, RESET_BELOW) then Some("")
            else stored.discordWebhookUrl
  {
  }

  /**
   * For the shipped version 1.0.0, loading either keeps the stored
   * configuration as it is or, when its version is missing or below 1.0.0,
   * replaces it by the defaults.
   */
  lemma MigrateAtPluginVersion(stored: Configuration)
    ensures Migrate(stored, PLUGIN_VERSION)
         == if Below(stored.version, RESET_BELOW) then DefaultConfig(PLUGIN_VERSION) else stored
  {
  }

  const UPDATING := "Config changes detected! Updating..."
  const UPDATED_FROM := "Config update complete! Updated from version "

  /**
   * The two warnings UpdateConfig prints, AS WRITTEN: the second one reads
   * the version after the configuration may already have been replaced by
   * the defaults.
   */
  function UpdateWarningsAsWritten(c: Configuration, current: string): (w: seq<string>)
    ensures |w| == 2 && w[0] == UPDATING
    ensures Below(c.version, RESET_BELOW) ==> w[1] == UPDATED_FROM + current + " to " + current
    ensures !Below(c.version, RESET_BELOW) ==> w == UpdateWarnings(c, current)
  {
    var base := if Below(c.version, RESET_BELOW) then DefaultConfig(current) else c;
    [UPDATING, UPDATED_FROM + VersionText(base.version) + " to " + current]
  }

  /** Two different old configurations get the same report, which names neither of their versions. */
  lemma UpdateWarningsAsWrittenLoseVersion()
    ensures UpdateWarningsAsWritten(Configuration(Some("0.9.0"), Some("")), PLUGIN_VERSION)
         == UpdateWarningsAsWritten(Configuration(None, Some("")), PLUGIN_VERSION)
         == [UPDATING, UPDATED_FROM + PLUGIN_VERSION + " to " + PLUGIN_VERSION]
  {
    assert CompareOrdinal("0.9.0", RESET_BELOW) == -1;
  }

  /** The two warnings UpdateConfig evidently means to print: the stored version, then the current one. */
  function UpdateWarnings(c: Configuration, current: string): (w: seq<string>)
    ensures |w| == 2 && w[0] == UPDATING
  {
    [UPDATING, UPDATED_FROM + VersionText(c.version) + " to " + current]
  }

  /** The corrected report tells stored versions apart. */
  lemma UpdateWarningsIdentifyVersion(c: Configuration, d: Configuration, current: string)
    requires UpdateWarnings(c, current) == UpdateWarnings(d, current)
    ensures VersionText(c.version) == VersionText(d.version)
  {
    var x, y := VersionText(c.version), VersionText(d.version);
    var m := UPDATED_FROM + x + " to " + current;
    assert UpdateWarnings(c, current)[1] == UpdateWarnings(d, current)[1];
    assert m == UPDATED_FROM + y + " to " + current;
    assert |x| == |y|;
    assert x == m[|UPDATED_FROM|..|UPDATED_FROM| + |x|];
    assert y == m[|UPDATED_FROM|..|UPDATED_FROM| + |y|];
  }
}
