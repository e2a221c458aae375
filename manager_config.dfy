/** The configuration records of the firewall manager and their defaults. */
module ManagerConfig {
  import opened Options
  import opened Networks

  /** KnownFirewallRuleIp: a named network that should be allowed. */
  datatype KnownRule = KnownRule(name: string, network: Network)

  /** KnownFirewallRuleFqdn: a name whose networks come from resolving a host name. */
  datatype KnownFqdn = KnownFqdn(name: string, fqdn: string)

  /** FirewallManagerConfig; a list that is null in the configuration is `None`. */
  datatype Config = Config(
    knownFqdns: Option<seq<KnownFqdn>>,
    knownNetworks: Option<seq<KnownRule>>,
    subscriptions: Option<seq<string>>,
    separator: Option<string>,
    cosmosForPostgreSql: bool,
    mongoCluster: bool,
    postgreSql: bool,
    sql: bool)

  const DefaultSeparator: string := "-"

  /** The record built from the three lists alone: every provider on, separator "-". */
  function DefaultConfig(
    knownFqdns: Option<seq<KnownFqdn>>,
    knownNetworks: Option<seq<KnownRule>>,
    subscriptions: Option<seq<string>>): Config
  {
    Config(knownFqdns, knownNetworks, subscriptions, Some(DefaultSeparator), true, true, true, true)
  }

  /** The separator in use: a null separator falls back to "-". */
  function Separator(config: Config): string {
    config.separator.GetOr(DefaultSeparator)
  }

  function KnownNetworks(config: Config): seq<KnownRule> {
    config.knownNetworks.GetOr([])
  }

  function KnownFqdns(config: Config): seq<KnownFqdn> {
    config.knownFqdns.GetOr([])
  }
}
