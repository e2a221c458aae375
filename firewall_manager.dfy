/**
 * The firewall manager: it turns the configuration into the list of known
 * rules (resolving host names into host routes and supernets), refuses a list
 * with duplicate names, and runs the enabled providers over every selected
 * subscription.
 */
module FirewallManager {
  import opened Options
  import opened Text
  import opened Networks
  import opened ManagerConfig
  import opened Sequences
  import opened FirewallSync
  import CosmosForPostgreSqlProvider
  import MongoClusterProvider
  import PostgreSqlProvider
  import SqlProvider

  // ---------------------------------------------------------------------------
  // Resolving host names
  // ---------------------------------------------------------------------------

  /** The networks of one resolved address list: host routes, then their supernet reduction. */
  method GetNetworks(addressList: seq<Address>, lib: IpLibrary) returns (reduced: seq<Network>)
    ensures reduced == lib.supernet(HostRoutes(addressList))
  {
    var networks: seq<Network> := [];
    for i := 0 to |addressList|
      invariant |networks| == i
      invariant forall j :: 0 <= j < i ==> networks[j] == HostRoute(addressList[j])
    {
      var address := addressList[i];
      var addr := if IsIPv4MappedToIPv6(address) then MapToIPv4(address) else address;
      var prefix := if addr.IPv4? then 32 else 128;
      networks := networks + [Network(addr, prefix)];
    }
    assert networks == HostRoutes(addressList);
    reduced := lib.supernet(networks);
  }

  /**
   * What resolving a host name yields: `None` when the lookup fails with a
   * socket error, otherwise the networks of the address list it returned.
   * The resolver is the parameter `dns`.
   */
  function ResolvedNetworks(dns: string -> Option<seq<Address>>, lib: IpLibrary, fqdn: string): Option<seq<Network>> {
    match dns(fqdn)
    case None => None
    case Some(addresses) => Some(lib.supernet(HostRoutes(addresses)))
  }

  /** One lookup followed by `GetNetworks`; a failed lookup gives `None`. */
  method GetNetworksAsync(dns: string -> Option<seq<Address>>, lib: IpLibrary, fqdn: string) returns (networks: Option<seq<Network>>)
    ensures networks.None? <==> dns(fqdn).None?
    ensures networks.Some? ==> networks.value == lib.supernet(HostRoutes(dns(fqdn).value))
    ensures networks == ResolvedNetworks(dns, lib, fqdn)
  {
    var entry := dns(fqdn);
    if entry.None? {
      return None;
    }
    var reduced := GetNetworks(entry.value, lib);
    networks := Some(reduced);
  }

  // ---------------------------------------------------------------------------
  // The known rules
  // ---------------------------------------------------------------------------

  /** The rules of a name with several networks: the i-th is called name + separator + i. */
  function Suffixed(name: string, separator: string, networks: seq<Network>): seq<KnownRule> {
    seq(|networks|, i requires 0 <= i < |networks| => KnownRule(name + separator + DecimalString(i), networks[i]))
  }

  /** The rules a resolved name contributes: a single network keeps the bare name. */
  function Entries(name: string, separator: string, networks: seq<Network>): seq<KnownRule> {
    if |networks| == 1 then [KnownRule(name, networks[0])] else Suffixed(name, separator, networks)
  }

  /** The rules one configured host name contributes; an unresolvable one contributes none. */
  function Contribution(dns: string -> Option<seq<Address>>, lib: IpLibrary, separator: string, entry: KnownFqdn): seq<KnownRule> {
    match ResolvedNetworks(dns, lib, entry.fqdn)
    case None => []
    case Some(networks) => Entries(entry.name, separator, networks)
  }

  function ContributionOf(dns: string -> Option<seq<Address>>, lib: IpLibrary, separator: string): KnownFqdn -> seq<KnownRule> {
    entry => Contribution(dns, lib, separator, entry)
  }

  /** The rules of all configured host names, in configuration order. */
  function FqdnRules(fqdns: seq<KnownFqdn>, dns: string -> Option<seq<Address>>, lib: IpLibrary, separator: string): seq<KnownRule> {
    FlatMap(fqdns, ContributionOf(dns, lib, separator))
  }

  /** The known rules: the configured networks first, then the rules of the host names. */
  function KnownRules(config: Config, dns: string -> Option<seq<Address>>, lib: IpLibrary): seq<KnownRule> {
    KnownNetworks(config) + FqdnRules(KnownFqdns(config), dns, lib, Separator(config))
  }

  /** The known rules, built the way the manager builds them: a loop over host names with an inner loop over networks. */
  method GetKnownRulesAsync(config: Config, dns: string -> Option<seq<Address>>, lib: IpLibrary) returns (results: seq<KnownRule>)
    ensures results == KnownRules(config, dns, lib)
  {
    results := KnownNetworks(config);
    var separator := Separator(config);
    var fqdns := KnownFqdns(config);
    for k := 0 to |fqdns|
      invariant results == KnownNetworks(config) + FqdnRules(fqdns[..k], dns, lib, separator)
    {
      var entry := fqdns[k];
      assert fqdns[..k + 1] == fqdns[..k] + [entry];
      FlatMapSnoc(fqdns[..k], entry, ContributionOf(dns, lib, separator));
      var networks := GetNetworksAsync(dns, lib, entry.fqdn);
      if networks.None? {
        continue;
      }
      var nets := networks.value;
      if |nets| == 1 {
        results := results + [KnownRule(entry.name, nets[0])];
        continue;
      }
      results := AppendSuffixed(results, entry.name, separator, nets);
    }
    assert fqdns[..|fqdns|] == fqdns;
  }

  /** The inner loop of `GetKnownRulesAsync`: one rule per network, named with the separator and the index. */
  method AppendSuffixed(results: seq<KnownRule>, name: string, separator: string, networks: seq<Network>)
    returns (extended: seq<KnownRule>)
    ensures extended == results + Suffixed(name, separator, networks)
  {
    extended := results;
    for index := 0 to |networks|
      invariant extended == results + Suffixed(name, separator, networks)[..index]
    {
      assert Suffixed(name, separator, networks)[..index + 1]
          == Suffixed(name, separator, networks)[..index] + [KnownRule(name + separator + DecimalString(index), networks[index])];
      extended := extended + [KnownRule(name + separator + DecimalString(index), networks[index])];
    }
    assert Suffixed(name, separator, networks)[..|networks|] == Suffixed(name, separator, networks);
  }

  /** A host name placed among others contributes its own rules at its own place. */
  lemma FqdnRulesSplit(before: seq<KnownFqdn>, entry: KnownFqdn, after: seq<KnownFqdn>,
                       dns: string -> Option<seq<Address>>, lib: IpLibrary, separator: string)
    ensures FqdnRules(before + [entry] + after, dns, lib, separator)
         == FqdnRules(before, dns, lib, separator) + Contribution(dns, lib, separator, entry) + FqdnRules(after, dns, lib, separator)
  {
    var f := ContributionOf(dns, lib, separator);
    FlatMapAppend(before + [entry], after, f);
    FlatMapSnoc(before, entry, f);
  }

  /** A host name that does not resolve adds no rule. */
  lemma UnresolvedAddsNothing(before: seq<KnownFqdn>, entry: KnownFqdn, after: seq<KnownFqdn>,
                              dns: string -> Option<seq<Address>>, lib: IpLibrary, separator: string)
    requires dns(entry.fqdn).None?
    ensures FqdnRules(before + [entry] + after, dns, lib, separator)
         == FqdnRules(before, dns, lib, separator) + FqdnRules(after, dns, lib, separator)
  {
    FqdnRulesSplit(before, entry, after, dns, lib, separator);
  }

  /** A host name that reduces to a single network adds one rule under its bare name. */
  lemma SingleNetworkKeepsName(before: seq<KnownFqdn>, entry: KnownFqdn, after: seq<KnownFqdn>,
                               dns: string -> Option<seq<Address>>, lib: IpLibrary, separator: string, network: Network)
    requires ResolvedNetworks(dns, lib, entry.fqdn) == Some([network])
    ensures FqdnRules(before + [entry] + after, dns, lib, separator)
         == FqdnRules(before, dns, lib, separator) + [KnownRule(entry.name, network)] + FqdnRules(after, dns, lib, separator)
  {
    FqdnRulesSplit(before, entry, after, dns, lib, separator);
  }

  /**
   * A host name that reduces to any other number of networks adds one rule
   * per network, in order, named with the separator and the index; the names
   * are pairwise distinct.
   */
  lemma SeveralNetworksSuffixed(before: seq<KnownFqdn>, entry: KnownFqdn, after: seq<KnownFqdn>,
                                dns: string -> Option<seq<Address>>, lib: IpLibrary, separator: string, networks: seq<Network>)
    requires ResolvedNetworks(dns, lib, entry.fqdn) == Some(networks) && |networks| != 1
    ensures FqdnRules(before + [entry] + after, dns, lib, separator)
         == FqdnRules(before, dns, lib, separator) + Suffixed(entry.name, separator, networks) + FqdnRules(after, dns, lib, separator)
    ensures |Suffixed(entry.name, separator, networks)| == |networks|
    ensures forall i :: 0 <= i < |networks| ==>
              Suffixed(entry.name, separator, networks)[i] == KnownRule(entry.name + separator + DecimalString(i), networks[i])
    ensures forall i, j :: 0 <= i < j < |networks| ==>
              Suffixed(entry.name, separator, networks)[i].name != Suffixed(entry.name, separator, networks)[j].name
  {
    FqdnRulesSplit(before, entry, after, dns, lib, separator);
    var rules := Suffixed(entry.name, separator, networks);
    forall i, j | 0 <= i < j < |networks|
      ensures rules[i].name != rules[j].name
    {
      var prefix := entry.name + separator;
      assert rules[i].name[|prefix|..] == DecimalString(i);
      assert rules[j].name[|prefix|..] == DecimalString(j);
      assert DecimalValue(DecimalString(i)) != DecimalValue(DecimalString(j));
    }
  }

  /** The number of networks a host name reduces to; none when it does not resolve. */
  function ResolvedCount(dns: string -> Option<seq<Address>>, lib: IpLibrary, entry: KnownFqdn): nat {
    match ResolvedNetworks(dns, lib, entry.fqdn)
    case None => 0
    case Some(networks) => |networks|
  }

  /** The total number of networks the host names reduce to. */
  function TotalResolved(fqdns: seq<KnownFqdn>, dns: string -> Option<seq<Address>>, lib: IpLibrary): nat {
    if fqdns == [] then 0 else TotalResolved(fqdns[..|fqdns| - 1], dns, lib) + ResolvedCount(dns, lib, fqdns[|fqdns| - 1])
  }

  /** One rule per configured network and one per network a host name reduces to. */
  lemma {:induction false} FqdnRulesLength(fqdns: seq<KnownFqdn>, dns: string -> Option<seq<Address>>, lib: IpLibrary, separator: string)
    ensures |FqdnRules(fqdns, dns, lib, separator)| == TotalResolved(fqdns, dns, lib)
    decreases |fqdns|
  {
    if fqdns != [] {
      var init, last := fqdns[..|fqdns| - 1], fqdns[|fqdns| - 1];
      assert fqdns == init + [last];
      FlatMapSnoc(init, last, ContributionOf(dns, lib, separator));
      FqdnRulesLength(init, dns, lib, separator);
    }
  }

  lemma KnownRulesLength(config: Config, dns: string -> Option<seq<Address>>, lib: IpLibrary)
    ensures |KnownRules(config, dns, lib)| == |KnownNetworks(config)| + TotalResolved(KnownFqdns(config), dns, lib)
    ensures KnownRules(config, dns, lib)[..|KnownNetworks(config)|] == KnownNetworks(config)
  {
    FqdnRulesLength(KnownFqdns(config), dns, lib, Separator(config));
  }

  function Names(known: seq<KnownRule>): seq<string> {
    seq(|known|, i requires 0 <= i < |known| => known[i].name)
  }

  /** The configuration of the manager's own test: two networks, two host names, separator "_". */
  function ScenarioConfig(home: Network, office: Network): Config {
    Config(Some([KnownFqdn("MAX_HOME", "maxwellweru.com"), KnownFqdn("YOUR_HOME", "api64.ipify.org")]),
           Some([KnownRule("MY_HOME", home), KnownRule("WAIYAKI_WAY", office)]),
           None, Some("_"), true, true, true, true)
  }

  /** The names of a concatenation are the concatenated names. */
  lemma NamesAppend(a: seq<KnownRule>, b: seq<KnownRule>)
    ensures Names(a + b) == Names(a) + Names(b)
  {
  }

  /** Four networks under one name are numbered from 0 to 3. */
  lemma FourSuffixedNames(name: string, separator: string, networks: seq<Network>)
    requires |networks| == 4
    ensures Names(Suffixed(name, separator, networks))
         == [name + separator + "0", name + separator + "1", name + separator + "2", name + separator + "3"]
  {
    assert DecimalString(0) == "0" && DecimalString(1) == "1" && DecimalString(2) == "2" && DecimalString(3) == "3";
  }

  /**
   * The scenario of the manager's own test: when the first host name reduces
   * to one network and the second to four, seven rules result, under these
   * names and with these networks.
   */
  lemma KnownRulesScenario(dns: string -> Option<seq<Address>>, lib: IpLibrary,
                           home: Network, office: Network, resolvedHome: Network, fourNetworks: seq<Network>)
    requires ResolvedNetworks(dns, lib, "maxwellweru.com") == Some([resolvedHome])
    requires ResolvedNetworks(dns, lib, "api64.ipify.org") == Some(fourNetworks) && |fourNetworks| == 4
    ensures KnownRules(ScenarioConfig(home, office), dns, lib)
         == [KnownRule("MY_HOME", home), KnownRule("WAIYAKI_WAY", office), KnownRule("MAX_HOME", resolvedHome)]
            + Suffixed("YOUR_HOME", "_", fourNetworks)
    ensures Names(KnownRules(ScenarioConfig(home, office), dns, lib))
         == ["MY_HOME", "WAIYAKI_WAY", "MAX_HOME", "YOUR_HOME_0", "YOUR_HOME_1", "YOUR_HOME_2", "YOUR_HOME_3"]
  {
    var f := ContributionOf(dns, lib, "_");
    var max, your := KnownFqdn("MAX_HOME", "maxwellweru.com"), KnownFqdn("YOUR_HOME", "api64.ipify.org");
    FqdnRulesSplit([max], your, [], dns, lib, "_");
    FqdnRulesSplit([], max, [], dns, lib, "_");
    assert [max] + [your] + [] == [max, your];
    assert [] + [max] + [] == [max];
    var head := [KnownRule("MY_HOME", home), KnownRule("WAIYAKI_WAY", office), KnownRule("MAX_HOME", resolvedHome)];
    var suffixed := Suffixed("YOUR_HOME", "_", fourNetworks);
    assert KnownRules(ScenarioConfig(home, office), dns, lib) == head + suffixed;
    NamesAppend(head, suffixed);
    FourSuffixedNames("YOUR_HOME", "_", fourNetworks);
    assert Names(head) == ["MY_HOME", "WAIYAKI_WAY", "MAX_HOME"];
    assert "YOUR_HOME" + "_" + "0" == "YOUR_HOME_0";
    assert "YOUR_HOME" + "_" + "1" == "YOUR_HOME_1";
    assert "YOUR_HOME" + "_" + "2" == "YOUR_HOME_2";
    assert "YOUR_HOME" + "_" + "3" == "YOUR_HOME_3";
  }

  // ---------------------------------------------------------------------------
  // Duplicate names
  // ---------------------------------------------------------------------------

  /** How often a name occurs in a list. */
  function Occurrences(names: seq<string>, name: string): nat {
    if names == [] then 0
    else Occurrences(names[..|names| - 1], name) + (if names[|names| - 1] == name then 1 else 0)
  }

  /** The distinct names of a list in order of first occurrence, the keys of a grouping by name. */
  function GroupKeys(names: seq<string>): seq<string> {
    if names == [] then []
    else
      var keys := GroupKeys(names[..|names| - 1]);
      if names[|names| - 1] in keys then keys else keys + [names[|names| - 1]]
  }

  function KeyIfRepeated(names: seq<string>): string -> seq<string> {
    key => if Occurrences(names, key) > 1 then [key] else []
  }

  /** The repeated keys of a grouping by name: the names that occur more than once, in order of first occurrence. */
  function RepeatedKeys(names: seq<string>): seq<string> {
    FlatMap(GroupKeys(names), KeyIfRepeated(names))
  }

  /**
   * The duplicate names of a known list (`GroupBy` on the name, groups with
   * more than one element, their keys): exactly the names two known rules
   * carry, each reported once.
   */
  function DuplicateNames(known: seq<KnownRule>): (duplicates: seq<string>)
    ensures forall name :: name in duplicates <==> NameShared(known, name)
    ensures forall i, j :: 0 <= i < j < |duplicates| ==> duplicates[i] != duplicates[j]
  {
    var names := Names(known);
    RepeatedKeysMembers(names);
    RepeatedKeysDistinct(names);
    assert forall name :: NameShared(known, name) <==>
             exists i, j :: 0 <= i < j < |names| && names[i] == name && names[j] == name by {
      forall name | NameShared(known, name)
        ensures exists i, j :: 0 <= i < j < |names| && names[i] == name && names[j] == name
      {
        var i, j :| 0 <= i < j < |known| && known[i].name == name && known[j].name == name;
        assert names[i] == name && names[j] == name;
      }
    }
    RepeatedKeys(names)
  }

  lemma {:induction false} GroupKeysMembers(names: seq<string>, name: string)
    ensures name in GroupKeys(names) <==> name in names
    decreases |names|
  {
    if names != [] {
      var init := names[..|names| - 1];
      assert names == init + [names[|names| - 1]];
      GroupKeysMembers(init, name);
    }
  }

  /** A grouping has one key per distinct name. */
  lemma {:induction false} GroupKeysDistinct(names: seq<string>)
    ensures forall i, j :: 0 <= i < j < |GroupKeys(names)| ==> GroupKeys(names)[i] != GroupKeys(names)[j]
    decreases |names|
  {
    if names != [] {
      var init := names[..|names| - 1];
      GroupKeysDistinct(init);
    }
  }

  lemma {:induction false} RepeatedIffTwoPositions(names: seq<string>, name: string)
    ensures Occurrences(names, name) > 1 <==> exists i, j :: 0 <= i < j < |names| && names[i] == name && names[j] == name
    ensures Occurrences(names, name) > 0 <==> name in names
    decreases |names|
  {
    if names != [] {
      var n := |names| - 1;
      var init := names[..n];
      RepeatedIffTwoPositions(init, name);
      if exists i, j :: 0 <= i < j < |names| && names[i] == name && names[j] == name {
        var i, j :| 0 <= i < j < |names| && names[i] == name && names[j] == name;
        if j < n {
          assert init[i] == name && init[j] == name;
        } else {
          assert init[i] == name;
        }
      }
      if Occurrences(names, name) > 1 {
        if Occurrences(init, name) > 1 {
          var i, j :| 0 <= i < j < |init| && init[i] == name && init[j] == name;
          assert names[i] == name && names[j] == name;
        } else {
          var i :| 0 <= i < |init| && init[i] == name;
          assert names[i] == name && names[n] == name;
        }
      }
      if name in names && names[n] != name {
        var i :| 0 <= i < |names| && names[i] == name;
        assert init[i] == name;
      }
    }
  }

  /** A key is repeated exactly when two positions carry it. */
  lemma RepeatedKeysMembers(names: seq<string>)
    ensures forall name :: name in RepeatedKeys(names) <==>
              exists i, j :: 0 <= i < j < |names| && names[i] == name && names[j] == name
  {
    var f := KeyIfRepeated(names);
    forall name
      ensures name in RepeatedKeys(names) <==>
                exists i, j :: 0 <= i < j < |names| && names[i] == name && names[j] == name
    {
      FlatMapMembers(GroupKeys(names), f, name);
      RepeatedIffTwoPositions(names, name);
      GroupKeysMembers(names, name);
      if name in RepeatedKeys(names) {
        var k :| 0 <= k < |GroupKeys(names)| && name in f(GroupKeys(names)[k]);
      }
      if exists i, j :: 0 <= i < j < |names| && names[i] == name && names[j] == name {
        var k :| 0 <= k < |GroupKeys(names)| && GroupKeys(names)[k] == name;
        assert name in f(GroupKeys(names)[k]);
      }
    }
  }

  /** Each repeated key is reported once. */
  lemma RepeatedKeysDistinct(names: seq<string>)
    ensures forall i, j :: 0 <= i < j < |RepeatedKeys(names)| ==> RepeatedKeys(names)[i] != RepeatedKeys(names)[j]
  {
    GroupKeysDistinct(names);
    FlatMapFilterDistinct(GroupKeys(names), KeyIfRepeated(names));
  }

  /** Two known rules carry `name`. */
  predicate NameShared(known: seq<KnownRule>, name: string) {
    exists i, j :: 0 <= i < j < |known| && known[i].name == name && known[j].name == name
  }

  /** Two known rules carry the same name. */
  predicate SharedName(known: seq<KnownRule>) {
    exists i, j :: 0 <= i < j < |known| && known[i].name == known[j].name
  }

  /** No duplicate is reported exactly when no two known rules share a name. */
  lemma DuplicateNamesEmpty(known: seq<KnownRule>)
    ensures DuplicateNames(known) == [] <==> !SharedName(known)
  {
    if DuplicateNames(known) != [] {
      assert NameShared(known, DuplicateNames(known)[0]);
    }
    if SharedName(known) {
      var i, j :| 0 <= i < j < |known| && known[i].name == known[j].name;
      assert NameShared(known, known[i].name);
    }
  }

  /** The duplicate check of a run: the names carried by more than one known rule. */
  method GetDuplicateNames(known: seq<KnownRule>) returns (duplicateNames: seq<string>)
    ensures forall name :: name in duplicateNames <==> NameShared(known, name)
    ensures forall i, j :: 0 <= i < j < |duplicateNames| ==> duplicateNames[i] != duplicateNames[j]
    ensures duplicateNames == [] <==> !SharedName(known)
  {
    duplicateNames := DuplicateNames(known);
    DuplicateNamesEmpty(known);
  }

  // ---------------------------------------------------------------------------
  // Subscriptions and providers
  // ---------------------------------------------------------------------------

  /** An empty filter keeps every subscription; otherwise its id or its display name must be listed, ignoring case. */
  predicate KeepSubscription(filter: seq<string>, subscription: Subscription)
    ensures |filter| == 0 ==> KeepSubscription(filter, subscription)
    ensures KeepSubscription(filter, subscription) <==>
              |filter| == 0 ||
              exists k :: 0 <= k < |filter| &&
                (UpperString(filter[k]) == UpperString(subscription.subscriptionId) ||
                 UpperString(filter[k]) == UpperString(subscription.displayName))
  {
    ContainsIgnoreCaseUpper(filter, subscription.subscriptionId);
    ContainsIgnoreCaseUpper(filter, subscription.displayName);
    !(|filter| > 0
      && !ContainsIgnoreCase(filter, subscription.subscriptionId)
      && !ContainsIgnoreCase(filter, subscription.displayName))
  }

  /** The filter compares ignoring case: upper-casing its entries changes no decision. */
  lemma KeepSubscriptionIgnoresCase(filter: seq<string>, subscription: Subscription)
    ensures KeepSubscription(UpperAll(filter), subscription) == KeepSubscription(filter, subscription)
  {
    var upper := UpperAll(filter);
    forall s | s == subscription.subscriptionId || s == subscription.displayName
      ensures ContainsIgnoreCase(upper, s) == ContainsIgnoreCase(filter, s)
    {
      if ContainsIgnoreCase(filter, s) {
        var e :| e in filter && EqualsIgnoreCase(e, s);
        var k :| 0 <= k < |filter| && filter[k] == e;
        UpperStringEquivalent(e, s);
        assert upper[k] in upper;
      }
      if ContainsIgnoreCase(upper, s) {
        var u :| u in upper && EqualsIgnoreCase(u, s);
        var k :| 0 <= k < |upper| && upper[k] == u;
        UpperStringEquivalent(filter[k], s);
        assert filter[k] in filter;
      }
    }
  }

  datatype ProviderKind = CosmosForPostgreSql | MongoCluster | PostgreSql | Sql

  /** The order in which enabled providers are registered. */
  function Rank(kind: ProviderKind): nat {
    match kind
    case CosmosForPostgreSql => 0
    case MongoCluster => 1
    case PostgreSql => 2
    case Sql => 3
  }

  /** Whether the configuration switches a provider on. */
  predicate Enabled(config: Config, kind: ProviderKind) {
    match kind
    case CosmosForPostgreSql => config.cosmosForPostgreSql
    case MongoCluster => config.mongoCluster
    case PostgreSql => config.postgreSql
    case Sql => config.sql
  }

  /** The provider list of a run: every enabled provider once, in registration order. */
  method GetProviders(config: Config) returns (providers: seq<ProviderKind>)
    ensures forall kind :: kind in providers <==> Enabled(config, kind)
    ensures forall i, j :: 0 <= i < j < |providers| ==> Rank(providers[i]) < Rank(providers[j])
  {
    providers := [];
    if config.cosmosForPostgreSql {
      providers := providers + [CosmosForPostgreSql];
    }
    assert forall k :: k in providers ==> Rank(k) < 1;
    if config.mongoCluster {
      providers := providers + [MongoCluster];
    }
    assert forall k :: k in providers ==> Rank(k) < 2;
    if config.postgreSql {
      providers := providers + [PostgreSql];
    }
    assert forall k :: k in providers ==> Rank(k) < 3;
    if config.sql {
      providers := providers + [Sql];
    }
  }

  /** A configuration that names only its lists enables all four providers and uses "-". */
  lemma DefaultsEnableEverything(knownFqdns: Option<seq<KnownFqdn>>, knownNetworks: Option<seq<KnownRule>>, subscriptions: Option<seq<string>>)
    ensures forall kind :: Enabled(DefaultConfig(knownFqdns, knownNetworks, subscriptions), kind)
    ensures Separator(DefaultConfig(knownFqdns, knownNetworks, subscriptions)) == "-"
  {
  }

  // ---------------------------------------------------------------------------
  // The resources a run may touch
  // ---------------------------------------------------------------------------

  ghost function Elements<T>(xs: seq<T>): set<T> {
    set x | x in xs
  }

  /** The resources of a subscription whose ranges are compared as addresses. */
  ghost function AddressResources(subscription: Subscription): set<FirewallResource<Address>> {
    Elements(subscription.cosmosClusters) + Elements(subscription.postgreSqlServers) + Elements(subscription.flexibleServers)
  }

  /** The resources of a subscription whose ranges are compared as text. */
  ghost function TextResources(subscription: Subscription): set<FirewallResource<string>> {
    Elements(subscription.mongoClusters) + Elements(subscription.sqlServers)
  }

  ghost function AddressResourcesOfKind(subscription: Subscription, kind: ProviderKind): set<FirewallResource<Address>> {
    match kind
    case CosmosForPostgreSql => Elements(subscription.cosmosClusters)
    case PostgreSql => Elements(subscription.postgreSqlServers) + Elements(subscription.flexibleServers)
    case _ => {}
  }

  ghost function TextResourcesOfKind(subscription: Subscription, kind: ProviderKind): set<FirewallResource<string>> {
    match kind
    case MongoCluster => Elements(subscription.mongoClusters)
    case Sql => Elements(subscription.sqlServers)
    case _ => {}
  }

  /** The address-compared resources that the given providers handle in one subscription. */
  ghost function ProvidersAddressResources(subscription: Subscription, providers: seq<ProviderKind>): set<FirewallResource<Address>> {
    if providers == [] then {}
    else ProvidersAddressResources(subscription, providers[..|providers| - 1]) + AddressResourcesOfKind(subscription, providers[|providers| - 1])
  }

  ghost function ProvidersTextResources(subscription: Subscription, providers: seq<ProviderKind>): set<FirewallResource<string>> {
    if providers == [] then {}
    else ProvidersTextResources(subscription, providers[..|providers| - 1]) + TextResourcesOfKind(subscription, providers[|providers| - 1])
  }

  /** The address-compared resources of all subscriptions. */
  ghost function AllAddressResources(subscriptions: seq<Subscription>): set<FirewallResource<Address>> {
    set i, s | 0 <= i < |subscriptions| && s in AddressResources(subscriptions[i]) :: s
  }

  /** The text-compared resources of all subscriptions. */
  ghost function AllTextResources(subscriptions: seq<Subscription>): set<FirewallResource<string>> {
    set i, s | 0 <= i < |subscriptions| && s in TextResources(subscriptions[i]) :: s
  }

  /** The address-compared resources a run handles in one subscription: none when the filter drops it. */
  ghost function HandledAddressResources(subscription: Subscription, filter: seq<string>, providers: seq<ProviderKind>): set<FirewallResource<Address>> {
    if KeepSubscription(filter, subscription) then ProvidersAddressResources(subscription, providers) else {}
  }

  ghost function HandledTextResources(subscription: Subscription, filter: seq<string>, providers: seq<ProviderKind>): set<FirewallResource<string>> {
    if KeepSubscription(filter, subscription) then ProvidersTextResources(subscription, providers) else {}
  }

  /** The address-compared resources a run handles: those of the enabled providers in the kept subscriptions. */
  ghost function TouchedAddressResources(subscriptions: seq<Subscription>, filter: seq<string>, providers: seq<ProviderKind>): set<FirewallResource<Address>> {
    if subscriptions == [] then {}
    else
      var last := subscriptions[|subscriptions| - 1];
      TouchedAddressResources(subscriptions[..|subscriptions| - 1], filter, providers)
      + HandledAddressResources(last, filter, providers)
  }

  ghost function TouchedTextResources(subscriptions: seq<Subscription>, filter: seq<string>, providers: seq<ProviderKind>): set<FirewallResource<string>> {
    if subscriptions == [] then {}
    else
      var last := subscriptions[|subscriptions| - 1];
      TouchedTextResources(subscriptions[..|subscriptions| - 1], filter, providers)
      + HandledTextResources(last, filter, providers)
  }

  /** The providers handle only resources of their own subscription. */
  lemma {:induction false} ProvidersStayInSubscription(subscription: Subscription, providers: seq<ProviderKind>)
    ensures ProvidersAddressResources(subscription, providers) <= AddressResources(subscription)
    ensures ProvidersTextResources(subscription, providers) <= TextResources(subscription)
    decreases |providers|
  {
    if providers != [] {
      ProvidersStayInSubscription(subscription, providers[..|providers| - 1]);
    }
  }

  /** A run handles only resources of the subscriptions it is given. */
  lemma {:induction false} TouchedIncluded(subscriptions: seq<Subscription>, filter: seq<string>, providers: seq<ProviderKind>)
    ensures TouchedAddressResources(subscriptions, filter, providers) <= AllAddressResources(subscriptions)
    ensures TouchedTextResources(subscriptions, filter, providers) <= AllTextResources(subscriptions)
    decreases |subscriptions|
  {
    if subscriptions != [] {
      var n := |subscriptions| - 1;
      var init := subscriptions[..n];
      TouchedIncluded(init, filter, providers);
      ProvidersStayInSubscription(subscriptions[n], providers);
      forall s | s in AllAddressResources(init) ensures s in AllAddressResources(subscriptions) {
        var i :| 0 <= i < n && s in AddressResources(init[i]);
        assert init[i] == subscriptions[i];
      }
      forall s | s in AllTextResources(init) ensures s in AllTextResources(subscriptions) {
        var i :| 0 <= i < n && s in TextResources(init[i]);
        assert init[i] == subscriptions[i];
      }
    }
  }

  /** Each subscription's resources are among all resources. */
  lemma SubscriptionIncluded(subscriptions: seq<Subscription>, i: nat)
    requires i < |subscriptions|
    ensures AddressResources(subscriptions[i]) <= AllAddressResources(subscriptions)
    ensures TextResources(subscriptions[i]) <= AllTextResources(subscriptions)
  {
  }

  /** With every provider switched off a run handles nothing. */
  lemma {:induction false} NoProvidersTouchNothing(subscriptions: seq<Subscription>, filter: seq<string>)
    ensures TouchedAddressResources(subscriptions, filter, []) == {}
    ensures TouchedTextResources(subscriptions, filter, []) == {}
    decreases |subscriptions|
  {
    if subscriptions != [] {
      NoProvidersTouchNothing(subscriptions[..|subscriptions| - 1], filter);
    }
  }

  // ---------------------------------------------------------------------------
  // The run
  // ---------------------------------------------------------------------------

  /**
   * `pass` is what one pass of the rule loop does to a rule list under these
   * known rules.  The run below is stated in terms of such a `pass`, which is
   * `Outcome` with the known rules, the dry-run flag and the comparison fixed.
   */
  ghost predicate IsPass<A(!new)>(pass: seq<FirewallRule<A>> -> seq<FirewallRule<A>>, known: seq<KnownRule>, dryRun: bool,
                                target: Network -> (A, A)) {
    forall rules {:trigger Outcome(known, dryRun, target, rules)} :: pass(rules) == Outcome(known, dryRun, target, rules)
  }

  /** A second pass changes nothing. */
  ghost predicate Idempotent<A(!new)>(pass: seq<FirewallRule<A>> -> seq<FirewallRule<A>>) {
    forall rules {:trigger pass(pass(rules))} :: pass(pass(rules)) == pass(rules)
  }

  /** One pass under fixed known rules, as a function of the rule list. */
  function PassOf<A(==)>(known: seq<KnownRule>, dryRun: bool, target: Network -> (A, A)): seq<FirewallRule<A>> -> seq<FirewallRule<A>> {
    rules => Outcome(known, dryRun, target, rules)
  }

  lemma PassOfIsIdempotentPass<A(!new)>(known: seq<KnownRule>, dryRun: bool, target: Network -> (A, A))
    ensures IsPass(PassOf(known, dryRun, target), known, dryRun, target)
    ensures Idempotent(PassOf(known, dryRun, target))
  {
    forall rules: seq<FirewallRule<A>>
      ensures PassOf(known, dryRun, target)(PassOf(known, dryRun, target)(rules)) == PassOf(known, dryRun, target)(rules)
    {
      OutcomeIdempotent(known, dryRun, target, rules);
    }
  }

  /** One provider on one subscription: the resources of its kind get one pass, the others keep their rules. */
  method RunProvider(context: SyncContext, kind: ProviderKind, lib: IpLibrary,
                     ghost addressPass: seq<FirewallRule<Address>> -> seq<FirewallRule<Address>>,
                     ghost textPass: seq<FirewallRule<string>> -> seq<FirewallRule<string>>)
    requires IsPass(addressPass, context.known, context.dryRun, AddressRange(lib))
    requires IsPass(textPass, context.known, context.dryRun, TextRange(lib))
    modifies AddressResources(context.subscription), TextResources(context.subscription)
    ensures forall s :: s in AddressResources(context.subscription) ==>
              s.rules == if s in AddressResourcesOfKind(context.subscription, kind) then addressPass(old(s.rules)) else old(s.rules)
    ensures forall s :: s in TextResources(context.subscription) ==>
              s.rules == if s in TextResourcesOfKind(context.subscription, kind) then textPass(old(s.rules)) else old(s.rules)
  {
    match kind
    case CosmosForPostgreSql => CosmosForPostgreSqlProvider.HandleAsync(context, lib);
    case MongoCluster => MongoClusterProvider.HandleAsync(context, lib);
    case PostgreSql => PostgreSqlProvider.HandleAsync(context, lib);
    case Sql => SqlProvider.HandleAsync(context, lib);
  }

  /**
   * The providers, in order, on one subscription: every resource one of them
   * handles ends up as after one pass, the others keep their rules.
   */
  method RunProviders(context: SyncContext, providers: seq<ProviderKind>, lib: IpLibrary,
                      ghost addressPass: seq<FirewallRule<Address>> -> seq<FirewallRule<Address>>,
                      ghost textPass: seq<FirewallRule<string>> -> seq<FirewallRule<string>>)
    requires IsPass(addressPass, context.known, context.dryRun, AddressRange(lib)) && Idempotent(addressPass)
    requires IsPass(textPass, context.known, context.dryRun, TextRange(lib)) && Idempotent(textPass)
    modifies AddressResources(context.subscription), TextResources(context.subscription)
    ensures forall s :: s in AddressResources(context.subscription) ==>
              s.rules == if s in ProvidersAddressResources(context.subscription, providers) then addressPass(old(s.rules)) else old(s.rules)
    ensures forall s :: s in TextResources(context.subscription) ==>
              s.rules == if s in ProvidersTextResources(context.subscription, providers) then textPass(old(s.rules)) else old(s.rules)
  {
    var subscription := context.subscription;
    for k := 0 to |providers|
      invariant forall s :: s in AddressResources(subscription) ==>
                  s.rules == if s in ProvidersAddressResources(subscription, providers[..k]) then addressPass(old(s.rules)) else old(s.rules)
      invariant forall s :: s in TextResources(subscription) ==>
                  s.rules == if s in ProvidersTextResources(subscription, providers[..k]) then textPass(old(s.rules)) else old(s.rules)
    {
      assert providers[..k + 1][..k] == providers[..k];
      RunProvider(context, providers[k], lib, addressPass, textPass);
    }
    assert providers[..|providers|] == providers;
  }

  /** One subscription: skipped unless the filter keeps it, otherwise every enabled provider in turn. */
  method VisitSubscription(subscription: Subscription, filter: seq<string>, known: seq<KnownRule>,
                           providers: seq<ProviderKind>, dryRun: bool, lib: IpLibrary,
                           ghost addressPass: seq<FirewallRule<Address>> -> seq<FirewallRule<Address>>,
                           ghost textPass: seq<FirewallRule<string>> -> seq<FirewallRule<string>>)
    requires IsPass(addressPass, known, dryRun, AddressRange(lib)) && Idempotent(addressPass)
    requires IsPass(textPass, known, dryRun, TextRange(lib)) && Idempotent(textPass)
    modifies AddressResources(subscription), TextResources(subscription)
    ensures forall s :: s in AddressResources(subscription) ==>
              s.rules == if s in HandledAddressResources(subscription, filter, providers) then addressPass(old(s.rules)) else old(s.rules)
    ensures forall s :: s in TextResources(subscription) ==>
              s.rules == if s in HandledTextResources(subscription, filter, providers) then textPass(old(s.rules)) else old(s.rules)
  {
    if KeepSubscription(filter, subscription) {
      RunProviders(SyncContext(subscription, known, dryRun), providers, lib, addressPass, textPass);
    }
  }

  /** One subscription of a list: the resources it handles get one pass, every other resource of the list keeps its rules. */
  method VisitAmong(subscriptions: seq<Subscription>, i: nat, filter: seq<string>, known: seq<KnownRule>,
                    providers: seq<ProviderKind>, dryRun: bool, lib: IpLibrary,
                    ghost addressPass: seq<FirewallRule<Address>> -> seq<FirewallRule<Address>>,
                    ghost textPass: seq<FirewallRule<string>> -> seq<FirewallRule<string>>)
    requires i < |subscriptions|
    requires IsPass(addressPass, known, dryRun, AddressRange(lib)) && Idempotent(addressPass)
    requires IsPass(textPass, known, dryRun, TextRange(lib)) && Idempotent(textPass)
    modifies AllAddressResources(subscriptions), AllTextResources(subscriptions)
    ensures forall s :: s in AllAddressResources(subscriptions) ==>
              s.rules == if s in HandledAddressResources(subscriptions[i], filter, providers) then addressPass(old(s.rules)) else old(s.rules)
    ensures forall s :: s in AllTextResources(subscriptions) ==>
              s.rules == if s in HandledTextResources(subscriptions[i], filter, providers) then textPass(old(s.rules)) else old(s.rules)
  {
    SubscriptionIncluded(subscriptions, i);
    ProvidersStayInSubscription(subscriptions[i], providers);
    VisitSubscription(subscriptions[i], filter, known, providers, dryRun, lib, addressPass, textPass);
  }

  /**
   * The loop over subscriptions: a subscription the filter keeps gets every
   * enabled provider, the others are skipped.  A resource that several
   * subscriptions or providers list still ends up as after one pass.
   */
  method RunSubscriptions(subscriptions: seq<Subscription>, filter: seq<string>, known: seq<KnownRule>,
                          providers: seq<ProviderKind>, dryRun: bool, lib: IpLibrary,
                          ghost addressPass: seq<FirewallRule<Address>> -> seq<FirewallRule<Address>>,
                          ghost textPass: seq<FirewallRule<string>> -> seq<FirewallRule<string>>)
    requires IsPass(addressPass, known, dryRun, AddressRange(lib)) && Idempotent(addressPass)
    requires IsPass(textPass, known, dryRun, TextRange(lib)) && Idempotent(textPass)
    modifies AllAddressResources(subscriptions), AllTextResources(subscriptions)
    ensures forall s :: s in AllAddressResources(subscriptions) ==>
              s.rules == if s in TouchedAddressResources(subscriptions, filter, providers) then addressPass(old(s.rules)) else old(s.rules)
    ensures forall s :: s in AllTextResources(subscriptions) ==>
              s.rules == if s in TouchedTextResources(subscriptions, filter, providers) then textPass(old(s.rules)) else old(s.rules)
  {
    for i := 0 to |subscriptions|
      invariant forall s :: s in AllAddressResources(subscriptions) ==>
                  s.rules == if s in TouchedAddressResources(subscriptions[..i], filter, providers) then addressPass(old(s.rules)) else old(s.rules)
      invariant forall s :: s in AllTextResources(subscriptions) ==>
                  s.rules == if s in TouchedTextResources(subscriptions[..i], filter, providers) then textPass(old(s.rules)) else old(s.rules)
    {
      var subscription := subscriptions[i];
      assert subscriptions[..i + 1][..i] == subscriptions[..i];
      ghost var touchedAddress := TouchedAddressResources(subscriptions[..i], filter, providers);
      ghost var touchedText := TouchedTextResources(subscriptions[..i], filter, providers);
      ghost var handledAddress := HandledAddressResources(subscription, filter, providers);
      ghost var handledText := HandledTextResources(subscription, filter, providers);
      assert TouchedAddressResources(subscriptions[..i + 1], filter, providers) == touchedAddress + handledAddress;
      assert TouchedTextResources(subscriptions[..i + 1], filter, providers) == touchedText + handledText;
      label Visit:
      VisitAmong(subscriptions, i, filter, known, providers, dryRun, lib, addressPass, textPass);
      forall s | s in AllAddressResources(subscriptions) && s in handledAddress
        ensures s.rules == addressPass(old(s.rules))
      {
        assert s.rules == addressPass(old@Visit(s.rules));
      }
      forall s | s in AllTextResources(subscriptions) && s in handledText
        ensures s.rules == textPass(old(s.rules))
      {
        assert s.rules == textPass(old@Visit(s.rules));
      }
    }
    assert subscriptions[..|subscriptions|] == subscriptions;
  }

  /** The loop over subscriptions with the pass fixed: handled resources get one pass, a dry run changes nothing. */
  method SyncSubscriptions(subscriptions: seq<Subscription>, filter: seq<string>, known: seq<KnownRule>,
                           providers: seq<ProviderKind>, dryRun: bool, lib: IpLibrary)
    modifies AllAddressResources(subscriptions), AllTextResources(subscriptions)
    ensures forall s :: s in AllAddressResources(subscriptions) ==>
              s.rules == if s in TouchedAddressResources(subscriptions, filter, providers)
                         then Outcome(known, dryRun, AddressRange(lib), old(s.rules))
                         else old(s.rules)
    ensures forall s :: s in AllTextResources(subscriptions) ==>
              s.rules == if s in TouchedTextResources(subscriptions, filter, providers)
                         then Outcome(known, dryRun, TextRange(lib), old(s.rules))
                         else old(s.rules)
    ensures dryRun ==> forall s :: s in AllAddressResources(subscriptions) ==> s.rules == old(s.rules)
    ensures dryRun ==> forall s :: s in AllTextResources(subscriptions) ==> s.rules == old(s.rules)
  {
    PassOfIsIdempotentPass(known, dryRun, AddressRange(lib));
    PassOfIsIdempotentPass(known, dryRun, TextRange(lib));
    RunSubscriptions(subscriptions, filter, known, providers, dryRun, lib,
                     PassOf(known, dryRun, AddressRange(lib)), PassOf(known, dryRun, TextRange(lib)));
  }

  /**
   * Everything a run does once the known rules are built: refuse duplicate
   * names with -1 and no change, otherwise reconcile every kept subscription
   * and return 0.
   */
  method CheckAndSync(subscriptions: seq<Subscription>, filter: seq<string>, known: seq<KnownRule>,
                      providers: seq<ProviderKind>, dryRun: bool, lib: IpLibrary) returns (exitCode: int)
    modifies AllAddressResources(subscriptions), AllTextResources(subscriptions)
    ensures SharedName(known) ==> exitCode == -1
    ensures !SharedName(known) ==> exitCode == 0
    ensures forall s :: s in AllAddressResources(subscriptions) ==>
              s.rules == if exitCode == 0 && s in TouchedAddressResources(subscriptions, filter, providers)
                         then Outcome(known, dryRun, AddressRange(lib), old(s.rules))
                         else old(s.rules)
    ensures forall s :: s in AllTextResources(subscriptions) ==>
              s.rules == if exitCode == 0 && s in TouchedTextResources(subscriptions, filter, providers)
                         then Outcome(known, dryRun, TextRange(lib), old(s.rules))
                         else old(s.rules)
    ensures dryRun ==> forall s :: s in AllAddressResources(subscriptions) ==> s.rules == old(s.rules)
    ensures dryRun ==> forall s :: s in AllTextResources(subscriptions) ==> s.rules == old(s.rules)
  {
    var duplicateNames := GetDuplicateNames(known);
    if |duplicateNames| > 0 {
      return -1;
    }
    SyncSubscriptions(subscriptions, filter, known, providers, dryRun, lib);
    exitCode := 0;
  }

  /**
   * ExecuteAsync: build the known rules; with duplicate names, return -1 and
   * change nothing; otherwise run the enabled providers over every kept
   * subscription and return 0.  Every handled resource ends up as after one
   * pass of the rule loop, every other resource keeps its rules, and a dry run
   * changes nothing.  The subscriptions the account can see are the parameter
   * `subscriptions`; the known rules are returned as a ghost result.
   */
  method ExecuteAsync(config: Config, subscriptions: seq<Subscription>, dns: string -> Option<seq<Address>>,
                      lib: IpLibrary, dryRun: bool)
    returns (exitCode: int, ghost known: seq<KnownRule>, ghost providers: seq<ProviderKind>)
    modifies AllAddressResources(subscriptions), AllTextResources(subscriptions)
    ensures known == KnownRules(config, dns, lib)
    ensures forall kind :: kind in providers <==> Enabled(config, kind)
    ensures forall i, j :: 0 <= i < j < |providers| ==> Rank(providers[i]) < Rank(providers[j])
    ensures SharedName(known) ==> exitCode == -1
    ensures !SharedName(known) ==> exitCode == 0
    ensures forall s :: s in AllAddressResources(subscriptions) ==>
              s.rules == if exitCode == 0 && s in TouchedAddressResources(subscriptions, config.subscriptions.GetOr([]), providers)
                         then Outcome(known, dryRun, AddressRange(lib), old(s.rules))
                         else old(s.rules)
    ensures forall s :: s in AllTextResources(subscriptions) ==>
              s.rules == if exitCode == 0 && s in TouchedTextResources(subscriptions, config.subscriptions.GetOr([]), providers)
                         then Outcome(known, dryRun, TextRange(lib), old(s.rules))
                         else old(s.rules)
    ensures dryRun ==> forall s :: s in AllAddressResources(subscriptions) ==> s.rules == old(s.rules)
    ensures dryRun ==> forall s :: s in AllTextResources(subscriptions) ==> s.rules == old(s.rules)
  {
    var selected := GetProviders(config);
    providers := selected;
    var rules := GetKnownRulesAsync(config, dns, lib);
    known := rules;
    exitCode := CheckAndSync(subscriptions, config.subscriptions.GetOr([]), rules, selected, dryRun, lib);
  }
}
