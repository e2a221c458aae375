# azfwrmgr — a Dafny model of the firewall reconciliation core

azfwrmgr keeps the firewall allow-lists of Azure database servers in line
with a declared set of named networks. A run does three things:

- it builds the list of known rules from the configuration: the literal
  networks come first, then one entry per host name that resolves to a single
  network, or `name + separator + index` entries for a host name that
  resolves to any other number of networks;
- it refuses the run with exit code -1 when two known rules share a name;
- otherwise it walks every subscription the filter keeps and runs each
  enabled provider: Cosmos DB for PostgreSQL, MongoDB vCore, PostgreSQL
  (single and flexible servers) and Azure SQL, in that order.

Each provider runs the same rule loop on every server or cluster. A
platform-managed rule is skipped. A known rule whose range differs from its
network's first and last usable address is updated. A known rule whose range
already matches is left alone. Any other rule is deleted. In a dry run the
actions are only reported.

The model is organised as follows:

| file | module | what it holds |
|---|---|---|
| `options.dfy` | `Options` | `Option`, for the nullable references of the source |
| `text.dfy` | `Text` | decimal rendering of an index; ordinal case-insensitive comparison |
| `networks.dfy` | `Networks` | addresses, networks, host routes; the IPNetwork2 operations as an uninterpreted `IpLibrary` |
| `manager_config.dfy` | `ManagerConfig` | the configuration records and their defaults |
| `sequences.dfy` | `Sequences` | `FlatMap` and its laws |
| `firewall_sync.dfy` | `FirewallSync` | `SkipRule`, `TryGetKnownRule`, the resource class `FirewallResource` whose rule list is edited in place, the rule loop `SyncRules` and the server loop `SyncResources`, and the specification of one pass (`Decide`, `Reconciled`, `Changes`, `Outcome`) with its properties |
| `provider_*.dfy` | one module per provider | each provider's `HandleAsync` over its resource lists, with the comparison it uses |
| `firewall_manager.dfy` | `FirewallManager` | `GetNetworks`, `GetNetworksAsync`, `GetKnownRulesAsync` and the `KnownRules` function that specifies it; the duplicate check; the subscription filter; provider selection; the subscription and provider loops; `ExecuteAsync` |

Modelling choices:

- **Providers.** The source writes the rule loop out once per provider. The
  model writes it once, as `FirewallSync.SyncRules`, generic in the type of a
  rule's start and end. Each provider instantiates it with its own comparison:
  - `AddressRange` compares and writes addresses, as PostgreSQL and Cosmos DB
    for PostgreSQL do;
  - `TextRange` compares and writes the text form of the addresses, as Azure
    SQL and MongoDB do.
- **Remote state.** A remote server or cluster is a `FirewallResource` object
  whose `rules` field the loop updates and deletes in place, by position.
- **Shared resources.** A resource that appears in several lists or
  subscriptions still ends up as after one pass, because a pass is idempotent
  (`FirewallSync.OutcomeIdempotent`).
- **Inputs.** The subscriptions the account can see are a parameter of
  `ExecuteAsync`. DNS is a parameter `dns: string -> Option<seq<Address>>`,
  where `None` stands for a lookup that fails with a socket error.
- **IPNetwork2.** The library's `FirstUsable`, `LastUsable`, `ToString` and
  `Supernet` are fields of `IpLibrary` and are left uninterpreted.
  `IPNetwork2.Parse($"{addr}/{prefix}")` is modelled as the network value
  `Network(addr, prefix)`. This assumes that text form and parse round-trip.

Behaviour of the code worth knowing:

- no rule is ever created for a known network that has no remote
  counterpart;
- the duplicate check groups names case-sensitively, while the subscription
  filter compares ignoring case;
- the manager's own test expects seven rules: two literal networks, one for
  the first host name and four for the second;
- an exception from a remote call is not caught, so it ends the run (see
  "## Left out").

## Model

| member | source | states |
|---|---|---|
| Text.DecimalString | src/AzureFwrMgr/FirewallManager.cs:118 | the index rendered into a rule name is a non-empty string of decimal digits without a leading zero (it starts with `0` only for 0), with at least two digits exactly when the index is 10 or more, and reading the digits back gives the index |
| Text.DecimalStringInjective | src/AzureFwrMgr/FirewallManager.cs:116-119 | distinct indices render as distinct strings, so the suffixed names of one host name never collide |
| Text.EqualsIgnoreCaseIffUpper | src/AzureFwrMgr/FirewallManager.cs:80-81 | two strings are equal ignoring case exactly when their upper-case forms are equal |
| Text.ContainsIgnoreCaseUpper | src/AzureFwrMgr/FirewallManager.cs:80-81 | a list contains a string ignoring case exactly when some entry has the same upper-case form |
| Text.UpperStringEquivalent | src/AzureFwrMgr/FirewallManager.cs:80-81 | under the case-insensitive comparison, upper-casing a string does not change what it equals, and a string equals its own upper-case form |
| Networks.HostRoute | src/AzureFwrMgr/FirewallManager.cs:144-147 | an address becomes a host route: an IPv4-mapped IPv6 address is taken as IPv4 (and maps back to the original), any other address is kept, and the prefix is /32 for IPv4 and /128 for IPv6 |
| Networks.MappedTwinSameRoute | src/AzureFwrMgr/FirewallManager.cs:145-146 | an IPv4 address and its IPv4-mapped IPv6 twin give the same /32 route, as the manager's test with `1.2.3.5` mapped to IPv6 relies on |
| FirewallSync.SkipRule | src/AzureFwrMgr/Management/FirewallSyncProvider.cs:23-24 | a name is skipped exactly when it is `AllowAllWindowsAzureIps` or starts with `AllowAllAzureServicesAndResourcesWithinAzureIps` (ordinal); a skipped name is never shorter than the first |
| FirewallSync.SkipRuleExamples | src/AzureFwrMgr/Management/FirewallSyncProvider.cs:23-24 | `AllowAllWindowsAzureIps` is skipped, but a different casing of it is not, and neither is it followed by any non-empty suffix; the prefix `AllowAllAzureServicesAndResourcesWithinAzureIps` followed by any suffix is skipped, and a different casing of that prefix is not |
| FirewallSync.FindKnownFirstMatch | src/AzureFwrMgr/Management/FirewallSyncProvider.cs:29-42 | the lookup finds a network exactly when some known rule carries the name; it then returns the network of the first such rule; a null name finds no known rule (known names are never null in the model) |
| FirewallSync.TryGetKnownRule | src/AzureFwrMgr/Management/FirewallSyncProvider.cs:29-42 | the loop returns true exactly when some entry carries the name (ordinal comparison), with the network of the first such entry; on failure it returns false and a null network; a null name matches no known rule (known names are never null in the model); it agrees with `FindKnown` |
| FirewallSync.FirewallResource.UpdateRule | src/AzureFwrMgr/Management/FirewallSyncProviderSql.cs:57-63 | an update keeps the rule's name and position and replaces only its start and end |
| FirewallSync.FirewallResource.DeleteRule | src/AzureFwrMgr/Management/FirewallSyncProviderSql.cs:88 | a delete removes exactly that rule and keeps the others in order |
| FirewallSync.Decide | src/AzureFwrMgr/Management/FirewallSyncProviderPostgreSql.cs:35-84 | a skip-listed rule is left alone; a rule is removed exactly when it is not skip-listed and no known rule carries its name; an update sets the range of the first known rule of that name (the one the lookup returns) and happens only when the range differs from it; a rule left alone that is not skip-listed already has that first match's range |
| FirewallSync.OutcomeSnoc | src/AzureFwrMgr/Management/FirewallSyncProviderPostgreSql.cs:30-85 | one more rule in the listing adds exactly that rule's share to the resulting list and to the report: itself in a dry run, otherwise its image |
| FirewallSync.ReconciledAppend | src/AzureFwrMgr/Management/FirewallSyncProviderCosmosForPostgreSqlClusters.cs:24-78 | each rule's outcome depends only on that rule, the known list and the comparison: a pass over a concatenation is the concatenation of the passes, for the rules and for the report |
| FirewallSync.ImageSettled | src/AzureFwrMgr/Management/FirewallSyncProviderPostgreSql.cs:38-69 | a rule the pass keeps or updates keeps its name, and the pass would leave it alone afterwards |
| FirewallSync.ReconciledConverged | src/AzureFwrMgr/Management/FirewallSyncProviderPostgreSql.cs:105-160 | after a pass that is not a dry run, every remaining rule is skip-listed or known with exactly its network's range |
| FirewallSync.ReconciledNeverCreates | src/AzureFwrMgr/Management/FirewallSyncProviderSql.cs:30-90 | a pass never creates a rule: the list does not grow, and every remaining name was in the listing |
| FirewallSync.ReconciledCases | src/AzureFwrMgr/Management/FirewallSyncProviderMongoCluster.cs:24-80 | a skip-listed rule survives unchanged; a known rule survives in its updated form, and unchanged exactly when its range already matched; an unknown rule leaves no rule of its name |
| FirewallSync.SettledFixpoint | src/AzureFwrMgr/Management/FirewallSyncProviderMongoCluster.cs:32-58 | a listing in which every rule is skip-listed or known with the right range comes out unchanged, and nothing is reported |
| FirewallSync.ChangesEmptyIffSettled | src/AzureFwrMgr/Management/FirewallSyncProviderPostgreSql.cs:41-83 | a pass reports an update or a removal exactly when some rule is not already settled |
| FirewallSync.ReconciledIdempotent | src/AzureFwrMgr/Management/FirewallSyncProviderPostgreSql.cs:105-160 | a second pass changes nothing and reports nothing |
| FirewallSync.OutcomeIdempotent | src/AzureFwrMgr/Management/FirewallSyncProviderCosmosForPostgreSqlClusters.cs:13-79 | in either mode, a pass over a list that already had one leaves it as it is, so a resource listed twice ends up as after one pass |
| FirewallSync.SyncRule | src/AzureFwrMgr/Management/FirewallSyncProviderSql.cs:32-89 | one iteration of the rule loop: with the rules before it already through their pass, skipping, leaving, updating or deleting the rule at its live position extends the outcome and the report by that rule, so the list is the outcome of the rules seen so far followed by the unvisited ones, in both modes |
| FirewallSync.SyncRules | src/AzureFwrMgr/Management/FirewallSyncProviderPostgreSql.cs:30-85 | after the loop over a resource's rules, its rule list is the outcome of one pass over the list it had (unchanged in a dry run), and the reported changes are those of the pass |
| FirewallSync.SyncResources | src/AzureFwrMgr/Management/FirewallSyncProviderPostgreSql.cs:20-86 | after the loop over servers, every listed server holds the outcome of one pass over its old rules, even when it is listed more than once |
| CosmosForPostgreSqlProvider.HandleAsync | src/AzureFwrMgr/Management/FirewallSyncProviderCosmosForPostgreSqlClusters.cs:7-80 | every cluster holds the outcome of one pass with ranges compared as addresses |
| MongoClusterProvider.HandleAsync | src/AzureFwrMgr/Management/FirewallSyncProviderMongoCluster.cs:8-82 | every cluster holds the outcome of one pass with ranges compared as text |
| PostgreSqlProvider.HandleLegacyAsync | src/AzureFwrMgr/Management/FirewallSyncProviderPostgreSql.cs:14-87 | every single server holds the outcome of one pass with ranges compared as addresses |
| PostgreSqlProvider.HandleFlexibleAsync | src/AzureFwrMgr/Management/FirewallSyncProviderPostgreSql.cs:89-162 | every flexible server holds the outcome of one pass with ranges compared as addresses |
| PostgreSqlProvider.HandleAsync | src/AzureFwrMgr/Management/FirewallSyncProviderPostgreSql.cs:8-12 | single servers, then flexible servers: each of them holds the outcome of one pass, even one listed in both |
| SqlProvider.HandleStandaloneAsync | src/AzureFwrMgr/Management/FirewallSyncProviderSql.cs:14-92 | every standalone server holds the outcome of one pass with ranges compared as text |
| SqlProvider.HandleManagedInstancesAsync | src/AzureFwrMgr/Management/FirewallSyncProviderSql.cs:94-97 | managed instances are not handled: the method may modify nothing, and every SQL server keeps its rules |
| SqlProvider.HandleManagedInstancePoolsAsync | src/AzureFwrMgr/Management/FirewallSyncProviderSql.cs:99-102 | managed instance pools are not handled: the method may modify nothing, and every SQL server keeps its rules |
| SqlProvider.HandleAsync | src/AzureFwrMgr/Management/FirewallSyncProviderSql.cs:7-12 | after the standalone handler and the two no-op handlers, every standalone server holds the outcome of one pass and nothing else changes |
| FirewallManager.GetNetworks | src/AzureFwrMgr/FirewallManager.cs:139-151 | the loop yields the supernet reduction of the host routes of the address list, in list order |
| FirewallManager.GetNetworksAsync | src/AzureFwrMgr/FirewallManager.cs:124-137 | the result is null exactly when the lookup fails; otherwise it is the networks of the returned address list |
| FirewallManager.AppendSuffixed | src/AzureFwrMgr/FirewallManager.cs:116-119 | the inner loop appends exactly one `name + separator + index` rule per network, in order |
| FirewallManager.GetKnownRulesAsync | src/AzureFwrMgr/FirewallManager.cs:100-123 | the nested loops build exactly `KnownRules`: the literal networks, then each host name's contribution in configuration order |
| FirewallManager.FqdnRulesSplit | src/AzureFwrMgr/FirewallManager.cs:106-120 | a host name contributes its rules at its own place among the others, whatever comes before and after |
| FirewallManager.UnresolvedAddsNothing | src/AzureFwrMgr/FirewallManager.cs:109 | a host name that does not resolve adds no rule, and the host names after it are still processed |
| FirewallManager.SingleNetworkKeepsName | src/AzureFwrMgr/FirewallManager.cs:110-114 | a host name that reduces to one network adds one rule under its bare name |
| FirewallManager.SeveralNetworksSuffixed | src/AzureFwrMgr/FirewallManager.cs:116-119 | a host name that reduces to any other number of networks (none included) adds one rule per network, in order, named name + separator + index, with pairwise distinct names |
| FirewallManager.FqdnRulesLength | src/AzureFwrMgr/FirewallManager.cs:106-120 | the host names add as many rules as the networks they resolve to, summed over those that resolve |
| FirewallManager.KnownRulesLength | src/AzureFwrMgr/FirewallManager.cs:102-105 | the known list starts with the literal networks verbatim (null counts as empty), and its length is their number plus the total resolved count |
| FirewallManager.KnownRulesScenario | tests/AzureFwrMgr.Tests/FirewallManagerTests.cs:75-94 | with the test's configuration and separator `_`, when the first host name reduces to one network and the second to four, the list has seven rules: `MY_HOME`, `WAIYAKI_WAY`, `MAX_HOME`, `YOUR_HOME_0` … `YOUR_HOME_3`, with those networks |
| FirewallManager.GroupKeysMembers | src/AzureFwrMgr/FirewallManager.cs:64 | the grouping by name has a key for exactly the names that occur |
| FirewallManager.GroupKeysDistinct | src/AzureFwrMgr/FirewallManager.cs:64 | the grouping has each key once |
| FirewallManager.RepeatedIffTwoPositions | src/AzureFwrMgr/FirewallManager.cs:64 | a group has more than one element exactly when two positions carry the name, and is non-empty exactly when the name occurs |
| FirewallManager.RepeatedKeysMembers | src/AzureFwrMgr/FirewallManager.cs:64 | the keys kept by `Where(g => g.Count() > 1)` are exactly the names at two different positions |
| FirewallManager.RepeatedKeysDistinct | src/AzureFwrMgr/FirewallManager.cs:64 | the kept keys are pairwise distinct |
| FirewallManager.DuplicateNames | src/AzureFwrMgr/FirewallManager.cs:64 | a name is reported as a duplicate exactly when two known rules carry it (case-sensitive), and each such name is reported once |
| FirewallManager.DuplicateNamesEmpty | src/AzureFwrMgr/FirewallManager.cs:64-65 | no duplicate is reported exactly when all known names are pairwise distinct |
| FirewallManager.GetDuplicateNames | src/AzureFwrMgr/FirewallManager.cs:64 | the duplicate check reports exactly the names two known rules carry, each once, and reports none exactly when no two rules share a name |
| FirewallManager.KeepSubscription | src/AzureFwrMgr/FirewallManager.cs:79-81 | an empty filter keeps every subscription; otherwise a subscription is kept exactly when some entry equals its id or its display name ignoring case |
| FirewallManager.KeepSubscriptionIgnoresCase | src/AzureFwrMgr/FirewallManager.cs:79-81 | the filter ignores case: upper-casing its entries changes no decision |
| FirewallManager.GetProviders | src/AzureFwrMgr/FirewallManager.cs:51-55 | a provider is in the list exactly when its flag is set, and the list follows the order Cosmos DB for PostgreSQL, MongoDB, PostgreSQL, SQL without repeats |
| FirewallManager.DefaultsEnableEverything | src/AzureFwrMgr/FirewallManager.cs:164-168 | a configuration that names only its three lists enables all four providers and uses the separator `-` |
| FirewallManager.ProvidersStayInSubscription | src/AzureFwrMgr/FirewallManager.cs:88-93 | the providers run on a subscription handle only that subscription's resources |
| FirewallManager.TouchedIncluded | src/AzureFwrMgr/FirewallManager.cs:74-94 | a run handles only resources of the subscriptions it enumerates |
| FirewallManager.NoProvidersTouchNothing | src/AzureFwrMgr/FirewallManager.cs:90-93 | with every provider switched off, a run handles no resource |
| FirewallManager.RunProvider | src/AzureFwrMgr/FirewallManager.cs:92 | one provider on one subscription: the resources of its kind get one pass, every other resource of the subscription keeps its rules |
| FirewallManager.RunProviders | src/AzureFwrMgr/FirewallManager.cs:90-93 | the providers in turn: every resource one of them handles holds the outcome of one pass, the others keep their rules |
| FirewallManager.VisitSubscription | src/AzureFwrMgr/FirewallManager.cs:78-93 | a subscription the filter drops is not changed at all; a kept one gets every enabled provider |
| FirewallManager.RunSubscriptions | src/AzureFwrMgr/FirewallManager.cs:74-94 | after the loop over subscriptions, every resource of a kept subscription that an enabled provider handles holds the outcome of one pass; every other resource keeps its rules |
| FirewallManager.SyncSubscriptions | src/AzureFwrMgr/FirewallManager.cs:72-94 | the same with the pass fixed to the known rules and the dry-run flag: handled resources are reconciled, and a dry run changes no resource |
| FirewallManager.CheckAndSync | src/AzureFwrMgr/FirewallManager.cs:63-97 | duplicate names give -1 and no change to any resource; otherwise the result is 0 and the kept subscriptions are reconciled |
| FirewallManager.ExecuteAsync | src/AzureFwrMgr/FirewallManager.cs:44-98 | the known rules are `KnownRules` of the configuration; the providers are exactly the enabled ones in registration order; the exit code is -1 exactly when two known rules share a name, and then nothing changes; otherwise it is 0, every handled resource holds the outcome of one pass, the others keep their rules, and a dry run changes nothing |

## Left out

- The file-reading overload of `ExecuteAsync` (missing file, invalid JSON, null configuration; `src/AzureFwrMgr/FirewallManager.cs:15-42`) is left out: it is file I/O and deserialisation. The JSON converter for networks is left out too.
- The Azure SDK (credentials, `ArmClient`, the paged enumerations, `UpdateAsync`/`DeleteAsync` as remote calls) is left out: these are network clients. Each remote resource is an in-memory `FirewallResource` whose list the model edits.
- An exception raised by a remote call is not modelled. In the source it is not caught and ends the run part-way. The model lets every remote call succeed.
- DNS resolution is an input. The socket-error path becomes `None`. Any other exception of the resolver is not modelled.
- The internals of IPNetwork2 are not modelled: parsing, the supernet reduction, first and last usable address, and text form. They are uninterpreted, with no claim about how tight the supernet cover is. The test expectations that hold concrete resolved or reduced addresses depend on live DNS and on that library, so only their structure is used (`FirewallManager.KnownRulesScenario`).
- Logging, cancellation tokens and `async`/`await` are left out: they are plumbing and concurrency. The order of effects is kept.
- `src/AzureFwrMgr/Program.cs` (command line and host setup) and the Homebrew formula are not part of this model.
- Null names and null stored addresses in remote rules are not modelled: a rule name is always a string. `TryGetKnownRule` still takes an optional name, and a null name matches nothing.
- `FirewallSync.TryGetKnownRule` and `FirewallManager.DuplicateNames` do not model known rules without a name. A configuration entry without `name` deserialises to a known rule whose name is null (nothing in `src/AzureFwrMgr/AzureFwrMgrSerializerContext.cs:10-29` rejects it). In the source, `string.Equals` then matches a null remote name against it (`src/AzureFwrMgr/Management/FirewallSyncProvider.cs:33`), and `GroupBy` puts two unnamed rules under one null key, so the run returns -1 (`src/AzureFwrMgr/FirewallManager.cs:64-65`). In the model every known rule has a string name.
- `FirewallManager.KeepSubscription` folds case for ASCII letters only. `StringComparer.OrdinalIgnoreCase` also folds other letters.
- `FirewallSync.SkipRule` models the culture-sensitive `StartsWith` as an ordinal prefix test. The two agree on the ASCII prefix for all but culture-specific collation corner cases.
- `FirewallSync.SyncRules` walks the listing as it stood when the loop started. The source walks a paged, lazy enumeration (`GetAllAsync` with `await foreach`, `src/AzureFwrMgr/Management/FirewallSyncProviderPostgreSql.cs:25,30`). Whether a later page reflects the loop's own updates and deletions is up to the service. The model assumes it does not.
- `CosmosForPostgreSqlProvider.HandleAsync` does not model the exception that `server.Data.ServerNames[0]` raises for a cluster with no server names (`src/AzureFwrMgr/Management/FirewallSyncProviderCosmosForPostgreSqlClusters.cs:20`). That line only feeds a log message, and the model has no logging. In the source the exception ends the run before that cluster's rules are visited.
- `MongoClusterProvider.HandleAsync` does not model a rule whose `Data.Properties` is null (`src/AzureFwrMgr/Management/FirewallSyncProviderMongoCluster.cs:35-36`). In the source reading its addresses raises an exception that ends the run. In the model every rule has a start and an end.
- `FirewallManager.ExecuteAsync` returns the known rules and the provider list as ghost results. They exist only so that its contract can be stated; the source uses them internally.
