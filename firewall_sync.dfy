/**
 * What every firewall sync provider shares: the rule names that are never
 * touched, the lookup of a rule name in the known list, the remote resource
 * whose rule list is edited in place, and the per-resource reconcile loop
 * (written out once here; each provider runs it with its own range equality).
 */
module FirewallSync {
  import opened Options
  import opened Networks
  import opened ManagerConfig
  import opened Sequences

  const WindowsAzureIpsRule: string := "AllowAllWindowsAzureIps"
  const AzureServicesRulePrefix: string := "AllowAllAzureServicesAndResourcesWithinAzureIps"

  /**
   * Platform-managed rules that reconciliation leaves alone: the one rule
   * named exactly `AllowAllWindowsAzureIps`, and every rule whose name starts
   * with `AllowAllAzureServicesAndResourcesWithinAzureIps`.
   */
  predicate SkipRule(name: string)
    ensures SkipRule(name) <==>
              name == WindowsAzureIpsRule ||
              (|AzureServicesRulePrefix| <= |name| && name[..|AzureServicesRulePrefix|] == AzureServicesRulePrefix)
    ensures SkipRule(name) ==> |name| >= |WindowsAzureIpsRule|
  {
    name == WindowsAzureIpsRule || AzureServicesRulePrefix <= name
  }

  /**
   * The exact name is matched case-sensitively and only as a whole; the
   * prefix is matched case-sensitively and takes any suffix.
   */
  lemma SkipRuleExamples(suffix: string)
    ensures SkipRule(WindowsAzureIpsRule)
    ensures !SkipRule("AllowAllWindowsAzureIPs")
    ensures |suffix| > 0 ==> !SkipRule(WindowsAzureIpsRule + suffix)
    ensures SkipRule(AzureServicesRulePrefix + suffix)
    ensures !SkipRule("AllowAllAzureServicesAndResourcesWithinAzureIPs")
  {
    assert "AllowAllWindowsAzureIPs"[21] != WindowsAzureIpsRule[21];
    assert "AllowAllAzureServicesAndResourcesWithinAzureIPs"[45] != AzureServicesRulePrefix[45];
    assert AzureServicesRulePrefix <= AzureServicesRulePrefix + suffix;
    assert (WindowsAzureIpsRule + suffix)[8] == 'W' != AzureServicesRulePrefix[8];
  }

  /** One firewall rule of a remote resource: its name and its start and end address. */
  datatype FirewallRule<A> = FirewallRule(name: string, startAddress: A, endAddress: A)

  /** A remote server or cluster whose firewall rules the SDK updates and deletes in place. */
  class FirewallResource<A> {
    var rules: seq<FirewallRule<A>>

    constructor (rules: seq<FirewallRule<A>>)
      ensures this.rules == rules
    {
      this.rules := rules;
    }

    /** `r.UpdateAsync(...)`: the rule keeps its name and gets the new range. */
    method UpdateRule(i: nat, startAddress: A, endAddress: A)
      requires i < |rules|
      modifies this
      ensures rules == old(rules)[i := old(rules)[i].(startAddress := startAddress, endAddress := endAddress)]
    {
      rules := rules[i := rules[i].(startAddress := startAddress, endAddress := endAddress)];
    }

    /** `r.DeleteAsync(...)`: the rule disappears from the resource. */
    method DeleteRule(i: nat)
      requires i < |rules|
      modifies this
      ensures rules == old(rules)[..i] + old(rules)[i + 1..]
    {
      rules := rules[..i] + rules[i + 1..];
    }
  }

  /**
   * A subscription with the resources each provider enumerates in it.  The
   * managed instances and instance pools of Azure SQL are not listed: their
   * handlers do nothing.
   */
  datatype Subscription = Subscription(
    subscriptionId: string,
    displayName: string,
    cosmosClusters: seq<FirewallResource<Address>>,
    mongoClusters: seq<FirewallResource<string>>,
    postgreSqlServers: seq<FirewallResource<Address>>,
    flexibleServers: seq<FirewallResource<Address>>,
    sqlServers: seq<FirewallResource<string>>)

  /** FirewallSyncContext: the subscription, the known rules and the dry-run flag. */
  datatype SyncContext = SyncContext(subscription: Subscription, known: seq<KnownRule>, dryRun: bool)

  /** The network of the first known rule whose name equals `name` (ordinal); a null name finds nothing. */
  function FindKnown(known: seq<KnownRule>, name: Option<string>): Option<Network> {
    if known == [] then None
    else if Some(known[0].name) == name then Some(known[0].network)
    else FindKnown(known[1..], name)
  }

  /** The lookup succeeds exactly when some entry has the name, and then yields the first such entry's network. */
  lemma {:induction false} FindKnownFirstMatch(known: seq<KnownRule>, name: Option<string>)
    ensures FindKnown(known, name).Some? <==> exists i :: 0 <= i < |known| && Some(known[i].name) == name
    ensures FindKnown(known, name).Some? ==>
              exists i :: 0 <= i < |known| && Some(known[i].name) == name && FindKnown(known, name).value == known[i].network
                          && forall j :: 0 <= j < i ==> Some(known[j].name) != name
  {
    if known != [] && Some(known[0].name) != name {
      FindKnownFirstMatch(known[1..], name);
      assert forall i :: 1 <= i < |known| ==> known[i] == known[1..][i - 1];
      if FindKnown(known, name).Some? {
        var i :| 0 <= i < |known[1..]| && Some(known[1..][i].name) == name && FindKnown(known, name).value == known[1..][i].network
                 && forall j :: 0 <= j < i ==> Some(known[1..][j].name) != name;
        assert forall j :: 0 <= j < i + 1 ==> Some(known[j].name) != name;
      }
    }
  }

  /**
   * FirewallSyncContext.TryGetKnownRule: a first-match linear search of the
   * known list; on failure the network is null.
   */
  method TryGetKnownRule(context: SyncContext, name: Option<string>) returns (found: bool, network: Option<Network>)
    ensures found <==> exists i :: 0 <= i < |context.known| && Some(context.known[i].name) == name
    ensures found ==> exists i :: 0 <= i < |context.known| && Some(context.known[i].name) == name
                                  && network == Some(context.known[i].network)
                                  && forall j :: 0 <= j < i ==> Some(context.known[j].name) != name
    ensures !found ==> network == None
    ensures network == FindKnown(context.known, name)
  {
    var known := context.known;
    FindKnownFirstMatch(known, name);
    for i := 0 to |known|
      invariant forall j :: 0 <= j < i ==> Some(known[j].name) != name
    {
      if name == Some(known[i].name) {
        found, network := true, Some(known[i].network);
        return;
      }
    }
    found, network := false, None;
  }

  /** The range a provider compares and writes when the comparison is by address (PostgreSQL, Cosmos DB). */
  function AddressRange(lib: IpLibrary): Network -> (Address, Address) {
    n => (lib.firstUsable(n), lib.lastUsable(n))
  }

  /** The range a provider compares and writes when the comparison is by text (Azure SQL, MongoDB). */
  function TextRange(lib: IpLibrary): Network -> (string, string) {
    n => (lib.format(lib.firstUsable(n)), lib.format(lib.lastUsable(n)))
  }

  /** What reconciliation does with one existing rule. */
  datatype Action<A> = Leave | Update(newStart: A, newEnd: A) | Remove

  /** The decision for one rule: skip-listed first, then the known-rule lookup, then the range check. */
  function Decide<A(==)>(rule: FirewallRule<A>, known: seq<KnownRule>, target: Network -> (A, A)): (action: Action<A>)
    ensures SkipRule(rule.name) ==> action == Leave
    ensures action == Remove <==>
              !SkipRule(rule.name) && forall i :: 0 <= i < |known| ==> known[i].name != rule.name
    ensures action.Update? ==>
              FindKnown(known, Some(rule.name)).Some?
              && target(FindKnown(known, Some(rule.name)).value) == (action.newStart, action.newEnd)
              && target(FindKnown(known, Some(rule.name)).value) != (rule.startAddress, rule.endAddress)
    ensures action == Leave && !SkipRule(rule.name) ==>
              FindKnown(known, Some(rule.name)).Some?
              && target(FindKnown(known, Some(rule.name)).value) == (rule.startAddress, rule.endAddress)
  {
    FindKnownFirstMatch(known, Some(rule.name));
    if SkipRule(rule.name) then Leave
    else match FindKnown(known, Some(rule.name))
      case None => Remove
      case Some(network) =>
        var range := target(network);
        if rule.startAddress == range.0 && rule.endAddress == range.1 then Leave
        else Update(range.0, range.1)
  }

  /** A rule reconciliation would leave alone. */
  predicate Settled<A(==)>(rule: FirewallRule<A>, known: seq<KnownRule>, target: Network -> (A, A)) {
    Decide(rule, known, target) == Leave
  }

  /** What one rule becomes once its decision is applied: itself, its updated form, or nothing. */
  function Image<A(==)>(rule: FirewallRule<A>, known: seq<KnownRule>, target: Network -> (A, A)): seq<FirewallRule<A>> {
    match Decide(rule, known, target)
    case Leave => [rule]
    case Update(s, e) => [rule.(startAddress := s, endAddress := e)]
    case Remove => []
  }

  function ImageOf<A(==)>(known: seq<KnownRule>, target: Network -> (A, A)): FirewallRule<A> -> seq<FirewallRule<A>> {
    rule => Image(rule, known, target)
  }

  /** The rule list of a resource after a pass that applies every decision. */
  function Reconciled<A(==)>(rules: seq<FirewallRule<A>>, known: seq<KnownRule>, target: Network -> (A, A)): seq<FirewallRule<A>> {
    FlatMap(rules, ImageOf(known, target))
  }

  /** An update or a removal as the provider reports it (the log lines of one pass). */
  datatype Change<A> = Updated(name: string, newStart: A, newEnd: A) | Removed(name: string, oldStart: A, oldEnd: A)

  function Report<A(==)>(rule: FirewallRule<A>, known: seq<KnownRule>, target: Network -> (A, A)): seq<Change<A>> {
    match Decide(rule, known, target)
    case Leave => []
    case Update(s, e) => [Updated(rule.name, s, e)]
    case Remove => [Removed(rule.name, rule.startAddress, rule.endAddress)]
  }

  function ReportOf<A(==)>(known: seq<KnownRule>, target: Network -> (A, A)): FirewallRule<A> -> seq<Change<A>> {
    rule => Report(rule, known, target)
  }

  /** The changes one pass reports, in rule order; the same with and without dry run. */
  function Changes<A(==)>(rules: seq<FirewallRule<A>>, known: seq<KnownRule>, target: Network -> (A, A)): seq<Change<A>> {
    FlatMap(rules, ReportOf(known, target))
  }

  /** The rule list after one pass: unchanged in dry run, reconciled otherwise. */
  function Outcome<A(==)>(known: seq<KnownRule>, dryRun: bool, target: Network -> (A, A), rules: seq<FirewallRule<A>>): seq<FirewallRule<A>> {
    if dryRun then rules else Reconciled(rules, known, target)
  }

  /** One more rule extends the outcome and the report by that rule's share. */
  lemma OutcomeSnoc<A>(known: seq<KnownRule>, dryRun: bool, target: Network -> (A, A), rules: seq<FirewallRule<A>>, rule: FirewallRule<A>)
    ensures Outcome(known, dryRun, target, rules + [rule])
         == Outcome(known, dryRun, target, rules) + (if dryRun then [rule] else Image(rule, known, target))
    ensures Changes(rules + [rule], known, target) == Changes(rules, known, target) + Report(rule, known, target)
  {
    FlatMapSnoc(rules, rule, ImageOf(known, target));
    FlatMapSnoc(rules, rule, ReportOf(known, target));
  }

  // ---------------------------------------------------------------------------
  // Properties of one reconciliation pass

  /** Each rule's outcome depends only on that rule: the pass distributes over concatenation. */
  lemma ReconciledAppend<A>(a: seq<FirewallRule<A>>, b: seq<FirewallRule<A>>, known: seq<KnownRule>, target: Network -> (A, A))
    ensures Reconciled(a + b, known, target) == Reconciled(a, known, target) + Reconciled(b, known, target)
    ensures Changes(a + b, known, target) == Changes(a, known, target) + Changes(b, known, target)
  {
    FlatMapAppend(a, b, ImageOf(known, target));
    FlatMapAppend(a, b, ReportOf(known, target));
  }

  /** An applied update leaves the rule settled: every rule of an image is settled and keeps the name. */
  lemma ImageSettled<A>(rule: FirewallRule<A>, known: seq<KnownRule>, target: Network -> (A, A), r: FirewallRule<A>)
    requires r in Image(rule, known, target)
    ensures Settled(r, known, target) && r.name == rule.name
  {
  }

  /** After a pass every remaining rule is skip-listed or known with the range of its network. */
  lemma ReconciledConverged<A>(rules: seq<FirewallRule<A>>, known: seq<KnownRule>, target: Network -> (A, A))
    ensures forall r :: r in Reconciled(rules, known, target) ==>
              SkipRule(r.name) ||
              (FindKnown(known, Some(r.name)).Some? &&
               (r.startAddress, r.endAddress) == target(FindKnown(known, Some(r.name)).value))
    ensures forall r :: r in Reconciled(rules, known, target) ==> Settled(r, known, target)
  {
    forall r | r in Reconciled(rules, known, target)
      ensures Settled(r, known, target)
    {
      FlatMapMembers(rules, ImageOf(known, target), r);
      var i :| 0 <= i < |rules| && r in Image(rules[i], known, target);
      ImageSettled(rules[i], known, target, r);
    }
  }

  /** No rule is created: the list does not grow and every name after the pass was there before. */
  lemma ReconciledNeverCreates<A>(rules: seq<FirewallRule<A>>, known: seq<KnownRule>, target: Network -> (A, A))
    ensures |Reconciled(rules, known, target)| <= |rules|
    ensures forall r :: r in Reconciled(rules, known, target) ==> exists i :: 0 <= i < |rules| && rules[i].name == r.name
  {
    forall r | r in Reconciled(rules, known, target)
      ensures exists i :: 0 <= i < |rules| && rules[i].name == r.name
    {
      FlatMapMembers(rules, ImageOf(known, target), r);
      var i :| 0 <= i < |rules| && r in Image(rules[i], known, target);
      ImageSettled(rules[i], known, target, r);
    }
    FlatMapShorter(rules, ImageOf(known, target));
  }

  /**
   * The four cases of the loop: a skip-listed rule and a known rule with the
   * right range stay as they are; a known rule with another range is replaced
   * by its updated form; an unknown rule vanishes with every rule of its name.
   */
  lemma ReconciledCases<A>(rules: seq<FirewallRule<A>>, known: seq<KnownRule>, target: Network -> (A, A), rule: FirewallRule<A>)
    requires rule in rules
    ensures SkipRule(rule.name) ==> rule in Reconciled(rules, known, target)
    ensures !SkipRule(rule.name) && FindKnown(known, Some(rule.name)).Some? ==>
              var range := target(FindKnown(known, Some(rule.name)).value);
              rule.(startAddress := range.0, endAddress := range.1) in Reconciled(rules, known, target) &&
              ((rule.startAddress, rule.endAddress) == range <==> rule in Reconciled(rules, known, target))
    ensures !SkipRule(rule.name) && FindKnown(known, Some(rule.name)).None? ==>
              forall r :: r in Reconciled(rules, known, target) ==> r.name != rule.name
  {
    var i :| 0 <= i < |rules| && rules[i] == rule;
    var result := Reconciled(rules, known, target);
    ReconciledConverged(rules, known, target);
    forall r | r in Image(rule, known, target)
      ensures r in result
    {
      FlatMapMembers(rules, ImageOf(known, target), r);
    }
  }

  /** A list all of whose rules are settled is left exactly as it is, and nothing is reported. */
  lemma SettledFixpoint<A>(rules: seq<FirewallRule<A>>, known: seq<KnownRule>, target: Network -> (A, A))
    requires forall r :: r in rules ==> Settled(r, known, target)
    ensures Reconciled(rules, known, target) == rules
    ensures Changes(rules, known, target) == []
  {
    assert forall i :: 0 <= i < |rules| ==> ImageOf(known, target)(rules[i]) == [rules[i]] by {
      forall i | 0 <= i < |rules| ensures Settled(rules[i], known, target) {
        assert rules[i] in rules;
      }
    }
    FlatMapIdentity(rules, ImageOf(known, target));
    FlatMapEmpty(rules, ReportOf(known, target));
  }

  /** A pass reports nothing exactly when every rule is already settled. */
  lemma ChangesEmptyIffSettled<A>(rules: seq<FirewallRule<A>>, known: seq<KnownRule>, target: Network -> (A, A))
    ensures Changes(rules, known, target) == [] <==> forall r :: r in rules ==> Settled(r, known, target)
  {
    FlatMapEmpty(rules, ReportOf(known, target));
  }

  /** A second pass changes nothing and reports nothing. */
  lemma ReconciledIdempotent<A>(rules: seq<FirewallRule<A>>, known: seq<KnownRule>, target: Network -> (A, A))
    ensures Reconciled(Reconciled(rules, known, target), known, target) == Reconciled(rules, known, target)
    ensures Changes(Reconciled(rules, known, target), known, target) == []
  {
    ReconciledConverged(rules, known, target);
    SettledFixpoint(Reconciled(rules, known, target), known, target);
  }

  /** Running a pass on a resource that already went through one (in the same mode) leaves it as it was. */
  lemma OutcomeIdempotent<A>(known: seq<KnownRule>, dryRun: bool, target: Network -> (A, A), rules: seq<FirewallRule<A>>)
    ensures Outcome(known, dryRun, target, Outcome(known, dryRun, target, rules)) == Outcome(known, dryRun, target, rules)
  {
    if !dryRun {
      ReconciledIdempotent(rules, known, target);
    }
  }

  // ---------------------------------------------------------------------------
  // The loops

  /**
   * The body of the rule loop for one rule.  The rules listed before it are
   * `seen`; they have had their pass, so the rule stands at position `live`
   * of the resource's current list, followed by the unvisited `rest`.  The
   * rule is skipped, left, updated or deleted (the update or deletion
   * applied only outside dry run), and its reported change extends the
   * report of the rules seen so far.
   */
  method SyncRule<A(==)>(server: FirewallResource<A>, context: SyncContext, target: Network -> (A, A),
                         live: nat, rule: FirewallRule<A>, ghost seen: seq<FirewallRule<A>>, ghost rest: seq<FirewallRule<A>>)
    returns (next: nat, reported: seq<Change<A>>)
    requires server.rules == Outcome(context.known, context.dryRun, target, seen) + [rule] + rest
    requires live == |Outcome(context.known, context.dryRun, target, seen)|
    modifies server
    ensures server.rules == Outcome(context.known, context.dryRun, target, seen + [rule]) + rest
    ensures next == |Outcome(context.known, context.dryRun, target, seen + [rule])|
    ensures Changes(seen + [rule], context.known, target) == Changes(seen, context.known, target) + reported
  {
    ghost var done := Outcome(context.known, context.dryRun, target, seen);
    OutcomeSnoc(context.known, context.dryRun, target, seen, rule);
    next, reported := live + 1, [];
    if SkipRule(rule.name) {
      assert Decide(rule, context.known, target) == Leave;
      return;
    }
    var found, network := TryGetKnownRule(context, Some(rule.name));
    if found {
      var range := target(network.value);
      if rule.startAddress != range.0 || rule.endAddress != range.1 {
        assert Decide(rule, context.known, target) == Update(range.0, range.1);
        reported := [Updated(rule.name, range.0, range.1)];
        if !context.dryRun {
          server.UpdateRule(live, range.0, range.1);
          assert server.rules == done + [rule.(startAddress := range.0, endAddress := range.1)] + rest;
        }
      } else {
        assert Decide(rule, context.known, target) == Leave;
      }
      return;
    }
    assert Decide(rule, context.known, target) == Remove;
    reported := [Removed(rule.name, rule.startAddress, rule.endAddress)];
    if !context.dryRun {
      server.DeleteRule(live);
      assert server.rules == done + rest;
      next := live;
    }
  }

  /**
   * The rule loop of every provider, on one resource: each rule of the
   * listing, in order, goes through `SyncRule`.  Returns the reported changes.
   */
  method SyncRules<A(==)>(server: FirewallResource<A>, context: SyncContext, target: Network -> (A, A)) returns (changes: seq<Change<A>>)
    modifies server
    ensures server.rules == Outcome(context.known, context.dryRun, target, old(server.rules))
    ensures changes == Changes(old(server.rules), context.known, target)
  {
    var known, dryRun := context.known, context.dryRun;
    var pending := server.rules;  // the listing's rules not yet visited
    ghost var seen := [];         // the listing's rules already visited
    var live := 0;                // where pending[0] now stands in server.rules
    changes := [];
    while pending != []
      invariant seen + pending == old(server.rules)
      invariant server.rules == Outcome(known, dryRun, target, seen) + pending
      invariant live == |Outcome(known, dryRun, target, seen)|
      invariant changes == Changes(seen, known, target)
    {
      assert pending == [pending[0]] + pending[1..];
      var reported;
      live, reported := SyncRule(server, context, target, live, pending[0], seen, pending[1..]);
      changes := changes + reported;
      seen, pending := seen + [pending[0]], pending[1..];
    }
    assert seen == old(server.rules);
  }

  /**
   * The server loop of a provider: every resource of the listing gets one
   * pass.  A resource listed twice ends up as after one pass, because a pass
   * is idempotent.
   */
  method SyncResources<A(==)>(servers: seq<FirewallResource<A>>, context: SyncContext, target: Network -> (A, A))
    modifies servers
    ensures forall s :: s in servers ==> s.rules == Outcome(context.known, context.dryRun, target, old(s.rules))
  {
    for k := 0 to |servers|
      invariant forall s :: s in servers[..k] ==> s.rules == Outcome(context.known, context.dryRun, target, old(s.rules))
      invariant forall s :: s in servers && s !in servers[..k] ==> s.rules == old(s.rules)
    {
      var server := servers[k];
      assert servers[..k + 1] == servers[..k] + [server];
      OutcomeIdempotent(context.known, context.dryRun, target, old(server.rules));
      var _ := SyncRules(server, context, target);
    }
    assert servers[..|servers|] == servers;
  }
}
