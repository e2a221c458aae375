/**
 * The provider for Azure SQL: standalone servers get the rule loop with the
 * range compared and written as text; managed instances and instance pools
 * are not handled.
 */
module SqlProvider {
  import opened Networks
  import opened FirewallSync

  /** Standalone servers: one pass of the rule loop on each. */
  method HandleStandaloneAsync(context: SyncContext, lib: IpLibrary)
    modifies context.subscription.sqlServers
    ensures forall s :: s in context.subscription.sqlServers ==>
              s.rules == Outcome(context.known, context.dryRun, TextRange(lib), old(s.rules))
  {
    SyncResources(context.subscription.sqlServers, context, TextRange(lib));
  }

  /** Managed instances: not handled, nothing is read or changed. */
  method HandleManagedInstancesAsync(context: SyncContext)
    ensures forall s :: s in context.subscription.sqlServers ==> s.rules == old(s.rules)
  {
  }

  /** Managed instance pools: not handled, nothing is read or changed. */
  method HandleManagedInstancePoolsAsync(context: SyncContext)
    ensures forall s :: s in context.subscription.sqlServers ==> s.rules == old(s.rules)
  {
  }

  /** Standalone servers, then the two no-op handlers. */
  method HandleAsync(context: SyncContext, lib: IpLibrary)
    modifies context.subscription.sqlServers
    ensures forall s :: s in context.subscription.sqlServers ==>
              s.rules == Outcome(context.known, context.dryRun, TextRange(lib), old(s.rules))
  {
    HandleStandaloneAsync(context, lib);
    HandleManagedInstancesAsync(context);
    HandleManagedInstancePoolsAsync(context);
  }
}
