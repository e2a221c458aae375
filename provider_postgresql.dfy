/** The provider for Azure Database for PostgreSQL, single and flexible servers: ranges are compared as addresses. */
module PostgreSqlProvider {
  import opened Networks
  import opened FirewallSync

  /** Single servers: one pass of the rule loop on each. */
  method HandleLegacyAsync(context: SyncContext, lib: IpLibrary)
    modifies context.subscription.postgreSqlServers
    ensures forall s :: s in context.subscription.postgreSqlServers ==>
              s.rules == Outcome(context.known, context.dryRun, AddressRange(lib), old(s.rules))
  {
    SyncResources(context.subscription.postgreSqlServers, context, AddressRange(lib));
  }

  /** Flexible servers: one pass of the rule loop on each. */
  method HandleFlexibleAsync(context: SyncContext, lib: IpLibrary)
    modifies context.subscription.flexibleServers
    ensures forall s :: s in context.subscription.flexibleServers ==>
              s.rules == Outcome(context.known, context.dryRun, AddressRange(lib), old(s.rules))
  {
    SyncResources(context.subscription.flexibleServers, context, AddressRange(lib));
  }

  /** Single servers first, then flexible servers; each ends up as after one pass. */
  method HandleAsync(context: SyncContext, lib: IpLibrary)
    modifies context.subscription.postgreSqlServers, context.subscription.flexibleServers
    ensures forall s :: s in context.subscription.postgreSqlServers || s in context.subscription.flexibleServers ==>
              s.rules == Outcome(context.known, context.dryRun, AddressRange(lib), old(s.rules))
  {
    var legacy, flexible := context.subscription.postgreSqlServers, context.subscription.flexibleServers;
    HandleLegacyAsync(context, lib);
    HandleFlexibleAsync(context, lib);
    forall s | s in flexible
      ensures s.rules == Outcome(context.known, context.dryRun, AddressRange(lib), old(s.rules))
    {
      OutcomeIdempotent(context.known, context.dryRun, AddressRange(lib), old(s.rules));
    }
  }
}
