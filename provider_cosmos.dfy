/** The provider for Azure Cosmos DB for PostgreSQL clusters: rule ranges are compared as addresses. */
module CosmosForPostgreSqlProvider {
  import opened Networks
  import opened FirewallSync

  /** Every cluster of the subscription gets one pass of the rule loop. */
  method HandleAsync(context: SyncContext, lib: IpLibrary)
    modifies context.subscription.cosmosClusters
    ensures forall s :: s in context.subscription.cosmosClusters ==>
              s.rules == Outcome(context.known, context.dryRun, AddressRange(lib), old(s.rules))
  {
    SyncResources(context.subscription.cosmosClusters, context, AddressRange(lib));
  }
}
