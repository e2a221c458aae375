/**
 * The provider for Azure Cosmos DB for MongoDB (vCore) clusters: the range
 * lives in the rule's properties and is compared and written as text.
 */
module MongoClusterProvider {
  import opened Networks
  import opened FirewallSync

  /** Every cluster of the subscription gets one pass of the rule loop. */
  method HandleAsync(context: SyncContext, lib: IpLibrary)
    modifies context.subscription.mongoClusters
    ensures forall s :: s in context.subscription.mongoClusters ==>
              s.rules == Outcome(context.known, context.dryRun, TextRange(lib), old(s.rules))
  {
    SyncResources(context.subscription.mongoClusters, context, TextRange(lib));
  }
}
