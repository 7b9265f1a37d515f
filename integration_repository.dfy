/**
 * The in-memory integration store (`IntegrationMemoryRepository`):
 * per-namespace arrays that start empty, with copy-out listing and add /
 * update / delete by name.
 */
module IntegrationRepository {
  import opened Wrappers
  import opened Lists
  import opened SharedTypes
  import opened Namespaces

  function IntegrationNotFound(name: string): string
  {
    "Integration with name " + name + " not found"
  }

  class IntegrationMemoryRepository {
    const table: UserTable<IntegrationConfig>
    const userPrefix: string

    ghost predicate Valid()
      reads this, table
    {
      userPrefix in table.byUser
    }

    function UserIntegrations(): seq<IntegrationConfig>
      reads this, table
      requires Valid()
    {
      table.byUser[userPrefix]
    }

    /** Creates the namespace empty if it is absent; an existing one is never cleared. */
    constructor(table: UserTable<IntegrationConfig>, userPrefix: Option<string>)
      modifies table
      ensures this.table == table && this.userPrefix == Namespace(userPrefix)
      ensures Valid()
      ensures Namespace(userPrefix) in old(table.byUser) ==> table.byUser == old(table.byUser)
      ensures Namespace(userPrefix) !in old(table.byUser) ==>
        table.byUser == old(table.byUser)[Namespace(userPrefix) := []]
    {
      this.table := table;
      this.userPrefix := Namespace(userPrefix);
      new;
      if this.userPrefix !in table.byUser {
        table.byUser := table.byUser[this.userPrefix := []];
      }
    }

    /** A copy of the namespace's integrations; the store is not changed. */
    method GetIntegrations() returns (integrations: seq<IntegrationConfig>)
      requires Valid()
      ensures integrations == UserIntegrations()
    {
      integrations := UserIntegrations();
    }

    /** Appends the integration; no check that its name is new. */
    method AddIntegration(integration: IntegrationConfig)
      requires Valid()
      modifies table
      ensures Valid()
      ensures table.byUser == old(table.byUser)[userPrefix := old(UserIntegrations()) + [integration]]
    {
      table.byUser := table.byUser[userPrefix := UserIntegrations() + [integration]];
    }

    /** Replaces the first integration with this name in place; throws and changes nothing when there is none. */
    method UpdateIntegration(name: string, integration: IntegrationConfig) returns (outcome: Outcome)
      requires Valid()
      modifies table
      ensures Valid()
      ensures !Contains(old(UserIntegrations()), IntegrationName, name) ==>
        outcome == Fail(IntegrationNotFound(name)) && table.byUser == old(table.byUser)
      ensures Contains(old(UserIntegrations()), IntegrationName, name) ==>
        outcome == Pass
        && table.byUser == old(table.byUser)[userPrefix :=
             ReplaceFirst(old(UserIntegrations()), IntegrationName, name, integration).value]
    {
      var updated := ReplaceFirst(UserIntegrations(), IntegrationName, name, integration);
      if updated.None? {
        return Fail(IntegrationNotFound(name));
      }
      table.byUser := table.byUser[userPrefix := updated.value];
      outcome := Pass;
    }

    /** Removes the first integration with this name; throws and changes nothing when there is none. */
    method DeleteIntegration(name: string) returns (outcome: Outcome)
      requires Valid()
      modifies table
      ensures Valid()
      ensures !Contains(old(UserIntegrations()), IntegrationName, name) ==>
        outcome == Fail(IntegrationNotFound(name)) && table.byUser == old(table.byUser)
      ensures Contains(old(UserIntegrations()), IntegrationName, name) ==>
        outcome == Pass
        && table.byUser == old(table.byUser)[userPrefix := RemoveFirst(old(UserIntegrations()), IntegrationName, name).value]
    {
      var remaining := RemoveFirst(UserIntegrations(), IntegrationName, name);
      if remaining.None? {
        return Fail(IntegrationNotFound(name));
      }
      table.byUser := table.byUser[userPrefix := remaining.value];
      outcome := Pass;
    }
  }
}
