/**
 * The in-memory tool-server store (`McpServerMemoryRepository`): per-namespace
 * arrays of server configurations seeded once from `MCP_SERVERS` or
 * `MCP_SERVER_URL`, with copy-out listing and add / update / delete by name.
 */
module McpServerRepository {
  import opened Wrappers
  import opened Lists
  import opened SharedTypes
  import opened Namespaces

  /**
   * The defaults a new namespace starts with: the parsed `MCP_SERVERS` array
   * when that variable is set; only when it is unset, one server named
   * `'default'` at `MCP_SERVER_URL` if that is set; otherwise nothing.
   */
  function SeedServers(servers: EnvArray<McpServerConfig>, url: Option<string>): (r: seq<McpServerConfig>)
    ensures forall s :: s in r ==> (servers.ArrayValue? && s in servers.items)
                                   || (servers.Unset? && Truthy(url) && s == McpServerConfig("default", url, None, None))
    ensures !servers.ArrayValue? ==> |r| <= 1
  {
    if !servers.Unset? then ArrayOrEmpty(servers)
    else if Truthy(url) then [McpServerConfig("default", url, None, None)]
    else []
  }

  /** Seeding priority: a parsed array wins, then the single url server, then nothing. */
  lemma SeedPriority(servers: EnvArray<McpServerConfig>, url: Option<string>)
    ensures servers.ArrayValue? ==> SeedServers(servers, url) == servers.items
    ensures servers.Unset? && Truthy(url) ==>
      |SeedServers(servers, url)| == 1 && SeedServers(servers, url)[0].name == "default"
      && SeedServers(servers, url)[0].url == url
    ensures servers.Unset? && !Truthy(url) ==> SeedServers(servers, url) == []
  {
  }

  /**
   * Once `MCP_SERVERS` is set, `MCP_SERVER_URL` is not consulted: an invalid
   * or non-array value seeds nothing, whatever the url.
   */
  lemma UrlIgnoredWhenServersSet(servers: EnvArray<McpServerConfig>, url1: Option<string>, url2: Option<string>)
    requires !servers.Unset?
    ensures SeedServers(servers, url1) == SeedServers(servers, url2)
    ensures !servers.ArrayValue? ==> SeedServers(servers, url1) == []
  {
  }

  function ServerNotFound(name: string): string
  {
    "MCP server with name " + name + " not found"
  }

  class McpServerMemoryRepository {
    const table: UserTable<McpServerConfig>
    const userPrefix: string

    ghost predicate Valid()
      reads this, table
    {
      userPrefix in table.byUser
    }

    function UserServers(): seq<McpServerConfig>
      reads this, table
      requires Valid()
    {
      table.byUser[userPrefix]
    }

    /** Seeds the namespace on its first construction only. */
    constructor(table: UserTable<McpServerConfig>, servers: EnvArray<McpServerConfig>, url: Option<string>,
                userPrefix: Option<string>)
      modifies table
      ensures this.table == table && this.userPrefix == Namespace(userPrefix)
      ensures Valid()
      ensures Namespace(userPrefix) in old(table.byUser) ==> table.byUser == old(table.byUser)
      ensures Namespace(userPrefix) !in old(table.byUser) ==>
        table.byUser == old(table.byUser)[Namespace(userPrefix) := SeedServers(servers, url)]
    {
      this.table := table;
      this.userPrefix := Namespace(userPrefix);
      new;
      if this.userPrefix !in table.byUser {
        table.byUser := table.byUser[this.userPrefix := SeedServers(servers, url)];
      }
    }

    /** A copy of the namespace's servers; the store is not changed. */
    method GetMcpServers() returns (servers: seq<McpServerConfig>)
      requires Valid()
      ensures servers == UserServers()
    {
      servers := UserServers();
    }

    /** Appends the server; no check that its name is new. */
    method AddMcpserver(server: McpServerConfig)
      requires Valid()
      modifies table
      ensures Valid()
      ensures table.byUser == old(table.byUser)[userPrefix := old(UserServers()) + [server]]
    {
      table.byUser := table.byUser[userPrefix := UserServers() + [server]];
    }

    /** Replaces the first server with this name in place; throws and changes nothing when there is none. */
    method UpdateMcpServer(name: string, server: McpServerConfig) returns (outcome: Outcome)
      requires Valid()
      modifies table
      ensures Valid()
      ensures !Contains(old(UserServers()), ServerName, name) ==>
        outcome == Fail(ServerNotFound(name)) && table.byUser == old(table.byUser)
      ensures Contains(old(UserServers()), ServerName, name) ==>
        outcome == Pass
        && table.byUser == old(table.byUser)[userPrefix := ReplaceFirst(old(UserServers()), ServerName, name, server).value]
    {
      var updated := ReplaceFirst(UserServers(), ServerName, name, server);
      if updated.None? {
        return Fail(ServerNotFound(name));
      }
      table.byUser := table.byUser[userPrefix := updated.value];
      outcome := Pass;
    }

    /** Removes the first server with this name; throws and changes nothing when there is none. */
    method DeleteMcpServer(name: string) returns (outcome: Outcome)
      requires Valid()
      modifies table
      ensures Valid()
      ensures !Contains(old(UserServers()), ServerName, name) ==>
        outcome == Fail(ServerNotFound(name)) && table.byUser == old(table.byUser)
      ensures Contains(old(UserServers()), ServerName, name) ==>
        outcome == Pass
        && table.byUser == old(table.byUser)[userPrefix := RemoveFirst(old(UserServers()), ServerName, name).value]
    {
      var remaining := RemoveFirst(UserServers(), ServerName, name);
      if remaining.None? {
        return Fail(ServerNotFound(name));
      }
      table.byUser := table.byUser[userPrefix := remaining.value];
      outcome := Pass;
    }
  }
}
