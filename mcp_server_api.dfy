/**
 * The tool-server endpoint (`handleMcpServerRequest`): `POST /api/mcp-server`
 * adds a server, `PUT` and `DELETE /api/mcp-server/<name>` update and remove
 * one. Each request is checked in a fixed order (name, url, existence) and
 * answered with 200, 400, 404, 409 or 500. `Handle` is the decision as a
 * function of the request and the namespace's list; the method runs it
 * against the store through the repository.
 */
module McpServerApi {
  import opened Wrappers
  import opened Text
  import opened Lists
  import opened SharedTypes
  import opened Namespaces
  import opened McpServerRepository

  const CollectionPath: string := "/api/mcp-server"

  function ItemPath(name: string): string
  {
    CollectionPath + "/" + name
  }

  /** The request as the handler sees it; `body` is `None` when the JSON body cannot be read. */
  datatype McpRequest = McpRequest(httpMethod: string, path: string, body: Option<McpServerConfig>)

  /** The JSON bodies the endpoint answers with, and the plain `Not Found` text. */
  datatype ResponseBody =
    | ErrorJson(error: string)
    | Succeeded(server: Option<McpServerConfig>)
    | NotFoundText

  datatype Response = Response(status: int, body: ResponseBody)

  /** The response and the namespace's server list after the request. */
  datatype Handled = Handled(response: Response, servers: seq<McpServerConfig>)

  const InternalError: Response := Response(500, ErrorJson("Internal Server Error"))
  const ServerMissing: Response := Response(404, ErrorJson("MCP server not found"))
  const NoRoute: Response := Response(404, NotFoundText)

  /**
   * The fourth `/`-separated part of the path when there are more than three,
   * else null; a part never holds a `/`.
   */
  function ServerNameOf(path: string): (r: Option<string>)
    ensures r.Some? ==> '/' !in r.value
  {
    var parts := Split(path, '/');
    if |parts| > 3 then Some(parts[3]) else None
  }

  /** A `PUT` or `DELETE` on `/api/mcp-server/<serverName>` with a non-empty server name. */
  predicate IsItemRequest(req: McpRequest, httpMethod: string)
  {
    var serverName := ServerNameOf(req.path);
    serverName.Some? && serverName.value != "" && req.path == ItemPath(serverName.value)
    && req.httpMethod == httpMethod
  }

  /** The body checks, name first and url second. */
  function Invalid(cfg: McpServerConfig): Option<Response>
  {
    if cfg.name == "" then Some(Response(400, ErrorJson("Missing required field: name")))
    else if !Truthy(cfg.url) then Some(Response(400, ErrorJson("Url must be provided")))
    else None
  }

  /** POST: 200 appends a server whose name was free; any other status keeps the list. */
  function HandlePost(body: Option<McpServerConfig>, servers: seq<McpServerConfig>): (h: Handled)
    ensures h.response.status in {200, 400, 409, 500}
    ensures h.response.status == 200 ==>
      body.Some? && !Contains(servers, ServerName, body.value.name) && h.servers == servers + [body.value]
    ensures h.response.status != 200 ==> h.servers == servers
  {
    if body.None? then Handled(InternalError, servers)
    else if Invalid(body.value).Some? then Handled(Invalid(body.value).value, servers)
    else if Contains(servers, ServerName, body.value.name) then
      Handled(Response(409, ErrorJson("MCP server with this name already exists")), servers)
    else Handled(Response(200, Succeeded(Some(body.value))), servers + [body.value])
  }

  /** PUT: 200 rewrites the slot of an existing server, keeping the length; any other status keeps the list. */
  function HandlePut(serverName: string, body: Option<McpServerConfig>, servers: seq<McpServerConfig>): (h: Handled)
    ensures h.response.status in {200, 400, 404, 500}
    ensures h.response.status == 200 ==>
      body.Some? && Contains(servers, ServerName, serverName) && |h.servers| == |servers|
      && body.value in h.servers
    ensures h.response.status != 200 ==> h.servers == servers
  {
    if body.None? then Handled(InternalError, servers)
    else if Invalid(body.value).Some? then Handled(Invalid(body.value).value, servers)
    else
      match ReplaceFirst(servers, ServerName, serverName, body.value)
      case None => Handled(ServerMissing, servers)
      case Some(updated) => Handled(Response(200, Succeeded(Some(body.value))), updated)
  }

  /** DELETE: 200 drops one entry of an existing server; 404 keeps the list. */
  function HandleDelete(serverName: string, servers: seq<McpServerConfig>): (h: Handled)
    ensures h.response.status in {200, 404}
    ensures h.response.status == 200 <==> Contains(servers, ServerName, serverName)
    ensures h.response.status == 200 ==> |h.servers| == |servers| - 1
    ensures h.response.status != 200 ==> h.servers == servers
  {
    match RemoveFirst(servers, ServerName, serverName)
    case None => Handled(ServerMissing, servers)
    case Some(remaining) => Handled(Response(200, Succeeded(None)), remaining)
  }

  /**
   * The routing: collection POST, then item PUT, then item DELETE, else no
   * route. Every status is one of five, and a request that fails any check
   * leaves the store as it was.
   */
  function Handle(req: McpRequest, servers: seq<McpServerConfig>): (h: Handled)
    ensures h.response.status in {200, 400, 404, 409, 500}
    ensures h.response.status != 200 ==> h.servers == servers
  {
    if req.path == CollectionPath && req.httpMethod == "POST" then HandlePost(req.body, servers)
    else if IsItemRequest(req, "PUT") then HandlePut(ServerNameOf(req.path).value, req.body, servers)
    else if IsItemRequest(req, "DELETE") then HandleDelete(ServerNameOf(req.path).value, servers)
    else Handled(NoRoute, servers)
  }

  /** An item path splits into the empty root, `api`, `mcp-server` and the name. */
  lemma ItemPathParts(name: string)
    requires '/' !in name
    ensures Split(ItemPath(name), '/') == ["", "api", "mcp-server", name]
  {
    var t2 := "mcp-server" + ['/'] + name;
    var t1 := "api" + ['/'] + t2;
    assert ItemPath(name) == "" + ['/'] + t1;
    SplitNoSep(name, '/');
    SplitAtSep("mcp-server", '/', name);
    SplitAtSep("api", '/', t2);
    SplitAtSep("", '/', t1);
  }

  /**
   * The item routes are exactly the paths `/api/mcp-server/<name>` whose name
   * holds no `/`: the path's fourth part is then that name.
   */
  lemma ItemRoute(path: string, name: string)
    ensures (ServerNameOf(path) == Some(name) && path == ItemPath(name))
        <==> ('/' !in name && path == ItemPath(name))
  {
    if '/' !in name && path == ItemPath(name) {
      ItemPathParts(name);
    }
  }

  lemma ItemPathInjective(a: string, b: string)
    requires ItemPath(a) == ItemPath(b)
    ensures a == b
  {
    var n := |CollectionPath + "/"|;
    assert a == ItemPath(a)[n..];
    assert b == ItemPath(b)[n..];
  }

  /**
   * `POST /api/mcp-server`: an unreadable body is a 500; a missing name, then
   * a missing url, is a 400; a taken name is a 409 that adds nothing;
   * otherwise the server is appended, the list grows by exactly one and a
   * lookup by the new name finds the body.
   */
  lemma PostOutcomes(body: Option<McpServerConfig>, servers: seq<McpServerConfig>)
    ensures var h := Handle(McpRequest("POST", CollectionPath, body), servers);
      (h.response.status == 500 <==> body.None?)
      && (body.Some? && body.value.name == "" ==> h.response == Response(400, ErrorJson("Missing required field: name")))
      && (body.Some? && body.value.name != "" && !Truthy(body.value.url) ==>
            h.response == Response(400, ErrorJson("Url must be provided")))
      && (h.response.status == 409 <==>
            body.Some? && Invalid(body.value).None? && Contains(servers, ServerName, body.value.name))
      && (h.response.status == 200 <==>
            body.Some? && Invalid(body.value).None? && !Contains(servers, ServerName, body.value.name))
      && (h.response.status == 200 ==>
            h.servers == servers + [body.value] && |h.servers| == |servers| + 1
            && Find(h.servers, ServerName, body.value.name) == Some(body.value))
      && (h.response.status != 200 ==> h.servers == servers)
  {
    var h := Handle(McpRequest("POST", CollectionPath, body), servers);
    if h.response.status == 200 {
      var cfg := body.value;
      assert h.servers[|servers|] == cfg;
      assert forall j :: 0 <= j < |servers| ==> h.servers[j] == servers[j];
      assert IndexOf(h.servers, ServerName, cfg.name) == |servers|;
    }
  }

  /**
   * `PUT /api/mcp-server/<name>`: after the same body checks, a missing
   * server is a 404 with no change; otherwise the first server with that
   * name is replaced by the body at the same index, every other entry is
   * kept, and the body's own name (which may differ) is now present.
   */
  lemma PutOutcomes(name: string, body: Option<McpServerConfig>, servers: seq<McpServerConfig>)
    requires name != "" && '/' !in name
    ensures var h := Handle(McpRequest("PUT", ItemPath(name), body), servers);
      (h.response.status == 500 <==> body.None?)
      && (body.Some? && Invalid(body.value).Some? ==> h.response == Invalid(body.value).value)
      && (h.response == ServerMissing <==>
            body.Some? && Invalid(body.value).None? && !Contains(servers, ServerName, name))
      && (h.response.status == 200 <==>
            body.Some? && Invalid(body.value).None? && Contains(servers, ServerName, name))
      && (h.response.status == 200 ==>
            var i := IndexOf(servers, ServerName, name);
            |h.servers| == |servers| && h.servers[i] == body.value
            && (forall j :: 0 <= j < |servers| && j != i ==> h.servers[j] == servers[j])
            && Contains(h.servers, ServerName, body.value.name))
      && (h.response.status != 200 ==> h.servers == servers)
  {
    ItemRoute(ItemPath(name), name);
    var h := Handle(McpRequest("PUT", ItemPath(name), body), servers);
    if h.response.status == 200 {
      var i := IndexOf(servers, ServerName, name);
      assert ServerName(h.servers[i]) == body.value.name;
    }
  }

  /**
   * `DELETE /api/mcp-server/<name>`: the body is not read; a missing server
   * is a 404 with no change; otherwise only the first server with that name
   * is removed and the others keep their order.
   */
  lemma DeleteOutcomes(name: string, body: Option<McpServerConfig>, servers: seq<McpServerConfig>)
    requires name != "" && '/' !in name
    ensures var h := Handle(McpRequest("DELETE", ItemPath(name), body), servers);
      h == Handle(McpRequest("DELETE", ItemPath(name), None), servers)
      && (h.response == ServerMissing <==> !Contains(servers, ServerName, name))
      && (h.response.status == 200 <==> Contains(servers, ServerName, name))
      && (h.response.status == 200 ==>
            var i := IndexOf(servers, ServerName, name);
            |h.servers| == |servers| - 1
            && h.servers == servers[..i] + servers[i + 1..])
      && (h.response.status != 200 ==> h.servers == servers)
  {
    ItemRoute(ItemPath(name), name);
    var h := Handle(McpRequest("DELETE", ItemPath(name), body), servers);
    if h.response.status == 200 {
      var i := IndexOf(servers, ServerName, name);
      assert h.servers == servers[..i] + servers[i + 1..];
    }
  }

  /** A path with more segments after the server name matches no route: plain 404, no change. */
  lemma ExtraSegmentsNotFound(httpMethod: string, name: string, body: Option<McpServerConfig>,
                              servers: seq<McpServerConfig>)
    requires '/' in name
    ensures Handle(McpRequest(httpMethod, ItemPath(name), body), servers) == Handled(NoRoute, servers)
  {
    var req := McpRequest(httpMethod, ItemPath(name), body);
    assert |ItemPath(name)| > |CollectionPath|;
    var serverName := ServerNameOf(req.path);
    if serverName.Some? && req.path == ItemPath(serverName.value) {
      ItemRoute(req.path, serverName.value);
      ItemPathInjective(serverName.value, name);
    }
  }

  /** Any method other than POST, PUT and DELETE is a plain 404 on every path. */
  lemma OtherMethodsNotFound(req: McpRequest, servers: seq<McpServerConfig>)
    requires req.httpMethod !in {"POST", "PUT", "DELETE"}
    ensures Handle(req, servers) == Handled(NoRoute, servers)
  {
  }

  /** The list the namespace holds once the repository has been constructed. */
  function ServersAfterSeeding(byUser: map<string, seq<McpServerConfig>>, ns: string,
                               env: EnvArray<McpServerConfig>, url: Option<string>): seq<McpServerConfig>
  {
    if ns in byUser then byUser[ns] else SeedServers(env, url)
  }

  /**
   * The handler: builds the repository (seeding the namespace if new), then
   * runs the checks and calls the repository's mutators on success. The
   * response and the namespace's new list are those of `Handle`; no other
   * namespace changes.
   */
  method HandleMcpServerRequest(table: UserTable<McpServerConfig>, env: EnvArray<McpServerConfig>,
                                url: Option<string>, userPrefix: Option<string>, req: McpRequest)
    returns (response: Response)
    modifies table
    ensures var ns := Namespace(userPrefix);
      var h := Handle(req, ServersAfterSeeding(old(table.byUser), ns, env, url));
      response == h.response && table.byUser == old(table.byUser)[ns := h.servers]
  {
    var repo := new McpServerMemoryRepository(table, env, url, userPrefix);
    response := Route(repo, req);
  }

  /** The checks and mutations of one request against an existing repository. */
  method Route(repo: McpServerMemoryRepository, req: McpRequest) returns (response: Response)
    requires repo.Valid()
    modifies repo.table
    ensures repo.Valid()
    ensures var h := Handle(req, old(repo.UserServers()));
      response == h.response && repo.table.byUser == old(repo.table.byUser)[repo.userPrefix := h.servers]
  {
    var serverName := ServerNameOf(req.path);
    if req.path == CollectionPath && req.httpMethod == "POST" {
      response := Post(repo, req.body);
    } else if serverName.Some? && serverName.value != "" && req.path == ItemPath(serverName.value)
              && req.httpMethod == "PUT" {
      response := Put(repo, serverName.value, req.body);
    } else if serverName.Some? && serverName.value != "" && req.path == ItemPath(serverName.value)
              && req.httpMethod == "DELETE" {
      response := Delete(repo, serverName.value);
    } else {
      response := NoRoute;
    }
  }

  method Post(repo: McpServerMemoryRepository, body: Option<McpServerConfig>) returns (response: Response)
    requires repo.Valid()
    modifies repo.table
    ensures repo.Valid()
    ensures var h := HandlePost(body, old(repo.UserServers()));
      response == h.response && repo.table.byUser == old(repo.table.byUser)[repo.userPrefix := h.servers]
  {
    if body.None? {
      return InternalError;
    }
    var cfg := body.value;
    if Invalid(cfg).Some? {
      return Invalid(cfg).value;
    }
    var existing := repo.GetMcpServers();
    if Contains(existing, ServerName, cfg.name) {
      return Response(409, ErrorJson("MCP server with this name already exists"));
    }
    repo.AddMcpserver(cfg);
    response := Response(200, Succeeded(Some(cfg)));
  }

  method Put(repo: McpServerMemoryRepository, serverName: string, body: Option<McpServerConfig>)
    returns (response: Response)
    requires repo.Valid()
    modifies repo.table
    ensures repo.Valid()
    ensures var h := HandlePut(serverName, body, old(repo.UserServers()));
      response == h.response && repo.table.byUser == old(repo.table.byUser)[repo.userPrefix := h.servers]
  {
    if body.None? {
      return InternalError;
    }
    var cfg := body.value;
    if Invalid(cfg).Some? {
      return Invalid(cfg).value;
    }
    var existing := repo.GetMcpServers();
    if !Contains(existing, ServerName, serverName) {
      return ServerMissing;
    }
    // The existence check above means the update cannot throw.
    var _ := repo.UpdateMcpServer(serverName, cfg);
    response := Response(200, Succeeded(Some(cfg)));
  }

  method Delete(repo: McpServerMemoryRepository, serverName: string) returns (response: Response)
    requires repo.Valid()
    modifies repo.table
    ensures repo.Valid()
    ensures var h := HandleDelete(serverName, old(repo.UserServers()));
      response == h.response && repo.table.byUser == old(repo.table.byUser)[repo.userPrefix := h.servers]
  {
    var existing := repo.GetMcpServers();
    if !Contains(existing, ServerName, serverName) {
      return ServerMissing;
    }
    var _ := repo.DeleteMcpServer(serverName);
    response := Response(200, Succeeded(None));
  }
}
