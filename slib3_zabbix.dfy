/**
 * The Python 3 client wrapper of the monitoring server's JSON-RPC API
 * (slib3/zabbix.py), the successor of the Python 2 module: the same login
 * loop, a post loop that never reads an unbound variable, a response rule
 * that tolerates non-dict responses, get builders that merge keyword
 * filters into a fresh filter object, and create/update calls that pass
 * the caller's data through.
 */
module Slib3Zabbix {
  import opened Rpc
  import S2 = Slib2Zabbix

  /**
   * `zabbix_connect`: at most `attempts` logins; the first that succeeds
   * gives the session, and None is returned once all have failed.
   */
  method Connect(host: string, user: string, attempts: int, login: nat -> bool)
    returns (logins: nat, server: Option<Session>)
    ensures server.Some? <==> exists k :: 0 <= k < attempts && login(k)
    ensures server.Some? ==>
      && server.value == Session(host, user)
      && 1 <= logins <= attempts
      && login(logins - 1)
      && forall k :: 0 <= k < logins - 1 ==> !login(k)
    ensures server.None? ==>
      && logins == (if attempts > 0 then attempts else 0)
      && forall k :: 0 <= k < logins ==> !login(k)
  {
    var cnt := 0;
    while cnt < attempts
      invariant cnt == 0 || cnt <= attempts
      invariant forall k :: 0 <= k < cnt ==> !login(k)
    {
      cnt := cnt + 1;
      if login(cnt - 1) {
        logins, server := cnt, Some(Session(host, user));
        return;
      }
    }
    logins, server := cnt, None;
  }

  /**
   * The end of `zabbix_query`: only a dict response is looked at, and in
   * it an `error` member wins over a `result` member.
   */
  function Interpret(response: Json): (r: Option<Json>)
    ensures !response.JObj? ==> r == None
    ensures response.JObj? && "error" in response.fields ==> r == None
    ensures response.JObj? && "error" !in response.fields && "result" in response.fields ==>
      r == Some(response.fields["result"])
    ensures r.Some? <==> response.JObj? && "error" !in response.fields && "result" in response.fields
  {
    match response
    case JObj(m) =>
      if "error" in m then None
      else if "result" in m then Some(m["result"])
      else None
    case _ => None
  }

  /**
   * `zabbix_query`: `response` starts as None, so with no attempt at all
   * nothing is posted and None is returned; otherwise the posts stop at the
   * first one that does not raise.
   */
  method Query(req: Request, attempts: int, post: nat -> Attempt) returns (posts: nat, r: Option<Json>)
    ensures attempts <= 0 ==> posts == 0 && r == None
    ensures attempts > 0 ==> 1 <= posts <= attempts
    ensures forall k :: 0 <= k < posts - 1 ==> post(k).Raised?
    ensures 0 < posts < attempts ==> post(posts - 1).Returned?
    ensures r == Interpret(if posts == 0 then JNull else S2.Received(post(posts - 1)))
  {
    var response := JNull;
    posts := 0;
    while posts < attempts
      invariant posts == 0 || posts <= attempts
      invariant forall k :: 0 <= k < posts ==> post(k).Raised?
      invariant response == JNull
    {
      posts := posts + 1;
      var a := post(posts - 1);
      if a.Returned? {
        response := a.response;
        break;
      }
    }
    r := Interpret(response);
  }

  /**
   * Where the Python 2 query does not raise, both versions give the same
   * answer; where it raises on a response that is not a dict, this one
   * returns None.
   */
  lemma InterpretAgreesWithSlib2(response: Json)
    ensures response.JNull? || response.JObj? ==> S2.Interpret(Some(response)) == S2.Answer(Interpret(response))
    ensures !(response.JNull? || response.JObj?) ==>
      S2.Interpret(Some(response)) == S2.Crash(S2.NoKeys) && Interpret(response) == None
  {
  }

  /** The filter object of a host query: the name filter first, then the keyword filters over it. */
  function HostFilter(name: Json, kwargs: Params): (f: Params)
    ensures f.Keys == kwargs.Keys + (if Truthy(name) then {"host"} else {})
    ensures forall k :: k in kwargs ==> f[k] == kwargs[k]
    ensures Truthy(name) && "host" !in kwargs ==> Maps(f, "host", name)
  {
    (if Truthy(name) then map["host" := name] else map[]) + kwargs
  }

  /**
   * `zabbix_host_get` parameters: a keyword filter `host` overrides the
   * name; without a name every host is searched.
   */
  function HostGet(name: Json, extendGroups: bool, kwargs: Params): (p: Params)
    ensures Maps(p, "output", Extend) && Maps(p, "sortfield", JStr("name"))
    ensures Maps(p, "filter", JObj(HostFilter(name, kwargs)))
    ensures "search" in p <==> !Truthy(name)
    ensures "search" in p ==> p["search"] == JObj(map["host" := JStr("")])
    ensures "selectGroups" in p <==> extendGroups
    ensures extendGroups ==> Maps(p, "selectGroups", Extend)
  {
    var base := map["output" := Extend, "sortfield" := JStr("name")];
    var searched := if Truthy(name) then base else base["search" := JObj(map["host" := JStr("")])];
    var withGroups := if extendGroups then searched["selectGroups" := Extend] else searched;
    withGroups["filter" := JObj(HostFilter(name, kwargs))]
  }

  /** `zabbix_item_get` parameters. */
  function ItemGet(host: Json, kwargs: Params): (p: Params)
    ensures TargetsHost(p, host)
    ensures Maps(p, "output", Extend) && Maps(p, "filter", JObj(kwargs))
    ensures p.Keys == {"output", "filter", if IsPyInt(host) then "hostids" else "host"}
  {
    var base := map["output" := Extend, "filter" := JObj(map[])];
    var target := if IsPyInt(host) then base["hostids" := host] else base["host" := host];
    target["filter" := JObj(map[] + kwargs)]
  }

  /** `zabbix_trigger_get` parameters: as for items, with the trigger functions expanded. */
  function TriggerGet(host: Json, kwargs: Params): (p: Params)
    ensures TargetsHost(p, host)
    ensures Maps(p, "output", Extend) && Maps(p, "selectFunctions", Extend) && Maps(p, "filter", JObj(kwargs))
    ensures p.Keys == {"output", "selectFunctions", "filter", if IsPyInt(host) then "hostids" else "host"}
  {
    var base := map["output" := Extend, "selectFunctions" := Extend, "filter" := JObj(map[])];
    var target := if IsPyInt(host) then base["hostids" := host] else base["host" := host];
    target["filter" := JObj(map[] + kwargs)]
  }

  /**
   * `zabbix_template_get` parameters: `with_items` is always true (the
   * `extend_items` switch sets it to the value it already has).
   */
  function TemplateGet(name: Json, extendItems: bool, extendDiscoveries: bool, kwargs: Params): (p: Params)
    ensures Maps(p, "with_items", JBool(true)) && Maps(p, "output", Extend) && Maps(p, "sortfield", JStr("name"))
    ensures IsPyInt(name) ==> Maps(p, "templateids", name) && Maps(p, "filter", JObj(kwargs))
    ensures !IsPyInt(name) ==> "templateids" !in p && Maps(p, "filter", JObj(map["host" := name] + kwargs))
    ensures "selectDiscoveries" in p <==> extendDiscoveries
    ensures extendDiscoveries ==> Maps(p, "selectDiscoveries", Extend)
  {
    var base := map["output" := Extend, "sortfield" := JStr("name"), "with_items" := JBool(true),
                    "filter" := JObj(map[])];
    var byName := if IsPyInt(name) then base["templateids" := name] else base;
    var filter: Params := if IsPyInt(name) then map[] else map["host" := name];
    var withItems := if extendItems then byName["with_items" := JBool(true)] else byName;
    var withDiscoveries := if extendDiscoveries then withItems["selectDiscoveries" := Extend] else withItems;
    assert IsPyInt(name) ==> filter + kwargs == kwargs;
    withDiscoveries["filter" := JObj(filter + kwargs)]
  }

  /**
   * `zabbix_discoveryrule_get` parameters: the filter is the keyword dict
   * itself, then updated with itself, which changes nothing.
   */
  function DiscoveryruleGet(host: Json, extendItems: bool, kwargs: Params): (p: Params)
    ensures TargetsHost(p, host)
    ensures Maps(p, "output", Extend) && Maps(p, "filter", JObj(kwargs))
    ensures "selectItems" in p <==> extendItems
    ensures extendItems ==> Maps(p, "selectItems", Extend)
  {
    var base := map["output" := Extend, "filter" := JObj(map[])];
    var target := if IsPyInt(host) then base["hostids" := host] else base["host" := host];
    var withItems := if extendItems then target["selectItems" := Extend] else target;
    var filter := kwargs;
    withItems["filter" := JObj(filter + kwargs)]
  }

  /**
   * `zabbix_graph_get`, `zabbix_screen_get` and `zabbix_application_get`
   * share one parameter shape.
   */
  function SortedByNameGet(kwargs: Params): (p: Params)
    ensures p.Keys == {"output", "sortfield", "filter"}
    ensures Maps(p, "output", Extend) && Maps(p, "sortfield", JStr("name")) && Maps(p, "filter", JObj(kwargs))
  {
    var base := map["output" := Extend, "sortfield" := JStr("name"), "filter" := JObj(map[])];
    base["filter" := JObj(map[] + kwargs)]
  }

  /** Item, trigger, discovery-rule and graph parameters are the same in both versions. */
  lemma BuildersAgreeWithSlib2(host: Json, selectItems: bool, kwargs: Params)
    ensures ItemGet(host, kwargs) == S2.GetItemParams(host, kwargs)
    ensures TriggerGet(host, kwargs) == S2.GetTriggerParams(host, kwargs)
    ensures DiscoveryruleGet(host, selectItems, kwargs) == S2.GetDiscoveryruleParams(host, selectItems, kwargs)
    ensures SortedByNameGet(kwargs) == S2.SortedByNameParams(kwargs)
  {
  }

  /** The Python 3 template query differs from the Python 2 one only by the ineffective `extend_items`. */
  lemma TemplateAgreesWithSlib2(name: Json, extendItems: bool, extendDiscoveries: bool, kwargs: Params)
    ensures TemplateGet(name, extendItems, extendDiscoveries, kwargs) == S2.GetTemplateParams(name, extendDiscoveries, kwargs)
  {
  }

  /**
   * Without keyword filters the two host queries agree on a name, and
   * without a name the Python 3 one adds an empty filter next to the search.
   */
  lemma HostGetAgainstSlib2(name: Json, extendGroups: bool)
    ensures Truthy(name) ==> HostGet(name, extendGroups, map[]) == S2.GetHostParams(name, extendGroups)
    ensures !Truthy(name) ==>
      HostGet(name, extendGroups, map[]) == S2.GetHostParams(name, extendGroups)["filter" := JObj(map[])]
  {
    var base := map["output" := Extend, "sortfield" := JStr("name")];
    var withGroups := if extendGroups then base["selectGroups" := Extend] else base;
    if Truthy(name) {
      assert HostFilter(name, map[]) == map["host" := name];
      assert HostGet(name, extendGroups, map[]) == withGroups["filter" := JObj(map["host" := name])];
    } else {
      assert HostFilter(name, map[]) == map[];
      assert HostGet(name, extendGroups, map[]) ==
        withGroups["search" := JObj(map["host" := JStr("")])]["filter" := JObj(map[])];
    }
  }

  /** The calls that return the query result unchanged. */
  datatype Passthrough =
    | ItemCreate(data: Json)
    | ItemUpdate(data: Json)
    | TriggerCreate(data: Json)
    | TriggerUpdate(data: Json)
    | TriggerAddDependencies(trigger: Json, dependsOnTriggerId: Json)
    | GraphCreate(data: Json)
    | GraphUpdate(data: Json)
    | ScreenCreate(data: Json)
    | ScreenUpdate(data: Json)
    | ApplicationCreate(hostid: Json, name: Json)

  /** The API method each call uses. */
  function MethodOf(c: Passthrough): string {
    match c
    case ItemCreate(_) => "item.create"
    case ItemUpdate(_) => "item.update"
    case TriggerCreate(_) => "trigger.create"
    case TriggerUpdate(_) => "trigger.update"
    case TriggerAddDependencies(_, _) => "trigger.adddependencies"
    case GraphCreate(_) => "graph.create"
    case GraphUpdate(_) => "graph.update"
    case ScreenCreate(_) => "screen.create"
    case ScreenUpdate(_) => "screen.update"
    case ApplicationCreate(_, _) => "application.create"
  }

  /** The request a call posts: the caller's data unchanged under the call's fixed method. */
  function PassthroughRequest(c: Passthrough): (req: Request)
    ensures req.methodName == MethodOf(c)
    ensures !(c.TriggerAddDependencies? || c.ApplicationCreate?) ==> req.params == c.data
    ensures c.TriggerAddDependencies? ==>
      req.params == JObj(map["triggerid" := c.trigger, "dependsOnTriggerid" := c.dependsOnTriggerId])
    ensures c.ApplicationCreate? ==> req.params == JObj(map["hostid" := c.hostid, "name" := c.name])
  {
    match c
    case TriggerAddDependencies(trigger, dependsOn) =>
      Request(MethodOf(c), JObj(map["triggerid" := trigger, "dependsOnTriggerid" := dependsOn]))
    case ApplicationCreate(hostid, name) =>
      Request(MethodOf(c), JObj(map["hostid" := hostid, "name" := name]))
    case _ => Request(MethodOf(c), c.data)
  }

  /** A create or update call: one query with the default single attempt, its result returned as is. */
  method Call(c: Passthrough, post: nat -> Attempt) returns (r: Option<Json>)
    ensures r == Interpret(S2.Received(post(0)))
    ensures r.Some? ==> post(0).Returned? && post(0).response.JObj?
  {
    var posts;
    posts, r := Query(PassthroughRequest(c), 1, post);
  }
}
