/**
 * The Python 2 client wrapper of the monitoring server's JSON-RPC API
 * (slib2/s_zabbix3.py): a login loop, a post loop with a fixed number of
 * attempts, the rule that turns a response into a result, and the builders
 * of the parameter objects of the get calls.
 *
 * The API client object is not modelled: the k-th login attempt and the
 * k-th post of a request are given as functions from the attempt number.
 */
module Slib2Zabbix {
  import opened Text
  import opened Rpc

  /** The exceptions this module itself can raise. */
  datatype PyError =
    | UnboundResult   // a local variable read before any assignment (NameError)
    | NoKeys          // `.keys()` called on a response that is not a dict (AttributeError)
    | UnexpectedKeyword(names: set<string>)  // keywords the function does not declare (TypeError)

  /** What `zabbix_query` does: return a value or None, or raise. */
  datatype QueryResult = Answer(value: Option<Json>) | Crash(error: PyError)

  /**
   * `zabbix_connect`: at most `attempts` logins; the first that succeeds
   * gives the session, and None is returned once all have failed.
   */
  method Connect(host: string, user: string, attempts: int, login: nat -> bool)
    returns (logins: nat, server: Option<Session>)
    ensures server.Some? <==> exists k :: 0 <= k < attempts && login(k)
    ensures server.Some? ==>
      && server.value == Session(host, user)
      && 1 <= logins <= attempts
      && login(logins - 1)
      && forall k :: 0 <= k < logins - 1 ==> !login(k)
    ensures server.None? ==>
      && logins == (if attempts > 0 then attempts else 0)
      && forall k :: 0 <= k < logins ==> !login(k)
  {
    logins := 0;
    while logins < attempts
      invariant logins == 0 || logins <= attempts
      invariant forall k :: 0 <= k < logins ==> !login(k)
    {
      logins := logins + 1;
      if login(logins - 1) {
        return logins, Some(Session(host, user));
      }
    }
    server := None;
  }

  /** What the variable `result` holds after a post: the response, or None when the post raised. */
  function Received(a: Attempt): Json {
    match a
    case Raised => JNull
    case Returned(response) => response
  }

  /**
   * The end of `zabbix_query`: `result` is None when unbound (no post was
   * made) and `Some(v)` once assigned the value `v`.  An `error` member
   * wins over a `result` member; a dict with neither gives None.
   */
  function Interpret(result: Option<Json>): (r: QueryResult)
    ensures result.None? ==> r == Crash(UnboundResult)
    ensures result == Some(JNull) ==> r == Answer(None)
    ensures result.Some? && result.value.JObj? ==>
      r == Answer(if "error" in result.value.fields then None
                  else if "result" in result.value.fields then Some(result.value.fields["result"])
                  else None)
    ensures result.Some? && !result.value.JObj? && !result.value.JNull? ==> r == Crash(NoKeys)
  {
    match result
    case None => Crash(UnboundResult)
    case Some(JNull) => Answer(None)
    case Some(JObj(m)) =>
      if "error" in m then Answer(None)
      else if "result" in m then Answer(Some(m["result"]))
      else Answer(None)
    case Some(_) => Crash(NoKeys)
  }

  /**
   * `zabbix_query`: posts `req` at most `attempts` times, stopping after
   * the first post that does not raise; `post(k)` is what the k-th post
   * does.  `posts` is the number of posts made.
   */
  method Query(req: Request, attempts: int, post: nat -> Attempt) returns (posts: nat, r: QueryResult)
    ensures attempts <= 0 ==> posts == 0 && r == Crash(UnboundResult)
    ensures attempts > 0 ==> 1 <= posts <= attempts && r.Answer? == (posts == 0 || Received(post(posts - 1)).JNull? || Received(post(posts - 1)).JObj?)
    ensures forall k :: 0 <= k < posts - 1 ==> post(k).Raised?
    ensures 0 < posts < attempts ==> post(posts - 1).Returned?
    ensures r == Interpret(if posts == 0 then None else Some(Received(post(posts - 1))))
  {
    var result: Option<Json> := None;
    posts := 0;
    while posts < attempts
      invariant posts == 0 || posts <= attempts
      invariant forall k :: 0 <= k < posts ==> post(k).Raised?
      invariant result == if posts == 0 then None else Some(JNull)
    {
      posts := posts + 1;
      var a := post(posts - 1);
      if a.Returned? {
        result := Some(a.response);
        break;
      }
      result := Some(JNull);
    }
    r := Interpret(result);
  }

  /**
   * `zabbix_get_host` parameters: output and sort order fixed, groups only
   * when asked, an exact host filter when a name is given and otherwise a
   * search that matches every host.
   */
  function GetHostParams(name: Json, selectGroups: bool): (p: Params)
    ensures Maps(p, "output", Extend) && Maps(p, "sortfield", JStr("name"))
    ensures "selectGroups" in p <==> selectGroups
    ensures selectGroups ==> Maps(p, "selectGroups", Extend)
    ensures Truthy(name) ==> Maps(p, "filter", JObj(map["host" := name])) && "search" !in p
    ensures !Truthy(name) ==> Maps(p, "search", JObj(map["host" := JStr("")])) && "filter" !in p
    ensures p.Keys <= {"output", "sortfield", "selectGroups", "filter", "search"}
  {
    var base := map["output" := Extend, "sortfield" := JStr("name")];
    var withGroups := if selectGroups then base["selectGroups" := Extend] else base;
    if Truthy(name) then withGroups["filter" := JObj(map["host" := name])]
    else withGroups["search" := JObj(map["host" := JStr("")])]
  }

  /** The keywords `zabbix_get_host` declares besides the server. */
  const GetHostKeywords: set<string> := {"name", "selectGroups", "attempts"}

  /**
   * Binding a call of `zabbix_get_host` made with keyword arguments: the
   * function takes no `**kwargs`, so any other keyword raises TypeError
   * before the body runs.
   */
  function BindGetHost(kwargs: Params): (r: Result<Params>)
    ensures r.Ok? <==> kwargs.Keys <= GetHostKeywords
    ensures r.Err? ==> r.error == UnexpectedKeyword(kwargs.Keys - GetHostKeywords) && r.error.names != {}
    ensures r.Ok? ==> r.value == GetHostParams(
      if "name" in kwargs then kwargs["name"] else JNull,
      "selectGroups" in kwargs && Truthy(kwargs["selectGroups"]))
  {
    if kwargs.Keys <= GetHostKeywords then
      Ok(GetHostParams(if "name" in kwargs then kwargs["name"] else JNull,
                       "selectGroups" in kwargs && Truthy(kwargs["selectGroups"])))
    else
      Err(UnexpectedKeyword(kwargs.Keys - GetHostKeywords))
  }

  datatype Result<T> = Ok(value: T) | Err(error: PyError)

  /**
   * `zabbix_get_template` parameters: templates with items, selected by id
   * when `name` is an int and otherwise by a host filter that the keyword
   * filters then extend or override.
   */
  function GetTemplateParams(name: Json, selectDiscoveries: bool, kwargs: Params): (p: Params)
    ensures Maps(p, "output", Extend) && Maps(p, "sortfield", JStr("name")) && Maps(p, "with_items", JBool(true))
    ensures "selectDiscoveries" in p <==> selectDiscoveries
    ensures selectDiscoveries ==> Maps(p, "selectDiscoveries", Extend)
    ensures IsPyInt(name) ==> Maps(p, "templateids", name) && Maps(p, "filter", JObj(kwargs))
    ensures !IsPyInt(name) ==> "templateids" !in p && Maps(p, "filter", JObj(map["host" := name] + kwargs))
  {
    var base := map["output" := Extend, "sortfield" := JStr("name"), "with_items" := JBool(true)];
    var byName := if IsPyInt(name) then base["templateids" := name] else base;
    var filter: Params := if IsPyInt(name) then map[] else map["host" := name];
    assert IsPyInt(name) ==> filter + kwargs == kwargs;
    var withDiscoveries := if selectDiscoveries then byName["selectDiscoveries" := Extend] else byName;
    withDiscoveries["filter" := JObj(filter + kwargs)]
  }

  /** `zabbix_get_discoveryrule` parameters: the filter is exactly the keyword filters. */
  function GetDiscoveryruleParams(host: Json, selectItems: bool, kwargs: Params): (p: Params)
    ensures TargetsHost(p, host)
    ensures Maps(p, "output", Extend) && Maps(p, "filter", JObj(kwargs))
    ensures "selectItems" in p <==> selectItems
    ensures selectItems ==> Maps(p, "selectItems", Extend)
  {
    var base := map["output" := Extend, "filter" := JObj(map[])];
    var target := if IsPyInt(host) then base["hostids" := host] else base["host" := host];
    var withItems := if selectItems then target["selectItems" := Extend] else target;
    withItems["filter" := JObj(kwargs)]
  }

  /** `zabbix_get_item` parameters. */
  function GetItemParams(host: Json, kwargs: Params): (p: Params)
    ensures TargetsHost(p, host)
    ensures Maps(p, "output", Extend) && Maps(p, "filter", JObj(kwargs))
    ensures p.Keys == {"output", "filter", if IsPyInt(host) then "hostids" else "host"}
  {
    var base := map["output" := Extend];
    var target := if IsPyInt(host) then base["hostids" := host] else base["host" := host];
    target["filter" := JObj(kwargs)]
  }

  /** `zabbix_get_trigger` parameters: as for items, and the trigger functions are always expanded. */
  function GetTriggerParams(host: Json, kwargs: Params): (p: Params)
    ensures TargetsHost(p, host)
    ensures Maps(p, "output", Extend) && Maps(p, "selectFunctions", Extend) && Maps(p, "filter", JObj(kwargs))
    ensures p.Keys == {"output", "selectFunctions", "filter", if IsPyInt(host) then "hostids" else "host"}
  {
    var base := map["output" := Extend, "selectFunctions" := Extend];
    var target := if IsPyInt(host) then base["hostids" := host] else base["host" := host];
    target["filter" := JObj(kwargs)]
  }

  /**
   * `zabbix_get_graph`, `zabbix_get_screen` and `zabbix_get_application`
   * share one parameter shape and differ only in the method name.
   */
  function SortedByNameParams(kwargs: Params): (p: Params)
    ensures p.Keys == {"output", "sortfield", "filter"}
    ensures Maps(p, "output", Extend) && Maps(p, "sortfield", JStr("name")) && Maps(p, "filter", JObj(kwargs))
  {
    map["output" := Extend, "sortfield" := JStr("name"), "filter" := JObj(kwargs)]
  }

  /** `zabbix_get_history` parameters: the keywords go to the top level and override the defaults. */
  function GetHistoryParams(kwargs: Params): (p: Params)
    ensures p.Keys == {"output", "sortfield"} + kwargs.Keys
    ensures forall k :: k in kwargs ==> p[k] == kwargs[k]
    ensures "output" !in kwargs ==> Maps(p, "output", Extend)
    ensures "sortfield" !in kwargs ==> Maps(p, "sortfield", JStr("clock"))
  {
    map["output" := Extend, "sortfield" := JStr("clock")] + kwargs
  }

  /** `zabbix_get_proxy` parameters: by id for a non-zero int, by host filter for a non-empty string. */
  function GetProxyParams(proxy: Json): (p: Params)
    ensures Maps(p, "output", Extend) && Maps(p, "selectInterface", Extend)
    ensures "proxyids" in p <==> Truthy(proxy) && IsPyInt(proxy)
    ensures "filter" in p <==> Truthy(proxy) && (proxy.JStr? || proxy.JBytes?)
    ensures "proxyids" in p ==> Maps(p, "proxyids", proxy)
    ensures "filter" in p ==> Maps(p, "filter", JObj(map["host" := proxy]))
  {
    var base := map["output" := Extend, "selectInterface" := Extend];
    if Truthy(proxy) && IsPyInt(proxy) then base["proxyids" := proxy]
    else if Truthy(proxy) && (proxy.JStr? || proxy.JBytes?) then base["filter" := JObj(map["host" := proxy])]
    else base
  }

  /** The calls whose result is replaced by an empty list when it is falsy. */
  datatype Wrapper =
    | GetHostinterface(hostid: Json, main: bool)
    | CreateTrigger(trigger: Json)
    | TriggerAddDependencies(trigger: Json, dependsOnTriggerid: Json)
    | CreateItem(item: Json)
    | CreateApplication(hostid: Json, name: Json)
    | CreateGraph(graph: Json)
    | CreateScreen(screen: Json)
    | GetConfiguration
    | UpdateItem(item: Json)
    | UpdateGraph(graph: Json)
    | UpdateScreen(screen: Json)
    | UpdateTrigger(trigger: Json)

  /** The API method each wrapper calls. */
  function WrapperMethod(w: Wrapper): string {
    match w
    case GetHostinterface(_, _) => "hostinterface.get"
    case CreateTrigger(_) => "trigger.create"
    case TriggerAddDependencies(_, _) => "trigger.adddependencies"
    case CreateItem(_) => "item.create"
    case CreateApplication(_, _) => "application.create"
    case CreateGraph(_) => "graph.create"
    case CreateScreen(_) => "screen.create"
    case GetConfiguration => "configuration.export"
    case UpdateItem(_) => "item.update"
    case UpdateGraph(_) => "graph.update"
    case UpdateScreen(_) => "screen.update"
    case UpdateTrigger(_) => "trigger.update"
  }

  /**
   * The request each wrapper posts: the create and update calls send the
   * caller's object unchanged; the others build their parameter object
   * from their arguments.
   */
  function WrapperRequest(w: Wrapper): (req: Request)
    ensures req.methodName == WrapperMethod(w)
    ensures w.CreateTrigger? || w.UpdateTrigger? ==> req.params == w.trigger
    ensures w.CreateItem? || w.UpdateItem? ==> req.params == w.item
    ensures w.CreateGraph? || w.UpdateGraph? ==> req.params == w.graph
    ensures w.CreateScreen? || w.UpdateScreen? ==> req.params == w.screen
    ensures w.TriggerAddDependencies? ==>
      req.params == JObj(map["triggerid" := w.trigger, "dependsOnTriggerid" := w.dependsOnTriggerid])
    ensures w.CreateApplication? ==> req.params == JObj(map["hostid" := w.hostid, "name" := w.name])
    ensures w.GetConfiguration? ==> req.params == JObj(map["format" := JStr("xml"), "options" := JStr("groups")])
    ensures w.GetHostinterface? ==>
      req.params.JObj? && Maps(req.params.fields, "output", Extend) &&
      Maps(req.params.fields, "hostids", w.hostid) &&
      req.params.fields.Keys == (if w.main then {"output", "hostids", "filter"} else {"output", "hostids"}) &&
      (w.main ==> Maps(req.params.fields, "filter", JObj(map["main" := JInt(1)])))
  {
    match w
    case GetHostinterface(hostid, main) =>
      var base := map["output" := Extend, "hostids" := hostid];
      Request(WrapperMethod(w), JObj(if main then base["filter" := JObj(map["main" := JInt(1)])] else base))
    case TriggerAddDependencies(trigger, dependsOn) =>
      Request(WrapperMethod(w), JObj(map["triggerid" := trigger, "dependsOnTriggerid" := dependsOn]))
    case CreateApplication(hostid, name) =>
      Request(WrapperMethod(w), JObj(map["hostid" := hostid, "name" := name]))
    case GetConfiguration =>
      Request(WrapperMethod(w), JObj(map["format" := JStr("xml"), "options" := JStr("groups")]))
    case CreateTrigger(trigger) => Request(WrapperMethod(w), trigger)
    case UpdateTrigger(trigger) => Request(WrapperMethod(w), trigger)
    case CreateItem(item) => Request(WrapperMethod(w), item)
    case UpdateItem(item) => Request(WrapperMethod(w), item)
    case CreateGraph(graph) => Request(WrapperMethod(w), graph)
    case UpdateGraph(graph) => Request(WrapperMethod(w), graph)
    case CreateScreen(screen) => Request(WrapperMethod(w), screen)
    case UpdateScreen(screen) => Request(WrapperMethod(w), screen)
  }

  /** `if result: return result else: return list()`. */
  function OrEmpty(q: QueryResult): (r: QueryResult)
    ensures q.Crash? ==> r == q
    ensures q.Answer? ==> r.Answer? && r.value.Some?
    ensures q.Answer? && q.value.Some? && Truthy(q.value.value) ==> r == q
    ensures q.Answer? && !(q.value.Some? && Truthy(q.value.value)) ==> r.value.value == JList([])
  {
    match q
    case Crash(_) => q
    case Answer(v) => if v.Some? && Truthy(v.value) then q else Answer(Some(JList([])))
  }

  /**
   * A wrapper call: one query with the default single attempt, then an
   * empty list in place of a falsy result.
   */
  method CallWrapper(w: Wrapper, post: nat -> Attempt) returns (r: QueryResult)
    ensures r.Answer? ==> r.value.Some? && (Truthy(r.value.value) || r.value.value == JList([]))
    ensures r == OrEmpty(Interpret(Some(Received(post(0)))))
  {
    var posts, q := Query(WrapperRequest(w), 1, post);
    r := OrEmpty(q);
  }

  /**
   * The guard of `zabbix_trigger_get_by_id` as Python 2 evaluates it: an
   * `int` (or bool), or a byte string `str` of digits.  A `unicode` string,
   * which is what decoded API results hold, and a `long` both fail it.
   */
  predicate PassesIdGuard(triggerid: Json) {
    IsPyInt(triggerid) || (triggerid.JBytes? && IsDigits(triggerid.s))
  }

  /** What the guard is evidently meant to accept: an integer id, or the digits of one in either kind of string. */
  predicate IsTriggerId(triggerid: Json) {
    IsPyInt(triggerid) || triggerid.JLong? || ((triggerid.JStr? || triggerid.JBytes?) && IsDigits(triggerid.s))
  }

  /** The request for one trigger with its functions. */
  function TriggerByIdRequest(triggerid: Json): (req: Request)
    ensures req.methodName == "trigger.get" && req.params.JObj?
    ensures Maps(req.params.fields, "triggerids", triggerid) && Maps(req.params.fields, "selectFunctions", Extend)
  {
    Request("trigger.get", JObj(map["output" := Extend, "selectFunctions" := Extend, "triggerids" := triggerid]))
  }

  /**
   * `zabbix_trigger_get_by_id`: only an id that passes the guard is looked
   * up; for anything else `result` is never assigned and reading it raises.
   */
  method TriggerGetById(triggerid: Json, post: nat -> Attempt) returns (r: QueryResult)
    ensures !PassesIdGuard(triggerid) ==> r == Crash(UnboundResult)
    ensures PassesIdGuard(triggerid) ==> r == OrEmpty(Interpret(Some(Received(post(0)))))
  {
    if PassesIdGuard(triggerid) {
      var posts, q := Query(TriggerByIdRequest(triggerid), 1, post);
      r := OrEmpty(q);
    } else {
      r := Crash(UnboundResult);
    }
  }

  /**
   * The guard turns away ids that the API itself hands out: a decoded
   * digit string and a `long` are ids, yet reading `result` raises for
   * them, as it does for any non-id.
   */
  lemma GuardRejectsDecodedIds()
    ensures IsTriggerId(JStr("13491")) && !PassesIdGuard(JStr("13491"))
    ensures IsTriggerId(JLong(13491)) && !PassesIdGuard(JLong(13491))
    ensures !IsTriggerId(JStr("abc")) && !PassesIdGuard(JStr("abc"))
    ensures forall t :: PassesIdGuard(t) ==> IsTriggerId(t)
  {
    assert IsDigits("13491") by {
      assert forall i :: 0 <= i < |"13491"| ==> IsDigit("13491"[i]);
    }
    assert !IsDigit("abc"[0]);
  }

  /**
   * `zabbix_trigger_get_by_id` as its guard intends it: every integer or
   * digit-string id is looked up; anything else finds no trigger, and no
   * request is sent.
   */
  method TriggerGetByIdChecked(triggerid: Json, post: nat -> Attempt) returns (r: QueryResult)
    ensures !IsTriggerId(triggerid) ==> r == Answer(Some(JList([])))
    ensures IsTriggerId(triggerid) ==> r == OrEmpty(Interpret(Some(Received(post(0)))))
    ensures r.Answer? ==> r.value.Some? && (Truthy(r.value.value) || r.value.value == JList([]))
  {
    if IsTriggerId(triggerid) {
      var posts, q := Query(TriggerByIdRequest(triggerid), 1, post);
      r := OrEmpty(q);
    } else {
      r := Answer(Some(JList([])));
    }
  }
}
