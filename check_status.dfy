/**
 * The status check of zabbix_check_status.py: for each selected job the
 * configuration is resolved, the server logged into, and every selected
 * host's LLD rules, items and triggers classified.  A broken element is
 * reported (and fails the run), skipped when excluded, or, in interactive
 * mode, offered to the operator for disabling.
 *
 * What the server answers and what the operator types are inputs (`Env`);
 * the run's outcome is a `Scan`: the flag `main_return_value`, the
 * elements reported, the disable requests sent and the questions asked.
 */
module CheckStatus {
  import opened Text
  import opened Rpc
  import opened CheckConfig
  import opened PidGuard
  import Slib2Input
  import Slib2Pid
  import Z = Slib2Zabbix
  import Slib3Zabbix

  /** Lowercased trigger errors that mean "not a real problem". */
  const TriggerExcludeErrors: seq<string> := [
    "no status update so far", "processes started", "agent is unavailable",
    "item is disabled", ": item is not supported."]

  /** An LLD rule, item or trigger as the server reports it. */
  datatype Entity = Entity(
    id: string,            // itemid or triggerid
    name: string,
    key: string,           // key_ (items and rules)
    description: string,   // triggers
    error: string,
    status: int,           // 1: disabled
    state: int)            // 0: normal / up to date

  /** A monitored host with what the server lists for it. */
  datatype Host = Host(hostid: int, name: string, lldRules: seq<Entity>, items: seq<Entity>, triggers: seq<Entity>)

  datatype Kind = LldRule | Item | Trigger

  /**
   * The command line: `server` and `host` are empty when not given;
   * `interactive` is `-i`, `test` is `--test`.
   */
  datatype Args = Args(server: string, host: string, interactive: bool, test: bool)

  /** A configuration section and its name. */
  datatype NamedSection = NamedSection(name: string, options: Section)

  /**
   * The world the run sees: whether a pattern compiles and whether it
   * matches a text (`re.search`), whether login attempt `k` with the given
   * credentials succeeds, the monitored hosts of a server, and the `n`-th
   * line the operator types.
   */
  datatype Env = Env(
    compiles: string -> bool,
    matches: (string, string) -> bool,
    login: (string, string, string) -> nat -> bool,
    hosts: string -> seq<Host>,
    answer: nat -> string)

  /** One element reported as broken. */
  datatype Report = Report(kind: Kind, id: string)

  /** The outcome of (part of) a run. */
  datatype Scan = Scan(ok: bool, reports: seq<Report>, updates: seq<Request>, prompts: nat)

  const Start: Scan := Scan(true, [], [], 0)

  /** How one element is handled. */
  datatype Verdict = Healthy | Excluded | Prompt | Reported

  /** `filter(lambda x: text.find(x) > -1, msgs)`: the messages the text contains, in order. */
  function ContainedIn(text: string, msgs: seq<string>): (r: seq<string>)
    ensures forall m :: m in r <==> m in msgs && Contains(text, m)
    decreases |msgs|
  {
    if msgs == [] then []
    else (if Contains(text, msgs[0]) then [msgs[0]] else []) + ContainedIn(text, msgs[1..])
  }

  /** The trigger error contains one of the benign messages, whatever its case. */
  predicate BenignError(error: string) {
    exists i :: 0 <= i < |TriggerExcludeErrors| && Contains(Lower(error), TriggerExcludeErrors[i])
  }

  /**
   * The script tests the truthiness of the filtered message list; that is
   * the same as the error containing one of the messages.
   */
  lemma BenignErrorFilter(error: string)
    ensures BenignError(error) <==> ContainedIn(Lower(error), TriggerExcludeErrors) != []
  {
    SomeContained(Lower(error), TriggerExcludeErrors);
  }

  /** The filtered list is non-empty exactly when the text contains one of the messages. */
  lemma SomeContained(text: string, msgs: seq<string>)
    ensures ContainedIn(text, msgs) != [] <==> exists i :: 0 <= i < |msgs| && Contains(text, msgs[i])
  {
    var found := ContainedIn(text, msgs);
    if found != [] {
      assert found[0] in found;
    }
    if exists i :: 0 <= i < |msgs| && Contains(text, msgs[i]) {
      var i :| 0 <= i < |msgs| && Contains(text, msgs[i]);
      assert msgs[i] in found;
    }
  }

  /** The job configuration excludes the element from the check. */
  predicate IsExcluded(kind: Kind, e: Entity, cfg: JobConfig, matches: (string, string) -> bool) {
    match kind
    case LldRule => false
    case Item =>
      e.id in cfg.itemIds || (cfg.itemRe.Some? && matches(cfg.itemRe.value, e.key))
    case Trigger =>
      BenignError(e.error) || e.id in cfg.triggerIds ||
      (cfg.triggerRe.Some? && matches(cfg.triggerRe.value, e.description))
  }

  /** The branches of the three element loops. */
  function Classify(kind: Kind, e: Entity, cfg: JobConfig, matches: (string, string) -> bool): Verdict {
    if e.status == 1 then Healthy
    else if e.state == 0 then Healthy
    else if kind == LldRule then Reported
    else if IsExcluded(kind, e, cfg, matches) then Excluded
    else if cfg.interactive then Prompt
    else Reported
  }

  /**
   * LLD rules are never excluded; an item or a trigger is excluded by its
   * id or by its pattern (the key of an item, the description of a
   * trigger), and a trigger also by a benign error.
   */
  lemma IsExcludedCases(kind: Kind, e: Entity, cfg: JobConfig, matches: (string, string) -> bool)
    ensures kind == LldRule ==> !IsExcluded(kind, e, cfg, matches)
    ensures kind != LldRule ==> (IsExcluded(kind, e, cfg, matches) <==>
      (kind == Trigger && BenignError(e.error)) ||
      e.id in (if kind == Item then cfg.itemIds else cfg.triggerIds) ||
      (var re := if kind == Item then cfg.itemRe else cfg.triggerRe;
       re.Some? && matches(re.value, if kind == Item then e.key else e.description)))
  {
  }

  /**
   * The four branches, each stated on its own: a disabled or normal
   * element is healthy, an excluded broken one is skipped, a prompt
   * happens only in interactive mode, and what is reported is what fails.
   */
  lemma ClassifyCases(kind: Kind, e: Entity, cfg: JobConfig, matches: (string, string) -> bool)
    ensures var v := Classify(kind, e, cfg, matches);
      && (v == Healthy <==> !Broken(e))
      && (v == Excluded <==> Broken(e) && kind != LldRule && IsExcluded(kind, e, cfg, matches))
      && (v == Prompt <==> Broken(e) && kind != LldRule && !IsExcluded(kind, e, cfg, matches) && cfg.interactive)
      && (v == Reported <==> Fails(kind, e, cfg, matches))
  {
  }

  /** The `item.update` / `trigger.update` call that sets the element's status to 1 (disabled). */
  function DisableRequest(kind: Kind, id: string): (req: Request)
    requires kind != LldRule
    ensures req.params.JObj? && Maps(req.params.fields, "status", JInt(1))
    ensures req.methodName == (if kind == Item then "item.update" else "trigger.update")
    ensures Maps(req.params.fields, if kind == Item then "itemid" else "triggerid", JStr(id))
    ensures |req.params.fields| == 2
  {
    if kind == Item then
      Request("item.update", JObj(map["itemid" := JStr(id), "status" := JInt(1)]))
    else
      Request("trigger.update", JObj(map["triggerid" := JStr(id), "status" := JInt(1)]))
  }

  /** The effect of handling one element. */
  function Step(s: Scan, kind: Kind, e: Entity, cfg: JobConfig, env: Env): Scan {
    match Classify(kind, e, cfg, env.matches)
    case Healthy => s
    case Excluded => s
    case Reported => s.(ok := false, reports := s.reports + [Report(kind, e.id)])
    case Prompt =>
      var confirmed := Slib2Input.InputConfirm(env.answer(s.prompts));
      s.(prompts := s.prompts + 1,
         updates := if confirmed then s.updates + [DisableRequest(kind, e.id)] else s.updates)
  }

  /**
   * One element fails the run exactly when it is reported; only a prompt
   * counts a question, and only a confirmed prompt sends its disable request.
   */
  lemma StepEffect(s: Scan, kind: Kind, e: Entity, cfg: JobConfig, env: Env)
    ensures var r := Step(s, kind, e, cfg, env);
      && r.ok == (s.ok && !Fails(kind, e, cfg, env.matches))
      && r.reports == s.reports + (if Fails(kind, e, cfg, env.matches) then [Report(kind, e.id)] else [])
      && r.prompts == s.prompts + (if Classify(kind, e, cfg, env.matches) == Prompt then 1 else 0)
      && (r.updates == s.updates ||
          (Classify(kind, e, cfg, env.matches) == Prompt && Slib2Input.InputConfirm(env.answer(s.prompts)) &&
           r.updates == s.updates + [DisableRequest(kind, e.id)]))
  {
  }

  /** Handling a list of elements in order. */
  function AfterEntities(s: Scan, kind: Kind, es: seq<Entity>, cfg: JobConfig, env: Env): Scan
    decreases |es|
  {
    if es == [] then s
    else Step(AfterEntities(s, kind, es[..|es| - 1], cfg, env), kind, es[|es| - 1], cfg, env)
  }

  /** One host: its LLD rules, then its items, then its triggers. */
  function AfterHost(s: Scan, h: Host, cfg: JobConfig, env: Env): Scan {
    var afterRules := AfterEntities(s, LldRule, h.lldRules, cfg, env);
    var afterItems := AfterEntities(afterRules, Item, h.items, cfg, env);
    AfterEntities(afterItems, Trigger, h.triggers, cfg, env)
  }

  /** The host given on the command line, compared after trimming and lowercasing. */
  predicate HostSelected(args: Args, h: Host) {
    args.host == "" || Lower(Strip(h.name)) == Lower(args.host)
  }

  /** The job given on the command line, compared lowercased. */
  predicate JobSelected(args: Args, name: string) {
    args.server == "" || Lower(name) == Lower(args.server)
  }

  /** The hosts of a job in order, the unselected ones skipped. */
  function AfterHosts(s: Scan, hs: seq<Host>, cfg: JobConfig, args: Args, env: Env): Scan
    decreases |hs|
  {
    if hs == [] then s
    else
      var before := AfterHosts(s, hs[..|hs| - 1], cfg, args, env);
      var h := hs[|hs| - 1];
      if HostSelected(args, h) then AfterHost(before, h, cfg, env) else before
  }

  /** The first login attempt with the job's credentials succeeds (`zabbix_connect` makes one). */
  predicate Connects(cfg: JobConfig, env: Env) {
    env.login(cfg.host, cfg.user, cfg.password)(0)
  }

  /** One iteration of the job loop. */
  function AfterJob(s: Scan, d: Section, job: NamedSection, args: Args, env: Env): Scan {
    if !JobSelected(args, job.name) then s
    else
      var s1 := if LookupRaises(d) || LookupRaises(job.options) then s.(ok := false) else s;
      AfterResolution(s1, Resolve(d, job.options, args.interactive, env.compiles), args, env)
  }

  /** The rest of a job once its configuration is resolved: a skipped job changes nothing. */
  function AfterResolution(s: Scan, res: Resolution, args: Args, env: Env): Scan {
    match res
    case Skip(_) => s
    case Ready(cfg) =>
      if !Connects(cfg, env) then s.(ok := false)
      else if args.test then s
      else AfterHosts(s, env.hosts(cfg.host), cfg, args, env)
  }

  /** The job loop over the job sections in order. */
  function AfterJobs(s: Scan, d: Section, jobs: seq<NamedSection>, args: Args, env: Env): Scan
    decreases |jobs|
  {
    if jobs == [] then s
    else AfterJob(AfterJobs(s, d, jobs[..|jobs| - 1], args, env), d, jobs[|jobs| - 1], args, env)
  }

  // ---------------------------------------------------------------------
  // The loops, as the script runs them

  /** One of the three element loops. */
  method CheckEntities(s: Scan, kind: Kind, es: seq<Entity>, cfg: JobConfig, env: Env) returns (r: Scan)
    ensures r == AfterEntities(s, kind, es, cfg, env)
  {
    r := s;
    for i := 0 to |es|
      invariant r == AfterEntities(s, kind, es[..i], cfg, env)
    {
      assert es[..i + 1][..i] == es[..i];
      r := CheckEntity(r, kind, es[i], cfg, env);
    }
    assert es[..|es|] == es;
  }

  /** The body of an element loop: report, skip, or ask whether to disable. */
  method CheckEntity(s: Scan, kind: Kind, e: Entity, cfg: JobConfig, env: Env) returns (r: Scan)
    ensures r == Step(s, kind, e, cfg, env)
  {
    r := s;
    if e.status == 1 {
      assert Classify(kind, e, cfg, env.matches) == Healthy;
    } else if e.state == 0 {
      assert Classify(kind, e, cfg, env.matches) == Healthy;
    } else if kind == LldRule {
      assert Classify(kind, e, cfg, env.matches) == Reported;
      r := r.(ok := false, reports := r.reports + [Report(kind, e.id)]);
    } else if IsExcluded(kind, e, cfg, env.matches) {
      assert Classify(kind, e, cfg, env.matches) == Excluded;
    } else if cfg.interactive {
      assert Classify(kind, e, cfg, env.matches) == Prompt;
      var confirmed := Slib2Input.InputConfirm(env.answer(r.prompts));
      if confirmed {
        r := r.(updates := r.updates + [DisableRequest(kind, e.id)]);
      }
      r := r.(prompts := r.prompts + 1);
    } else {
      assert Classify(kind, e, cfg, env.matches) == Reported;
      r := r.(ok := false, reports := r.reports + [Report(kind, e.id)]);
    }
  }

  /** The body of the host loop for a selected host. */
  method CheckHost(s: Scan, h: Host, cfg: JobConfig, env: Env) returns (r: Scan)
    ensures r == AfterHost(s, h, cfg, env)
  {
    r := CheckEntities(s, LldRule, h.lldRules, cfg, env);
    r := CheckEntities(r, Item, h.items, cfg, env);
    r := CheckEntities(r, Trigger, h.triggers, cfg, env);
  }

  /** The host loop. */
  method CheckHosts(s: Scan, hs: seq<Host>, cfg: JobConfig, args: Args, env: Env) returns (r: Scan)
    ensures r == AfterHosts(s, hs, cfg, args, env)
  {
    r := s;
    for i := 0 to |hs|
      invariant r == AfterHosts(s, hs[..i], cfg, args, env)
    {
      assert hs[..i + 1][..i] == hs[..i];
      if !HostSelected(args, hs[i]) {
        continue;
      }
      r := CheckHost(r, hs[i], cfg, env);
    }
    assert hs[..|hs|] == hs;
  }

  /** The body of the job loop. */
  method CheckJob(s: Scan, d: Section, job: NamedSection, args: Args, env: Env) returns (r: Scan)
    ensures r == AfterJob(s, d, job, args, env)
  {
    r := s;
    if !JobSelected(args, job.name) {
      return;
    }
    var res, raised := ResolveJob(d, job.options, args.interactive, env.compiles);
    if raised {
      r := r.(ok := false);
    }
    r := ScanResolved(r, res, args, env);
  }

  /** The job body after the configuration checks. */
  method ScanResolved(s: Scan, res: Resolution, args: Args, env: Env) returns (r: Scan)
    ensures r == AfterResolution(s, res, args, env)
  {
    r := s;
    if res.Skip? {
      return;
    }
    var cfg := res.config;
    var logins, server := Z.Connect(cfg.host, cfg.user, 1, env.login(cfg.host, cfg.user, cfg.password));
    assert server.Some? <==> Connects(cfg, env) by {
      if server.None? {
        assert !env.login(cfg.host, cfg.user, cfg.password)(0);
      }
    }
    if server.None? {
      r := r.(ok := false);
      return;
    }
    if args.test {
      return;
    }
    var hosts := env.hosts(cfg.host);
    if hosts == [] {
      return;
    }
    r := CheckHosts(r, hosts, cfg, args, env);
  }

  /** The job loop. */
  method CheckJobs(s: Scan, d: Section, jobs: seq<NamedSection>, args: Args, env: Env) returns (r: Scan)
    ensures r == AfterJobs(s, d, jobs, args, env)
  {
    r := s;
    for i := 0 to |jobs|
      invariant r == AfterJobs(s, d, jobs[..i], args, env)
    {
      assert jobs[..i + 1][..i] == jobs[..i];
      r := CheckJob(r, d, jobs[i], args, env);
    }
    assert jobs[..|jobs|] == jobs;
  }

  // ---------------------------------------------------------------------
  // The whole run

  predicate HasDefault(ini: seq<NamedSection>) {
    exists i :: 0 <= i < |ini| && ini[i].name == "default"
  }

  /** The options of the section named `default`. */
  function DefaultOptions(ini: seq<NamedSection>): (d: Section)
    requires HasDefault(ini)
    ensures exists i :: 0 <= i < |ini| && ini[i].name == "default" && ini[i].options == d
  {
    if ini[0].name == "default" then ini[0].options
    else
      assert HasDefault(ini[1..]) by {
        var i :| 0 <= i < |ini| && ini[i].name == "default";
        assert ini[1..][i - 1] == ini[i];
      }
      DefaultOptions(ini[1..])
  }

  /** The job sections: every section but `default`, in file order. */
  function Jobs(ini: seq<NamedSection>): (jobs: seq<NamedSection>)
    ensures forall j :: j in jobs <==> j in ini && j.name != "default"
    ensures |jobs| <= |ini|
  {
    if ini == [] then []
    else (if ini[0].name != "default" then [ini[0]] else []) + Jobs(ini[1..])
  }

  /** The job sections keep the order of the file: the filter splits over any cut of the section list. */
  lemma {:induction false} JobsAppend(a: seq<NamedSection>, b: seq<NamedSection>)
    ensures Jobs(a + b) == Jobs(a) + Jobs(b)
    decreases |a|
  {
    if a == [] {
      assert a + b == b;
    } else {
      assert (a + b)[0] == a[0];
      assert (a + b)[1..] == a[1..] + b;
      JobsAppend(a[1..], b);
    }
  }

  /** The configuration has a `default` section and at least one job section. */
  predicate Usable(ini: seq<NamedSection>) {
    HasDefault(ini) && Jobs(ini) != []
  }

  /** The PID guard lets the run start. */
  predicate PidGranted(files: map<string, string>, fs: FileSystem, pidPath: string, killOk: int -> bool)
    reads fs
  {
    MayWrite(Inspect(files, fs.unreadable, pidPath, killOk)) && pidPath !in fs.unwritable
  }

  /**
   * `main` after the command line is parsed: the configuration checks, the
   * PID file, the job loop and the removal of the PID file.  `rv` is
   * `main_return_value`; the process exits with status 0 exactly when it
   * is true.
   */
  method Run(ini: seq<NamedSection>, args: Args, env: Env,
             fs: FileSystem, pidPath: string, ownPid: nat, killOk: int -> bool)
    returns (rv: bool, scan: Scan)
    modifies fs
    ensures !Usable(ini) || !PidGranted(old(fs.files), fs, pidPath, killOk) ==>
      !rv && scan == Start && fs.files == old(fs.files)
    ensures Usable(ini) && PidGranted(old(fs.files), fs, pidPath, killOk) ==>
      && scan == AfterJobs(Start, DefaultOptions(ini), Jobs(ini), args, env)
      && (rv <==> scan.ok && pidPath !in fs.undeletable)
      && fs.files == if pidPath in fs.undeletable then old(fs.files)[pidPath := PidLine(ownPid)]
                     else old(fs.files) - {pidPath}
  {
    scan := Start;
    if !HasDefault(ini) {
      return false, scan;
    }
    var jobs := Jobs(ini);
    if jobs == [] {
      return false, scan;
    }
    var created := Slib2Pid.MkPid(fs, pidPath, ownPid, killOk);
    if !created {
      return false, scan;
    }
    scan := CheckJobs(scan, DefaultOptions(ini), jobs, args, env);
    var removed := Slib2Pid.RmFile(fs, pidPath);
    rv := scan.ok && removed;
    assert old(fs.files)[pidPath := PidLine(ownPid)] - {pidPath} == old(fs.files) - {pidPath};
  }

  // ---------------------------------------------------------------------
  // Per element

  /** A broken element: enabled and not in its normal state. */
  predicate Broken(e: Entity) {
    e.status != 1 && e.state != 0
  }

  /** The elements that fail the run, stated without the branch order of the loops. */
  predicate Fails(kind: Kind, e: Entity, cfg: JobConfig, matches: (string, string) -> bool) {
    Broken(e) && (kind == LldRule || (!IsExcluded(kind, e, cfg, matches) && !cfg.interactive))
  }

  /** A disabled element, or one in its normal state, leaves everything as it was. */
  lemma HealthyUntouched(s: Scan, kind: Kind, e: Entity, cfg: JobConfig, env: Env)
    requires !Broken(e)
    ensures Step(s, kind, e, cfg, env) == s
  {
  }

  /** A broken LLD rule is always reported and fails the run: it has no exclusion and no prompt. */
  lemma BrokenRuleReported(s: Scan, e: Entity, cfg: JobConfig, env: Env)
    requires Broken(e)
    ensures Step(s, LldRule, e, cfg, env) == s.(ok := false, reports := s.reports + [Report(LldRule, e.id)])
  {
  }

  /** An excluded broken item or trigger is skipped: no report, no question, no update. */
  lemma ExcludedUntouched(s: Scan, kind: Kind, e: Entity, cfg: JobConfig, env: Env)
    requires Broken(e) && kind != LldRule && IsExcluded(kind, e, cfg, env.matches)
    ensures Step(s, kind, e, cfg, env) == s
  {
  }

  /**
   * In interactive mode a broken, non-excluded item or trigger asks one
   * question; a confirmation issues exactly one disable request, and the
   * run is never failed whatever the answer.
   */
  lemma InteractiveNeverFails(s: Scan, kind: Kind, e: Entity, cfg: JobConfig, env: Env)
    requires Broken(e) && kind != LldRule && !IsExcluded(kind, e, cfg, env.matches) && cfg.interactive
    ensures var r := Step(s, kind, e, cfg, env);
      && r.ok == s.ok && r.reports == s.reports
      && r.prompts == s.prompts + 1
      && r.updates == s.updates +
           (if Slib2Input.InputConfirm(env.answer(s.prompts)) then [DisableRequest(kind, e.id)] else [])
  {
  }

  /** Otherwise a broken, non-excluded item or trigger is reported and fails the run. */
  lemma NonInteractiveReported(s: Scan, kind: Kind, e: Entity, cfg: JobConfig, env: Env)
    requires Broken(e) && kind != LldRule && !IsExcluded(kind, e, cfg, env.matches) && !cfg.interactive
    ensures Step(s, kind, e, cfg, env) == s.(ok := false, reports := s.reports + [Report(kind, e.id)])
  {
  }

  // ---------------------------------------------------------------------
  // Over the loops

  /** The reports a list of elements produces. */
  function ReportsOf(kind: Kind, es: seq<Entity>, cfg: JobConfig, matches: (string, string) -> bool): seq<Report>
    decreases |es|
  {
    if es == [] then []
    else
      var e := es[|es| - 1];
      ReportsOf(kind, es[..|es| - 1], cfg, matches) + (if Fails(kind, e, cfg, matches) then [Report(kind, e.id)] else [])
  }

  /** `u` disables one of the elements the operator was asked about. */
  predicate DisablesOneOf(u: Request, kind: Kind, es: seq<Entity>, cfg: JobConfig, matches: (string, string) -> bool) {
    kind != LldRule &&
    exists e :: e in es && Classify(kind, e, cfg, matches) == Prompt && u == DisableRequest(kind, e.id)
  }

  /**
   * An element loop reports exactly the failing elements, in order, and
   * fails the run exactly when it reports something; every request it
   * sends disables an element the operator was asked about, and without
   * interactive mode it neither asks nor sends anything.
   */
  lemma {:induction false} EntitiesOutcome(s: Scan, kind: Kind, es: seq<Entity>, cfg: JobConfig, env: Env)
    ensures var r := AfterEntities(s, kind, es, cfg, env);
      && r.reports == s.reports + ReportsOf(kind, es, cfg, env.matches)
      && (r.ok <==> s.ok && ReportsOf(kind, es, cfg, env.matches) == [])
      && |s.updates| <= |r.updates| && r.updates[..|s.updates|] == s.updates
      && (forall i :: |s.updates| <= i < |r.updates| ==> DisablesOneOf(r.updates[i], kind, es, cfg, env.matches))
      && s.prompts <= r.prompts
      && (!cfg.interactive ==> r.updates == s.updates && r.prompts == s.prompts)
    decreases |es|
  {
    if es != [] {
      var init, e := es[..|es| - 1], es[|es| - 1];
      EntitiesOutcome(s, kind, init, cfg, env);
      var before := AfterEntities(s, kind, init, cfg, env);
      var r := AfterEntities(s, kind, es, cfg, env);
      assert r == Step(before, kind, e, cfg, env);
      StepEffect(before, kind, e, cfg, env);
      assert r.updates[..|before.updates|] == before.updates;
      forall i | |s.updates| <= i < |r.updates|
        ensures DisablesOneOf(r.updates[i], kind, es, cfg, env.matches)
      {
        if i < |before.updates| {
          assert r.updates[i] == before.updates[i];
          assert DisablesOneOf(before.updates[i], kind, init, cfg, env.matches);
          var w :| w in init && Classify(kind, w, cfg, env.matches) == Prompt && before.updates[i] == DisableRequest(kind, w.id);
          assert w in es;
        } else {
          assert e in es;
        }
      }
    }
  }

  /** The reports of one selected host. */
  function HostReports(h: Host, cfg: JobConfig, matches: (string, string) -> bool): seq<Report> {
    ReportsOf(LldRule, h.lldRules, cfg, matches) + ReportsOf(Item, h.items, cfg, matches) +
    ReportsOf(Trigger, h.triggers, cfg, matches)
  }

  /** The reports of the selected hosts, in order. */
  function HostsReports(hs: seq<Host>, cfg: JobConfig, args: Args, matches: (string, string) -> bool): seq<Report>
    decreases |hs|
  {
    if hs == [] then []
    else
      var h := hs[|hs| - 1];
      HostsReports(hs[..|hs| - 1], cfg, args, matches) + (if HostSelected(args, h) then HostReports(h, cfg, matches) else [])
  }

  /** The request is a status-1 update of an item or a trigger. */
  ghost predicate IsDisable(u: Request) {
    exists kind, id :: kind != LldRule && u == DisableRequest(kind, id)
  }

  /** Every request is a status-1 update of an item or a trigger. */
  ghost predicate AllDisables(us: seq<Request>) {
    forall i :: 0 <= i < |us| ==> IsDisable(us[i])
  }

  /** One host: the outcome of its three element loops together. */
  lemma HostOutcome(s: Scan, h: Host, cfg: JobConfig, env: Env)
    requires AllDisables(s.updates)
    ensures var r := AfterHost(s, h, cfg, env);
      && r.reports == s.reports + HostReports(h, cfg, env.matches)
      && (r.ok <==> s.ok && HostReports(h, cfg, env.matches) == [])
      && AllDisables(r.updates)
      && (!cfg.interactive ==> r.updates == s.updates && r.prompts == s.prompts)
  {
    var s1 := AfterEntities(s, LldRule, h.lldRules, cfg, env);
    var s2 := AfterEntities(s1, Item, h.items, cfg, env);
    var s3 := AfterEntities(s2, Trigger, h.triggers, cfg, env);
    EntitiesOutcome(s, LldRule, h.lldRules, cfg, env);
    EntitiesOutcome(s1, Item, h.items, cfg, env);
    EntitiesOutcome(s2, Trigger, h.triggers, cfg, env);
    DisablesPreserved(s, s1, LldRule, h.lldRules, cfg, env.matches);
    DisablesPreserved(s1, s2, Item, h.items, cfg, env.matches);
    DisablesPreserved(s2, s3, Trigger, h.triggers, cfg, env.matches);
  }

  /** Appending disables of elements keeps a request list all disables. */
  lemma DisablesPreserved(s: Scan, r: Scan, kind: Kind, es: seq<Entity>, cfg: JobConfig, matches: (string, string) -> bool)
    requires AllDisables(s.updates)
    requires |s.updates| <= |r.updates| && r.updates[..|s.updates|] == s.updates
    requires forall i :: |s.updates| <= i < |r.updates| ==> DisablesOneOf(r.updates[i], kind, es, cfg, matches)
    ensures AllDisables(r.updates)
  {
    forall i | 0 <= i < |r.updates|
      ensures IsDisable(r.updates[i])
    {
      if i < |s.updates| {
        assert r.updates[i] == s.updates[i];
      } else {
        assert DisablesOneOf(r.updates[i], kind, es, cfg, matches);
        var e :| e in es && Classify(kind, e, cfg, matches) == Prompt && r.updates[i] == DisableRequest(kind, e.id);
        assert kind != LldRule && r.updates[i] == DisableRequest(kind, e.id);
      }
    }
  }

  /** The host loop reports what its selected hosts report and fails exactly when that is something. */
  lemma {:induction false} HostsOutcome(s: Scan, hs: seq<Host>, cfg: JobConfig, args: Args, env: Env)
    requires AllDisables(s.updates)
    ensures var r := AfterHosts(s, hs, cfg, args, env);
      && r.reports == s.reports + HostsReports(hs, cfg, args, env.matches)
      && (r.ok <==> s.ok && HostsReports(hs, cfg, args, env.matches) == [])
      && AllDisables(r.updates)
      && (!cfg.interactive ==> r.updates == s.updates && r.prompts == s.prompts)
    decreases |hs|
  {
    if hs != [] {
      var init, h := hs[..|hs| - 1], hs[|hs| - 1];
      HostsOutcome(s, init, cfg, args, env);
      var before := AfterHosts(s, init, cfg, args, env);
      var reportsBefore := HostsReports(init, cfg, args, env.matches);
      if HostSelected(args, h) {
        HostOutcome(before, h, cfg, env);
        assert AfterHosts(s, hs, cfg, args, env) == AfterHost(before, h, cfg, env);
        assert HostsReports(hs, cfg, args, env.matches) == reportsBefore + HostReports(h, cfg, env.matches);
      } else {
        assert AfterHosts(s, hs, cfg, args, env) == before;
        assert HostsReports(hs, cfg, args, env.matches) == reportsBefore + [];
      }
    }
  }

  /** The reports of one job. */
  function JobReports(d: Section, job: NamedSection, args: Args, env: Env): seq<Report> {
    if !JobSelected(args, job.name) then []
    else
      match Resolve(d, job.options, args.interactive, env.compiles)
      case Skip(_) => []
      case Ready(cfg) =>
        if !Connects(cfg, env) || args.test then []
        else HostsReports(env.hosts(cfg.host), cfg, args, env.matches)
  }

  /**
   * A selected job fails the run when a lookup raises, or when its
   * configuration is valid and either the login fails or something is
   * reported.  An invalid configuration alone does not fail it.
   */
  predicate JobFails(d: Section, job: NamedSection, args: Args, env: Env) {
    JobSelected(args, job.name) &&
    (LookupRaises(d) || LookupRaises(job.options) ||
     (Resolve(d, job.options, args.interactive, env.compiles).Ready? &&
      (!Connects(Resolve(d, job.options, args.interactive, env.compiles).config, env) ||
       JobReports(d, job, args, env) != [])))
  }

  /** One job: its reports, whether it fails the run, and that test mode only logs in. */
  lemma JobOutcome(s: Scan, d: Section, job: NamedSection, args: Args, env: Env)
    requires AllDisables(s.updates)
    ensures var r := AfterJob(s, d, job, args, env);
      && r.reports == s.reports + JobReports(d, job, args, env)
      && (r.ok <==> s.ok && !JobFails(d, job, args, env))
      && AllDisables(r.updates)
      && (args.test ==> r.updates == s.updates && r.prompts == s.prompts)
  {
    if JobSelected(args, job.name) {
      var s1 := if LookupRaises(d) || LookupRaises(job.options) then s.(ok := false) else s;
      var res := Resolve(d, job.options, args.interactive, env.compiles);
      if res.Ready? && Connects(res.config, env) && !args.test {
        HostsOutcome(s1, env.hosts(res.config.host), res.config, args, env);
      }
    }
  }

  /** The reports of all jobs, in order. */
  function JobsReports(d: Section, jobs: seq<NamedSection>, args: Args, env: Env): seq<Report>
    decreases |jobs|
  {
    if jobs == [] then []
    else JobsReports(d, jobs[..|jobs| - 1], args, env) + JobReports(d, jobs[|jobs| - 1], args, env)
  }

  /**
   * The job loop: the run flag stays true exactly when it was true and no
   * job fails; the reports are those of the jobs in order; every request
   * sent disables an item or a trigger; test mode sends nothing and asks
   * nothing.
   */
  lemma {:induction false} JobsOutcome(s: Scan, d: Section, jobs: seq<NamedSection>, args: Args, env: Env)
    requires AllDisables(s.updates)
    ensures var r := AfterJobs(s, d, jobs, args, env);
      && r.reports == s.reports + JobsReports(d, jobs, args, env)
      && (r.ok <==> s.ok && forall i :: 0 <= i < |jobs| ==> !JobFails(d, jobs[i], args, env))
      && AllDisables(r.updates)
      && (args.test ==> r.updates == s.updates && r.prompts == s.prompts)
    decreases |jobs|
  {
    if jobs != [] {
      var init, job := jobs[..|jobs| - 1], jobs[|jobs| - 1];
      JobsOutcome(s, d, init, args, env);
      var before := AfterJobs(s, d, init, args, env);
      JobOutcome(before, d, job, args, env);
      assert AfterJobs(s, d, jobs, args, env) == AfterJob(before, d, job, args, env);
      var earlier, last := JobsReports(d, init, args, env), JobReports(d, job, args, env);
      assert JobsReports(d, jobs, args, env) == earlier + last;
      assert AfterJobs(s, d, jobs, args, env).reports == (s.reports + earlier) + last;
      assert (s.reports + earlier) + last == s.reports + (earlier + last);
      NoJobFailsSplit(d, init, jobs, args, env);
    }
  }

  /** No job fails exactly when none of the earlier ones fails and the last one does not. */
  lemma NoJobFailsSplit(d: Section, init: seq<NamedSection>, jobs: seq<NamedSection>, args: Args, env: Env)
    requires jobs != [] && init == jobs[..|jobs| - 1]
    ensures (forall i :: 0 <= i < |jobs| ==> !JobFails(d, jobs[i], args, env)) <==>
      (forall i :: 0 <= i < |init| ==> !JobFails(d, init[i], args, env)) &&
      !JobFails(d, jobs[|jobs| - 1], args, env)
  {
    assert forall i :: 0 <= i < |init| ==> init[i] == jobs[i];
  }

  /**
   * What the operator answers changes only which disable requests are
   * sent: the run flag and the reports are the same for any answers.
   */
  lemma AnswersDoNotMatter(d: Section, jobs: seq<NamedSection>, args: Args, env: Env, answer: nat -> string)
    ensures AfterJobs(Start, d, jobs, args, env).ok == AfterJobs(Start, d, jobs, args, env.(answer := answer)).ok
    ensures AfterJobs(Start, d, jobs, args, env).reports == AfterJobs(Start, d, jobs, args, env.(answer := answer)).reports
  {
    var env2 := env.(answer := answer);
    JobsOutcome(Start, d, jobs, args, env);
    JobsOutcome(Start, d, jobs, args, env2);
    SameReports(d, jobs, args, env, env2);
    forall i | 0 <= i < |jobs| ensures JobFails(d, jobs[i], args, env) == JobFails(d, jobs[i], args, env2) {
    }
  }

  /** The reports do not depend on the operator's answers. */
  lemma {:induction false} SameReports(d: Section, jobs: seq<NamedSection>, args: Args, env: Env, env2: Env)
    requires env2 == env.(answer := env2.answer)
    ensures JobsReports(d, jobs, args, env) == JobsReports(d, jobs, args, env2)
    decreases |jobs|
  {
    if jobs != [] {
      SameReports(d, jobs[..|jobs| - 1], args, env, env2);
    }
  }

  /**
   * A job skipped by the configuration checks (a missing credential, a
   * pattern that does not compile) neither logs in nor fails the run: the
   * flag changes only when a lookup raised.
   */
  lemma SkippedJobKeepsFlag(s: Scan, d: Section, job: NamedSection, args: Args, env: Env)
    requires Resolve(d, job.options, args.interactive, env.compiles).Skip?
    ensures AfterJob(s, d, job, args, env) ==
      if JobSelected(args, job.name) && (LookupRaises(d) || LookupRaises(job.options)) then s.(ok := false) else s
  {
  }

  /** A job not named on the command line changes nothing. */
  lemma UnselectedJobSkipped(s: Scan, d: Section, job: NamedSection, args: Args, env: Env)
    requires args.server != "" && Lower(job.name) != Lower(args.server)
    ensures AfterJob(s, d, job, args, env) == s
  {
  }

  // ---------------------------------------------------------------------
  // The host list

  /**
   * The call for the host list passes a `status` keyword that
   * `zabbix_get_host` does not accept: it raises TypeError naming it.
   */
  lemma HostListCallRaises()
    ensures Z.BindGetHost(map["selectGroups" := JBool(true), "status" := JInt(0)]) ==
      Z.Err(Z.UnexpectedKeyword({"status"}))
  {
    var kwargs := map["selectGroups" := JBool(true), "status" := JInt(0)];
    assert "status" in kwargs.Keys - Z.GetHostKeywords;
    assert kwargs.Keys - Z.GetHostKeywords == {"status"};
  }

  /**
   * The host list the scan works on: every host with its groups, filtered
   * on `status` 0 (monitored), as the keyword-merging `host.get` builder
   * makes the request.
   */
  function MonitoredHostsRequest(): (req: Request)
    ensures req.methodName == "host.get" && req.params.JObj?
    ensures Maps(req.params.fields, "filter", JObj(map["status" := JInt(0)]))
    ensures Maps(req.params.fields, "search", JObj(map["host" := JStr("")]))
    ensures "selectGroups" in req.params.fields
  {
    var p := Slib3Zabbix.HostGet(JNull, true, map["status" := JInt(0)]);
    assert Slib3Zabbix.HostFilter(JNull, map["status" := JInt(0)]) == map["status" := JInt(0)];
    Request("host.get", JObj(p))
  }
}
