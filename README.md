# zabbix_check_status in Dafny

A model of `zabbix_check_status`, a command-line utility. For every Zabbix server configured in `config.ini`, it:

- logs in over the Zabbix JSON-RPC API;
- walks the monitored hosts;
- reports every low-level-discovery (LLD) rule, item and trigger that is enabled but not in its normal state.

Elements that are excluded by id, by pattern or by a benign trigger error are skipped silently. In interactive mode the operator is asked whether to disable each remaining element, and it is not reported. The run's result is a single flag. Any report, a failed login or an unreadable option clears it. A PID file keeps two runs from overlapping.

The model covers these parts:

- **check_config.dfy** (`CheckConfig`): resolving one job's configuration.
  - Built-in values are overlaid by the `default` section and then by the job section. Only non-empty texts override. The `config_job` map is rewritten key by key, as the script does.
  - Then the credentials are checked, the id lists are split, the exclusion patterns are compiled and the interactive flag is resolved.
- **check_status.dfy** (`CheckStatus`): the job, host and element loops of `main()`, as methods. Each method is proved equal to a specification fold (`AfterJobs`, `AfterHosts`, `AfterEntities`). Lemmas about the folds state:
  - which elements are reported;
  - when the run flag is cleared;
  - that every request sent disables one prompted item or trigger;
  - that the operator's answers never change the flag or the reports.

  `Run` wraps the loops between creating and removing the PID file.
- **slib2_zabbix.dfy** (`Slib2Zabbix`) and **slib3_zabbix.dfy** (`Slib3Zabbix`): the Python 2 and Python 3 API helpers.
  - The login and query retry loops.
  - The response rule: `error` wins over `result`.
  - The parameter builders.
  - The wrappers that return an empty list for a falsy result, and the pass-through create/update calls.
  - Lemmas showing where the two versions agree.
- **pid_guard.dfy** (`PidGuard`), **slib2_pid.dfy** and **slib3_pid.dfy**: the PID-file guard over a mutable filesystem object.
  - `FileSystem` maps paths to contents and records which operations fail on which paths.
  - Process liveness is a parameter.
- **slib2_input.dfy** (`Slib2Input`): the yes/no confirmation.
- **slib3_log.dfy** (`Slib3Log`): the log levels, the environment lookups and the logger's settings.
- **text.dfy** (`Text`) and **rpc.dfy** (`Rpc`): shared helpers.
  - ASCII versions of Python's `lower`, `strip`, `split` and `isdigit`, and decimal printing.
  - JSON values, Python truthiness and API requests.

These are parameters of the model rather than modelled code:

- the network, as `nat -> Attempt` (what the k-th post does) and `nat -> bool` (whether the k-th login succeeds);
- the regular-expression engine, as `compiles` and `matches`;
- the operator's answers, as `answer(k)`;
- the host list and each host's rules, items and triggers;
- process liveness;
- the process environment.

## Model

| member | source | states |
|---|---|---|
| CheckConfig.BuiltinsTotal | zabbix_check_status.py:93-102 | every option has a built-in value: None for the host, user, password and patterns, an empty list for the id lists, False for interactive |
| CheckConfig.OverlayKeys | zabbix_check_status.py:104-126 | overlaying a section over a configuration keeps every option defined |
| CheckConfig.Overlay | zabbix_check_status.py:104-126 | overlaying a section over a configuration keeps every option defined |
| CheckConfig.OverlayKeysAt | zabbix_check_status.py:104-109 | after the overlay, an option holds the section's text if the option was visited and the section gives a non-empty text; otherwise it keeps its previous value |
| CheckConfig.OverlaySection | zabbix_check_status.py:104-114 | the key-by-key loop over `config_job` produces exactly the overlay; it reports a raised lookup exactly when some option's lookup raises |
| CheckConfig.OverlayPrecedence | zabbix_check_status.py:93-126 | an option takes the job section's non-empty text, else the default section's non-empty text, else the built-in value; a resolved text is never empty |
| CheckConfig.MergedConfig | zabbix_check_status.py:93-126 | the merged configuration defines every option, each by the precedence rule |
| CheckConfig.Resolve | zabbix_check_status.py:128-159 | a job that is not skipped has a non-empty server URL, user and password |
| CheckConfig.OverlayBoth | zabbix_check_status.py:93-126 | the two overlay loops give the merged configuration; the run flag is cleared exactly when a lookup in either section raises |
| CheckConfig.SettleCases | zabbix_check_status.py:127-159 | a merged configuration is ready exactly when host, user and password are strings and every pattern given as a string compiles; a skip for a pattern names one that does not compile; a ready job keeps the three credential strings |
| CheckConfig.InteractiveOf | zabbix_check_status.py:155-159 | the command-line flag turns it on; otherwise a string is on exactly when, lowercased, it is `true`, `yes` or `on`, and a boolean keeps its value |
| CheckConfig.SettleJob | zabbix_check_status.py:127-159 | the in-place validation of `config_job` gives the resolution: the skip reason, or the typed job configuration |
| CheckConfig.SplitIdStrings | zabbix_check_status.py:137-141 | each id string becomes the list of its all-digit words, an id list keeps its ids, and no other option changes |
| CheckConfig.CompilePatterns | zabbix_check_status.py:142-154 | the item pattern is compiled first; the first pattern that does not compile is named and stops the job; a compiled pattern keeps its text, and no other option changes |
| CheckConfig.ResolveJob | zabbix_check_status.py:93-159 | the whole per-job configuration step equals `Resolve`, and reports raised lookups from either section |
| CheckConfig.CredentialsRequired | zabbix_check_status.py:128-136 | the job is skipped for the host exactly when neither section gives a non-empty `zdx_host`; user, then password, likewise and in that order |
| CheckConfig.CredentialsSource | zabbix_check_status.py:116-136 | each credential of a resolved job comes from the job section when it gives one, else from the default section |
| CheckConfig.MergedText | zabbix_check_status.py:104-126 | an option ends up a string exactly when one of the two sections gives it a text, and then it is the winning, non-empty text |
| CheckConfig.ResolveReady | zabbix_check_status.py:127-154 | a job is ready exactly when the winning texts give all three credentials and every winning item or trigger pattern compiles, whichever section gives it |
| CheckConfig.ReadyConfig | zabbix_check_status.py:137-154 | a ready job excludes the all-digit words of the winning id texts (none when neither section gives one), and its patterns are the winning pattern texts |
| CheckConfig.BadPatternSkips | zabbix_check_status.py:142-154 | a winning item or trigger pattern that does not compile skips the job, from either section; with all credentials given, the skip names the item pattern when that one is bad, and the trigger pattern otherwise |
| CheckConfig.InteractiveSetting | zabbix_check_status.py:156-159 | interactive is on exactly when the command-line flag is set or the winning text, lowercased, is `true`, `yes` or `on` |
| CheckConfig.MergedInteractive | zabbix_check_status.py:156-159 | the interactive rule applied to the merged value: which section's text decides, and when it counts as set |
| CheckConfig.IdListRoundTrip | zabbix_check_status.py:138-141 | a space-joined list of numeric ids is split back into exactly that list, in order |
| CheckConfig.IdListTokens | zabbix_check_status.py:138-141 | the id list holds exactly the whitespace-separated tokens of the text that are all digits |
| CheckStatus.DisableRequest | zabbix_check_status.py:235-240 | the disable request is `item.update` or `trigger.update` with exactly two fields: the element's id and `status` 1 |
| CheckStatus.ContainedIn | zabbix_check_status.py:266 | the filtered message list holds exactly the messages that the text contains |
| CheckStatus.SomeContained | zabbix_check_status.py:266 | the filtered list is non-empty exactly when the text contains one of the messages |
| CheckStatus.BenignErrorFilter | zabbix_check_status.py:266 | the script's truth test on the filtered list of the five messages of line 27 holds exactly when the lowercased error contains one of them |
| CheckStatus.IsExcludedCases | zabbix_check_status.py:229-269 | an LLD rule is never excluded; an item is excluded by its id or its key matching the pattern; a trigger by a benign error, its id or its description matching the pattern |
| CheckStatus.ClassifyCases | zabbix_check_status.py:195-281 | an element is healthy exactly when disabled or normal; excluded exactly when broken, not a rule and excluded; prompted exactly when broken, not a rule, not excluded and interactive; reported exactly when it fails |
| CheckStatus.StepEffect | zabbix_check_status.py:195-281 | one element clears the flag exactly when it fails, and it is then appended to the reports; only a prompt asks a question, and only a confirmed prompt appends its disable request |
| CheckStatus.CheckEntity | zabbix_check_status.py:195-281 | the body of an element loop, branch by branch, has the effect `Step` gives |
| CheckStatus.CheckEntities | zabbix_check_status.py:193-281 | the loop over a host's rules, items or triggers equals the fold `AfterEntities` |
| CheckStatus.CheckHost | zabbix_check_status.py:188-281 | one host is scanned as its rules, then its items, then its triggers |
| CheckStatus.CheckHosts | zabbix_check_status.py:176-179 | the host loop, which skips hosts that do not match the host argument, equals `AfterHosts` |
| CheckStatus.ScanResolved | zabbix_check_status.py:161-174 | a skipped job changes nothing; a failed login clears the flag; test mode stops after the login; otherwise the hosts are scanned |
| CheckStatus.CheckJob | zabbix_check_status.py:86-174 | one job is filtered by server, resolved and scanned, as `AfterJob` states |
| CheckStatus.CheckJobs | zabbix_check_status.py:86-89 | the job loop equals `AfterJobs` |
| CheckStatus.DefaultOptions | zabbix_check_status.py:70-72 | the options used as defaults are those of a section named `default` |
| CheckStatus.Jobs | zabbix_check_status.py:73-86 | the jobs are exactly the sections not named `default` |
| CheckStatus.JobsAppend | zabbix_check_status.py:86 | the job list keeps the file order: filtering splits over any cut of the section list |
| CheckStatus.Run | zabbix_check_status.py:30-288 | without a default section or a job, or when the PID file is refused: false, nothing scanned, files unchanged. Otherwise the jobs are scanned; the result is the scan's flag and whether the PID file could be removed; the file is gone unless it cannot be deleted |
| CheckStatus.HealthyUntouched | zabbix_check_status.py:216-225 | an element with status 1 or state 0 is never reported or prompted and leaves the flag unchanged |
| CheckStatus.BrokenRuleReported | zabbix_check_status.py:190-207 | a broken LLD rule is always reported and clears the flag; nothing excludes it |
| CheckStatus.ExcludedUntouched | zabbix_check_status.py:229-269 | a broken item or trigger that is excluded by id, by pattern or by a benign error changes nothing |
| CheckStatus.InteractiveNeverFails | zabbix_check_status.py:235-240 | in interactive mode a broken element that is not excluded keeps the flag and the reports. It asks once, and at most one disable request is sent, only on a yes |
| CheckStatus.NonInteractiveReported | zabbix_check_status.py:242-244 | otherwise a broken element that is not excluded is reported and clears the flag |
| CheckStatus.EntitiesOutcome | zabbix_check_status.py:193-281 | over a list of elements: the reports are those of the failing elements, in order. The flag stays set exactly when none fails. New requests are appended and each disables a prompted element. Without interactive mode nothing is sent or asked |
| CheckStatus.HostOutcome | zabbix_check_status.py:188-281 | the same for one host's three lists, and every request sent is a disable request |
| CheckStatus.DisablesPreserved | zabbix_check_status.py:235-277 | appending requests that each disable one prompted element keeps every request a disable request |
| CheckStatus.HostsOutcome | zabbix_check_status.py:176-281 | over the selected hosts: the reports in order, the flag kept exactly when no host reports, only disable requests |
| CheckStatus.JobOutcome | zabbix_check_status.py:86-281 | one job's reports. It fails the run exactly when it is selected and either a lookup raised, or it resolves and then cannot log in or has a report. Test mode sends nothing |
| CheckStatus.JobsOutcome | zabbix_check_status.py:86-281 | the run flag stays set exactly when no job fails; the reports are the jobs' reports in order; only disable requests are sent; test mode sends and asks nothing |
| CheckStatus.AnswersDoNotMatter | zabbix_check_status.py:235-240 | the operator's answers never change the run flag or the reports |
| CheckStatus.SameReports | zabbix_check_status.py:235-281 | two environments that differ only in the answers give the same reports |
| CheckStatus.NoJobFailsSplit | zabbix_check_status.py:86-89 | no job of the list fails exactly when none of the earlier ones fails and the last one does not |
| CheckStatus.SkippedJobKeepsFlag | zabbix_check_status.py:127-154 | a job skipped for a missing credential or a bad pattern does not log in, and it clears the flag only when a lookup raised |
| CheckStatus.UnselectedJobSkipped | zabbix_check_status.py:88-89 | a job whose name differs, ignoring case, from a given server argument changes nothing |
| CheckStatus.HostListCallRaises | zabbix_check_status.py:169 | the host-list call passes `status`, which `zabbix_get_host` does not declare, so binding the call raises TypeError |
| CheckStatus.MonitoredHostsRequest | zabbix_check_status.py:169-174 | the intended host-list request: `host.get` for monitored hosts (`filter {status: 0}`), matching every name, with groups |
| Slib2Zabbix.Connect | slib2/s_zabbix3.py:19-35 | a session is returned exactly when one of the first `attempts` logins succeeds, and it is the first such login; otherwise None |
| Slib2Zabbix.Interpret | slib2/s_zabbix3.py:53-59 | an unbound result raises NameError and None gives None. For a dict, `error` wins over `result`, and a dict with neither gives None. Any other value raises on `.keys()` |
| Slib2Zabbix.Query | slib2/s_zabbix3.py:38-59 | with no attempts no post is made and reading `result` raises; otherwise between 1 and `attempts` posts. Every post but the last raised, and the loop stops early only after a post that returned. The result is the interpreted last response |
| Slib2Zabbix.GetHostParams | slib2/s_zabbix3.py:65-74 | output `extend`, sorted by name; a truthy name gives `filter {host: name}` and no search, else `search {host: ""}`; `selectGroups` `extend` only when asked |
| Slib2Zabbix.BindGetHost | slib2/s_zabbix3.py:65 | a keyword call binds exactly when every keyword is declared, and then gives the host parameters; otherwise TypeError names the undeclared keywords |
| Slib2Zabbix.GetTemplateParams | slib2/s_zabbix3.py:77-87 | always `with_items`; an int name goes to `templateids` with the keyword filter, any other name to `filter.host`, which the keywords extend; `selectDiscoveries` `extend` only when asked |
| Slib2Zabbix.GetDiscoveryruleParams | slib2/s_zabbix3.py:90-100 | an int host goes under `hostids`, else `host`; output `extend`; the filter is the keywords; `selectItems` `extend` only when asked |
| Slib2Zabbix.GetItemParams | slib2/s_zabbix3.py:103-111 | exactly output `extend`, the keyword filter and the host under `hostids` or `host` |
| Slib2Zabbix.GetTriggerParams | slib2/s_zabbix3.py:114-123 | as for items, plus `selectFunctions` `extend` |
| Slib2Zabbix.SortedByNameParams | slib2/s_zabbix3.py:136-154 | graphs, screens and applications: exactly output `extend`, sorted by name, the keyword filter |
| Slib2Zabbix.GetHistoryParams | slib2/s_zabbix3.py:170-174 | the keywords sit at the top level and override output `extend` and sort by `clock` |
| Slib2Zabbix.GetProxyParams | slib2/s_zabbix3.py:236-243 | a non-zero int proxy is looked up by `proxyids`, a non-empty byte or unicode string by `filter.host`, otherwise all proxies |
| Slib2Zabbix.WrapperRequest | slib2/s_zabbix3.py:157-278 | every wrapper calls its own API method; create and update calls send the caller's object unchanged; the host-interface request adds the `main` filter only when asked; the dependency, application and configuration-export calls send exactly the fields built from their arguments |
| Slib2Zabbix.OrEmpty | slib2/s_zabbix3.py:180-185 | a truthy result is returned as is; a falsy or missing result becomes an empty list; an exception propagates |
| Slib2Zabbix.CallWrapper | slib2/s_zabbix3.py:180-278 | a wrapper makes one query and returns a truthy result or an empty list |
| Slib2Zabbix.TriggerByIdRequest | slib2/s_zabbix3.py:129 | `trigger.get` for the given id, with output and functions `extend` |
| Slib2Zabbix.TriggerGetById | slib2/s_zabbix3.py:126-133 | as written: only a plain `int` (or bool) or a byte string of digits passes the guard; anything else, a unicode or `long` id included, raises on the unbound `result`; a passing id queries the trigger with its functions |
| Slib2Zabbix.GuardRejectsDecodedIds | slib2/s_zabbix3.py:128 | the unicode id `u"13491"` and the long `13491` are trigger ids that the guard rejects, `"abc"` is neither, and every id the guard lets through is a trigger id |
| Slib2Zabbix.TriggerGetByIdChecked | slib2/s_zabbix3.py:126-133 | corrected: anything that is not an integer or a digit string of either kind gives an empty list without a request; a trigger id queries as written; a returned value is truthy or an empty list |
| Slib3Zabbix.Connect | slib3/zabbix.py:13-28 | a session is returned exactly when one of the first `attempts` logins succeeds, and it is the first such login; otherwise None |
| Slib3Zabbix.Interpret | slib3/zabbix.py:45-51 | a non-dict gives None; `error` wins over `result`; a value exactly when the dict has `result` and no `error` |
| Slib3Zabbix.Query | slib3/zabbix.py:31-51 | with no attempts no post and None. Otherwise between 1 and `attempts` posts, where every post but the last raised and the loop stops early only after a post that returned. The result is the interpreted last response |
| Slib3Zabbix.InterpretAgreesWithSlib2 | slib3/zabbix.py:45-51 | on None and dict responses both versions give the same answer; on other values the Python 2 version raises where this one gives None |
| Slib3Zabbix.HostFilter | slib3/zabbix.py:57-68 | the filter holds every keyword unchanged, plus `host` for a truthy name unless a keyword `host` overrides it |
| Slib3Zabbix.HostGet | slib3/zabbix.py:57-68 | output `extend`, sorted by name, filter as above, `search {host: ""}` exactly when there is no name, `selectGroups` `extend` only when asked |
| Slib3Zabbix.ItemGet | slib3/zabbix.py:74-83 | exactly output `extend`, the keyword filter and the host under `hostids` or `host` |
| Slib3Zabbix.TriggerGet | slib3/zabbix.py:97-107 | as for items, plus `selectFunctions` `extend` |
| Slib3Zabbix.TemplateGet | slib3/zabbix.py:137-150 | always `with_items`; an int name goes to `templateids`, any other name to `filter.host`, which the keywords extend; `selectDiscoveries` `extend` only when asked |
| Slib3Zabbix.DiscoveryruleGet | slib3/zabbix.py:156-168 | the host goes under `hostids` or `host`; the filter is exactly the keywords; `selectItems` `extend` only when asked |
| Slib3Zabbix.SortedByNameGet | slib3/zabbix.py:174-221 | graphs, screens and applications: exactly output `extend`, sorted by name, the keyword filter |
| Slib3Zabbix.BuildersAgreeWithSlib2 | slib3/zabbix.py:74-168 | the item, trigger, discovery-rule and name-sorted builders give the same parameters as the Python 2 ones |
| Slib3Zabbix.TemplateAgreesWithSlib2 | slib3/zabbix.py:137-150 | the template builder gives the same parameters as the Python 2 one |
| Slib3Zabbix.HostGetAgainstSlib2 | slib3/zabbix.py:57-68 | with a name both versions agree; without one the Python 3 version also sends an empty filter |
| Slib3Zabbix.PassthroughRequest | slib3/zabbix.py:86-221 | each create or update call sends the caller's data unchanged under its own method name |
| Slib3Zabbix.Call | slib3/zabbix.py:86-91 | a pass-through call makes one query and returns the interpreted response, which is a value only for a returned dict |
| PidGuard.FileSystem.constructor | slib2/s_pid.py:17-64 | the filesystem starts with the given files and failure sets |
| PidGuard.Inspect | slib2/s_pid.py:19-42 | the guard finds no file exactly when the path is absent. A corrupt file has a non-numeric first line. Running and stale files hold a number, and the file is running exactly when that process is alive |
| PidGuard.WrittenPidReadsBack | slib2/s_pid.py:28-53 | the line the guard writes reads back as the writer's id, so a later start finds it running while the writer lives and stale after |
| Slib2Pid.MkPid | slib2/s_pid.py:17-53 | succeeds exactly when the file is absent or stale and can be written, and then the file holds the own id and a newline; on refusal the files are unchanged |
| Slib2Pid.RmFile | slib2/s_pid.py:56-64 | succeeds exactly when the file exists and can be deleted, and then it is gone; otherwise nothing changes |
| Slib3Pid.PidMkFile | slib3/pid.py:14-45 | the same rule as the Python 2 guard, with the process-table check as liveness |
| Slib2Input.InputConfirm | slib2/s_input.py:13-19 | confirms exactly when the line is `y` or `yes` in any mix of case, with nothing trimmed |
| Slib2Input.ConfirmIgnoresCase | slib2/s_input.py:16 | `y`, `Y`, `yes`, `YES`, `Yes` and `yEs` confirm |
| Slib2Input.OtherAnswersDecline | slib2/s_input.py:16-19 | the empty line, padded answers, `no`, `ok`, `ye` and `yess` decline |
| Slib3Log.LevelsStrictlyIncrease | slib3/log.py:17-25 | DEBUG2 < DEBUG1 < INFO < OK < SEPARATOR < WARNING < ERROR < CRITICAL < REQUEST |
| Slib3Log.GetEnvLevel | slib3/log.py:121-132 | each level is chosen exactly by its names in the lowercased `LOG_LEVEL`; anything else, or no variable, gives INFO |
| Slib3Log.GetEnvDatetime | slib3/log.py:134-141 | timestamps are on exactly when the lowercased `LOG_DATETIME` is `true` or `1` |
| Slib3Log.LevelSetTo | slib3/log.py:121-132 | setting `LOG_LEVEL` to a lowercase text selects the level the table gives that text |
| Slib3Log.AliasesAgree | slib3/log.py:122-130 | debug/debug1, info/information, warn/warning and crit/critical name the same levels |
| Slib3Log.LowerLowercase | slib3/log.py:124 | lowercasing an already lowercase name leaves it unchanged |
| Slib3Log.CustomLogger.constructor | slib3/log.py:76-105 | a new logger has colour on, the environment's level, and timestamps as the environment says |
| Slib3Log.CustomLogger.Setup | slib3/log.py:107-119 | only the settings given change; the others keep their values |

## Left out

- The JSON-RPC transport and the `ZabbixAPI` classes. They are not part of this model; posts and logins are parameters.
- The regular-expression engine. Compilation is the parameter `compiles`, and `search` is the parameter `matches`.
- `argparse` and `configparser`. The parsed arguments are the `Args` record, and each section is a map from the eight option keys to what its lookup gives: a text, or an exception. Other options in a section are never read, so they are not modelled.
- The configparser fallback from a job section to its own DEFAULT section. A lookup sees only what `Section` gives.
- Log messages, banners, colours, the verbose and no-colour flags, `slib2/s_log.py` and the formatters of `slib3/log.py`. They are presentation only.
- The SIGINT handler, `sys.exit`, the Windows console code and `2exe.py`. `2exe.py` is a build script with no logic.
- The `ssl` context.
- The host list and each host's rules, items and triggers are inputs of the model.
- The disable request's reply is not modelled; the model records only that the request was sent. A reply the script reads as falsy only changes its log line, but a reply that is not a dict makes `zabbix_query` raise AttributeError on `.keys()` and ends the run. `Slib2Zabbix.Interpret` states that crash for a single query.
- The operator's line is an input. `raw_input` raising EOFError on a closed input, which ends the run, is not modelled.
- A host, rule, item or trigger fetch that returns None. The script raises TypeError when it iterates a None list of rules, items or triggers; the model treats the lists as given.
- Python's string methods (`lower`, `strip`, `split`, `isdigit`, `find`) are modelled on ASCII text only, with space, tab, newline, carriage return, vertical tab and form feed as whitespace. Unicode text behaves differently:
  - `unicode.split` and `unicode.strip` also treat \x1c to \x1f, \x85 and the Unicode space characters as whitespace. For example, the id text `"1\x1c2"` gives the ids `1` and `2` in the script, but in the model it is one token that is not all digits, so it is dropped.
  - Non-ASCII letters are not lowercased, and non-ASCII digits do not count as digits.
- Slib3Pid.PidMkFile: the first line of the PID file ends at the first `\n` only. Python 3's text-mode `readline` also ends a line at a lone `\r`, so a file holding `"12\r34"` reads as pid 12 in the script but as a non-numeric line in the model.
- Slib2Pid.MkPid: liveness is a parameter, and a pid for which `os.kill` raises OSError counts as dead, as the source treats every OSError alike. A digit string too large for a C integer makes `os.kill` raise OverflowError instead, which `mkpid` does not catch. That exception, which ends the run, is not modelled: such a pid counts as dead or alive according to the parameter.
- Slib2Pid.MkPid: a failed write is modelled as leaving the file unchanged. A partly written file is not modelled.
- Slib3Pid.PidMkFile: the same two simplifications.
- Slib3Log.CustomLogger.Setup: the logging handler and the formatters' format strings are not modelled. Only the level, the colour flag and which of the two formatters is set are modelled.
- The code has no host-group filter; the group test in the script is commented out.
- The exclusion list has the five error texts of zabbix_check_status.py:27.
- A job skipped for a missing credential or a bad pattern leaves the run flag as it was. The script only logs an error and moves on to the next job (zabbix_check_status.py:128-154), and the model does the same.

## Findings

| source | as written | input that shows it | evidently intended | confidence | as-written member | corrected member |
|---|---|---|---|---|---|---|
| slib2/s_zabbix3.py:38-53 | with `attempts` of 0 or less the loop never runs and `result` is read unbound | `zabbix_query(server, "host.get", {}, attempts=0)` raises NameError | no post, and None returned, as the Python 3 version does | not executed | Slib2Zabbix.Query | Slib3Zabbix.Query |
| slib2/s_zabbix3.py:126-133 | the guard lets through only a plain `int` or a byte string of digits; any other id skips the query, and `result` is read unbound. A unicode digit id, which is how the API returns ids, and a `long` id fail the same way | `zabbix_trigger_get_by_id(server, u"13491")` raises NameError, as do `13491L` and `"abc"` | a numeric id of any of these kinds is queried; any other id gives an empty list without a request | not executed | Slib2Zabbix.TriggerGetById | Slib2Zabbix.TriggerGetByIdChecked |
| zabbix_check_status.py:169 | `zabbix_get_host` is called with `status=0`, a keyword it does not declare | a run outside test mode that logs in raises TypeError before any host is checked | the monitored hosts, `host.get` with `filter {status: 0}` | not executed | CheckStatus.HostListCallRaises | CheckStatus.MonitoredHostsRequest |
