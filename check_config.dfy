/**
 * Per-job configuration resolution of zabbix_check_status.py: built-in
 * defaults, overlaid by the `default` section, overlaid by the job's own
 * section; then the credentials are validated, the id lists split, the
 * exclusion patterns compiled and the interactive switch settled.
 *
 * Sections are maps from the keys of `config_job` (read under the option
 * names `Name` gives) to what `configparser` yields for them; the
 * regular-expression engine is reduced to a `compiles` predicate
 * on patterns.
 */
module CheckConfig {
  import opened Text
  import opened Rpc

  /** What looking an option up in a section gives: its text, or an exception (e.g. a bad interpolation). */
  datatype Entry = Given(text: string) | Broken

  /**
   * A section, by what it gives for each key of `config_job` (its other
   * options are never read); a key absent from the map is an option the
   * section does not have.
   */
  type Section = map<Key, Entry>

  /** The values the dict `config_job` holds. */
  datatype Value =
    | VNone
    | VStr(s: string)
    | VIds(ids: seq<string>)     // a list of id strings
    | VBool(b: bool)
    | VPattern(pattern: string)  // a compiled regular expression

  /** Python truthiness of a `config_job` value; a compiled pattern is always true. */
  predicate ValueTruthy(v: Value) {
    match v
    case VNone => false
    case VStr(s) => s != ""
    case VIds(ids) => ids != []
    case VBool(b) => b
    case VPattern(_) => true
  }

  /** The keys of `config_job`. */
  datatype Key =
    | ZdxHost | ZdxUser | ZdxPass
    | ExcludeItemIds | ExcludeItemRe
    | ExcludeTriggerIds | ExcludeTriggerRe
    | Interactive

  /** The option name a key is read under. */
  function Name(k: Key): string {
    match k
    case ZdxHost => "zdx_host"
    case ZdxUser => "zdx_user"
    case ZdxPass => "zdx_pass"
    case ExcludeItemIds => "exclude_item_ids"
    case ExcludeItemRe => "exclude_item_re"
    case ExcludeTriggerIds => "exclude_trigger_ids"
    case ExcludeTriggerRe => "exclude_trigger_re"
    case Interactive => "interactive"
  }

  /** The keys in the order the dict literal writes them. */
  const ConfigKeys: seq<Key> := [
    ZdxHost, ZdxUser, ZdxPass,
    ExcludeItemIds, ExcludeItemRe,
    ExcludeTriggerIds, ExcludeTriggerRe,
    Interactive]

  /** The position of a key in `ConfigKeys`. */
  function Position(k: Key): (i: nat)
    ensures i < |ConfigKeys| && ConfigKeys[i] == k
  {
    match k
    case ZdxHost => 0
    case ZdxUser => 1
    case ZdxPass => 2
    case ExcludeItemIds => 3
    case ExcludeItemRe => 4
    case ExcludeTriggerIds => 5
    case ExcludeTriggerRe => 6
    case Interactive => 7
  }

  /** The value each key has before any section is read. */
  function Builtin(k: Key): Value {
    match k
    case ExcludeItemIds => VIds([])
    case ExcludeTriggerIds => VIds([])
    case Interactive => VBool(false)
    case _ => VNone
  }

  const Builtins: map<Key, Value> := map k: Key | k in ConfigKeys :: Builtin(k)

  lemma BuiltinsTotal()
    ensures forall k: Key :: k in Builtins && Builtins[k] == Builtin(k)
  {
    forall k: Key ensures k in ConfigKeys {
      assert ConfigKeys[Position(k)] == k;
    }
  }

  /** A section sets a key only with a non-empty text. */
  predicate Overrides(sec: Section, k: Key) {
    k in sec && sec[k].Given? && sec[k].text != ""
  }

  /** The text a section gives a key it overrides. */
  function TextOf(sec: Section, k: Key): string
    requires Overrides(sec, k)
  {
    sec[k].text
  }

  /** Looking the key up in the section raises. */
  predicate Raises(sec: Section, k: Key) {
    k in sec && sec[k].Broken?
  }

  /** Some key of `config_job` cannot be looked up in the section. */
  predicate LookupRaises(sec: Section) {
    exists k :: Raises(sec, k)
  }

  /** One of the listed keys cannot be looked up in the section. */
  predicate RaisesAmong(sec: Section, keys: seq<Key>)
    decreases |keys|
  {
    keys != [] && (RaisesAmong(sec, keys[..|keys| - 1]) || Raises(sec, keys[|keys| - 1]))
  }

  /** Some listed key raises exactly when one at some position does. */
  lemma {:induction false} RaisesAmongAt(sec: Section, keys: seq<Key>)
    ensures RaisesAmong(sec, keys) <==> exists i :: 0 <= i < |keys| && Raises(sec, keys[i])
    decreases |keys|
  {
    if keys != [] {
      var init := keys[..|keys| - 1];
      RaisesAmongAt(sec, init);
      assert forall i :: 0 <= i < |init| ==> init[i] == keys[i];
      if RaisesAmong(sec, init) {
        var i :| 0 <= i < |init| && Raises(sec, init[i]);
        assert Raises(sec, keys[i]);
      }
    }
  }

  /** The section read over the listed keys in order: a key takes the section's text when it is non-empty. */
  function OverlayKeys(cfg: map<Key, Value>, sec: Section, keys: seq<Key>): (r: map<Key, Value>)
    requires forall k: Key :: k in cfg
    ensures forall k: Key :: k in r
    decreases |keys|
  {
    if keys == [] then cfg
    else
      var x := keys[|keys| - 1];
      var before := OverlayKeys(cfg, sec, keys[..|keys| - 1]);
      if Overrides(sec, x) then before[x := VStr(TextOf(sec, x))] else before
  }

  /** A full overlay pass over the keys of `config_job`. */
  function Overlay(cfg: map<Key, Value>, sec: Section): (r: map<Key, Value>)
    requires forall k: Key :: k in cfg
    ensures forall k: Key :: k in r
  {
    OverlayKeys(cfg, sec, ConfigKeys)
  }

  /** After reading the listed keys, a listed key holds the section's non-empty text and every other key is unchanged. */
  lemma {:induction false} OverlayKeysAt(cfg: map<Key, Value>, sec: Section, keys: seq<Key>, k: Key)
    requires forall k: Key :: k in cfg
    ensures OverlayKeys(cfg, sec, keys)[k] ==
      if k in keys && Overrides(sec, k) then VStr(TextOf(sec, k)) else cfg[k]
    decreases |keys|
  {
    if keys != [] {
      var init := keys[..|keys| - 1];
      OverlayKeysAt(cfg, sec, init, k);
      assert k in keys <==> k in init || k == keys[|keys| - 1];
    }
  }

  /**
   * One `for x in config_job` loop over a section: a key missing from the
   * section is skipped, a lookup that raises marks the run failed and
   * leaves the key as it was.
   */
  method OverlaySection(cfg: map<Key, Value>, sec: Section) returns (r: map<Key, Value>, raised: bool)
    requires forall k: Key :: k in cfg
    ensures r == Overlay(cfg, sec)
    ensures raised <==> LookupRaises(sec)
  {
    r, raised := cfg, false;
    for i := 0 to |ConfigKeys|
      invariant r == OverlayKeys(cfg, sec, ConfigKeys[..i])
      invariant raised <==> RaisesAmong(sec, ConfigKeys[..i])
    {
      var x := ConfigKeys[i];
      assert ConfigKeys[..i + 1][..i] == ConfigKeys[..i];
      if x in sec {
        match sec[x]
        case Broken =>
          raised := true;
        case Given(text) =>
          if text != "" {
            r := r[x := VStr(text)];
          }
      }
    }
    assert ConfigKeys[..|ConfigKeys|] == ConfigKeys;
    RaisesAmongAt(sec, ConfigKeys);
    forall k: Key | Raises(sec, k) ensures RaisesAmong(sec, ConfigKeys) {
      assert Raises(sec, ConfigKeys[Position(k)]);
    }
  }

  /** The text a key gets from the two sections: the job section's non-empty text, else the default section's. */
  function Winning(d: Section, j: Section, k: Key): Option<string> {
    if Overrides(j, k) then Some(TextOf(j, k))
    else if Overrides(d, k) then Some(TextOf(d, k))
    else None
  }

  /** The value a key ends up with after both overlays, stated key by key. */
  function Merged(d: Section, j: Section, k: Key): Value {
    match Winning(d, j, k)
    case Some(text) => VStr(text)
    case None => Builtin(k)
  }

  /** The job section wins over the default section, which wins over the built-in value. */
  lemma OverlayPrecedence(d: Section, j: Section, k: Key)
    requires forall k: Key :: k in Builtins
    ensures Overlay(Overlay(Builtins, d), j)[k] == Merged(d, j, k)
    ensures Merged(d, j, k).VStr? ==> Merged(d, j, k).s != ""
  {
    BuiltinsTotal();
    assert k in ConfigKeys by {
      assert ConfigKeys[Position(k)] == k;
    }
    OverlayKeysAt(Builtins, d, ConfigKeys, k);
    OverlayKeysAt(Overlay(Builtins, d), j, ConfigKeys, k);
  }

  /** The resolved configuration of a job. */
  datatype JobConfig = JobConfig(
    host: string, user: string, password: string,
    itemIds: seq<string>, itemRe: Option<string>,
    triggerIds: seq<string>, triggerRe: Option<string>,
    interactive: bool)

  /** Which check made the job be skipped. */
  datatype SkipReason = WrongHost | WrongUser | WrongPass | WrongItemRe | WrongTriggerRe

  datatype Resolution = Skip(reason: SkipReason) | Ready(config: JobConfig)

  /** An id list: a string is split on whitespace and only the all-digit tokens are kept. */
  function IdsOf(v: Value): seq<string> {
    match v
    case VStr(s) => FilterDigits(Split(s))
    case VIds(ids) => ids
    case _ => []
  }

  /** The pattern of a configured exclusion expression, if any. */
  function PatternOf(v: Value): Option<string> {
    match v
    case VStr(p) => Some(p)
    case VPattern(p) => Some(p)
    case _ => None
  }

  const TrueWords: set<string> := {"true", "yes", "on"}

  /** The configuration after both overlays, as a dict holding every key. */
  function MergedConfig(d: Section, j: Section): (m: map<Key, Value>)
    ensures forall k: Key :: k in m && m[k] == Merged(d, j, k)
  {
    BuiltinsTotal();
    map k | k in Builtins :: Merged(d, j, k)
  }

  /**
   * The checks and conversions made on a merged `config_job`: the three
   * credentials must be strings, the id strings are split, the patterns
   * compiled, and the interactive switch settled.
   */
  function Settle(cfg: map<Key, Value>, cliInteractive: bool, compiles: string -> bool): Resolution
    requires forall k: Key :: k in cfg
  {
    if !cfg[ZdxHost].VStr? then Skip(WrongHost)
    else if !cfg[ZdxUser].VStr? then Skip(WrongUser)
    else if !cfg[ZdxPass].VStr? then Skip(WrongPass)
    else if cfg[ExcludeItemRe].VStr? && !compiles(cfg[ExcludeItemRe].s) then Skip(WrongItemRe)
    else if cfg[ExcludeTriggerRe].VStr? && !compiles(cfg[ExcludeTriggerRe].s) then Skip(WrongTriggerRe)
    else
      Ready(JobConfig(
        cfg[ZdxHost].s, cfg[ZdxUser].s, cfg[ZdxPass].s,
        IdsOf(cfg[ExcludeItemIds]), PatternOf(cfg[ExcludeItemRe]),
        IdsOf(cfg[ExcludeTriggerIds]), PatternOf(cfg[ExcludeTriggerRe]),
        InteractiveOf(cliInteractive, cfg[Interactive])))
  }

  /**
   * A merged configuration is ready exactly when the three credentials are
   * strings and every pattern given as a string compiles; a pattern skip
   * names a pattern that does not compile; a ready job keeps the
   * credential strings.
   */
  lemma SettleCases(cfg: map<Key, Value>, cliInteractive: bool, compiles: string -> bool)
    requires forall k: Key :: k in cfg
    ensures var r := Settle(cfg, cliInteractive, compiles);
      && (r.Ready? <==>
            cfg[ZdxHost].VStr? && cfg[ZdxUser].VStr? && cfg[ZdxPass].VStr? &&
            (cfg[ExcludeItemRe].VStr? ==> compiles(cfg[ExcludeItemRe].s)) &&
            (cfg[ExcludeTriggerRe].VStr? ==> compiles(cfg[ExcludeTriggerRe].s)))
      && (r == Skip(WrongItemRe) ==> cfg[ExcludeItemRe].VStr? && !compiles(cfg[ExcludeItemRe].s))
      && (r == Skip(WrongTriggerRe) ==> cfg[ExcludeTriggerRe].VStr? && !compiles(cfg[ExcludeTriggerRe].s))
      && (r.Ready? ==>
            r.config.host == cfg[ZdxHost].s && r.config.user == cfg[ZdxUser].s && r.config.password == cfg[ZdxPass].s)
  {
  }

  /**
   * The interactive switch: set by the command line; a string other than
   * `true`, `yes` or `on` (any case) turns it off; any other value counts
   * by its truthiness.
   */
  predicate InteractiveOf(cliInteractive: bool, v: Value): (on: bool)
    ensures cliInteractive ==> on
    ensures !cliInteractive && v.VStr? ==> (on <==> Lower(v.s) in TrueWords)
    ensures !cliInteractive && v.VBool? ==> on == v.b
  {
    if cliInteractive then true
    else if v.VStr? && Lower(v.s) !in TrueWords then false
    else ValueTruthy(v)
  }

  /**
   * What the rest of the scan gets from the two sections: credentials,
   * exclusion lists and patterns, and the interactive switch.
   */
  function Resolve(d: Section, j: Section, cliInteractive: bool, compiles: string -> bool): (r: Resolution)
    ensures r.Ready? ==> r.config.host != "" && r.config.user != "" && r.config.password != ""
  {
    SettleCases(MergedConfig(d, j), cliInteractive, compiles);
    MergedText(d, j, ZdxHost);
    MergedText(d, j, ZdxUser);
    MergedText(d, j, ZdxPass);
    Settle(MergedConfig(d, j), cliInteractive, compiles)
  }

  /** The built-in values overlaid by the default section, then by the job section. */
  method OverlayBoth(d: Section, j: Section) returns (configJob: map<Key, Value>, raised: bool)
    ensures configJob == MergedConfig(d, j)
    ensures raised <==> LookupRaises(d) || LookupRaises(j)
  {
    BuiltinsTotal();
    configJob := Builtins;
    var raisedDefault, raisedJob;
    configJob, raisedDefault := OverlaySection(configJob, d);
    configJob, raisedJob := OverlaySection(configJob, j);
    raised := raisedDefault || raisedJob;
    forall k: Key ensures configJob[k] == Merged(d, j, k) {
      OverlayPrecedence(d, j, k);
    }
  }

  /** The checks and conversions, done in place on `config_job` as the job loop does them. */
  method SettleJob(configJob: map<Key, Value>, cliInteractive: bool, compiles: string -> bool)
    returns (res: Resolution)
    requires forall k: Key :: k in configJob
    ensures res == Settle(configJob, cliInteractive, compiles)
  {
    var cfg := configJob;
    if !cfg[ZdxHost].VStr? {
      return Skip(WrongHost);
    }
    if !cfg[ZdxUser].VStr? {
      return Skip(WrongUser);
    }
    if !cfg[ZdxPass].VStr? {
      return Skip(WrongPass);
    }
    cfg := SplitIdStrings(cfg);
    var failed;
    cfg, failed := CompilePatterns(cfg, compiles);
    if failed.Some? {
      return Skip(failed.value);
    }
    if cliInteractive {
      cfg := cfg[Interactive := VBool(true)];
    } else if cfg[Interactive].VStr? && Lower(cfg[Interactive].s) !in TrueWords {
      cfg := cfg[Interactive := VBool(false)];
    }
    res := Ready(JobConfig(
      cfg[ZdxHost].s, cfg[ZdxUser].s, cfg[ZdxPass].s,
      IdsOf(cfg[ExcludeItemIds]), PatternOf(cfg[ExcludeItemRe]),
      IdsOf(cfg[ExcludeTriggerIds]), PatternOf(cfg[ExcludeTriggerRe]),
      ValueTruthy(cfg[Interactive])));
  }

  /**
   * Each id string becomes the list of its all-digit words; an id list
   * keeps its ids, and nothing else changes.
   */
  method SplitIdStrings(cfg: map<Key, Value>) returns (r: map<Key, Value>)
    requires forall k: Key :: k in cfg
    ensures forall k: Key :: k in r
    ensures IdsOf(r[ExcludeItemIds]) == IdsOf(cfg[ExcludeItemIds])
    ensures IdsOf(r[ExcludeTriggerIds]) == IdsOf(cfg[ExcludeTriggerIds])
    ensures r[ZdxHost] == cfg[ZdxHost] && r[ZdxUser] == cfg[ZdxUser] && r[ZdxPass] == cfg[ZdxPass]
    ensures r[ExcludeItemRe] == cfg[ExcludeItemRe] && r[ExcludeTriggerRe] == cfg[ExcludeTriggerRe]
    ensures r[Interactive] == cfg[Interactive]
  {
    r := cfg;
    if r[ExcludeItemIds].VStr? {
      r := r[ExcludeItemIds := VIds(IdsOf(r[ExcludeItemIds]))];
    }
    if r[ExcludeTriggerIds].VStr? {
      r := r[ExcludeTriggerIds := VIds(IdsOf(r[ExcludeTriggerIds]))];
    }
  }

  /**
   * The pattern strings are compiled, the item pattern first; the first
   * one that does not compile is named and the job stops there.  A
   * compiled pattern keeps its text, and nothing else changes.
   */
  method CompilePatterns(cfg: map<Key, Value>, compiles: string -> bool)
    returns (r: map<Key, Value>, failed: Option<SkipReason>)
    requires forall k: Key :: k in cfg
    ensures forall k: Key :: k in r
    ensures failed == (
      if cfg[ExcludeItemRe].VStr? && !compiles(cfg[ExcludeItemRe].s) then Some(WrongItemRe)
      else if cfg[ExcludeTriggerRe].VStr? && !compiles(cfg[ExcludeTriggerRe].s) then Some(WrongTriggerRe)
      else None)
    ensures failed.None? ==>
      PatternOf(r[ExcludeItemRe]) == PatternOf(cfg[ExcludeItemRe]) &&
      PatternOf(r[ExcludeTriggerRe]) == PatternOf(cfg[ExcludeTriggerRe])
    ensures r[ZdxHost] == cfg[ZdxHost] && r[ZdxUser] == cfg[ZdxUser] && r[ZdxPass] == cfg[ZdxPass]
    ensures r[ExcludeItemIds] == cfg[ExcludeItemIds] && r[ExcludeTriggerIds] == cfg[ExcludeTriggerIds]
    ensures r[Interactive] == cfg[Interactive]
  {
    r, failed := cfg, None;
    if r[ExcludeItemRe].VStr? {
      var pattern := r[ExcludeItemRe].s;
      if compiles(pattern) {
        r := r[ExcludeItemRe := VPattern(pattern)];
      } else {
        return r, Some(WrongItemRe);
      }
    }
    if r[ExcludeTriggerRe].VStr? {
      var pattern := r[ExcludeTriggerRe].s;
      if compiles(pattern) {
        r := r[ExcludeTriggerRe := VPattern(pattern)];
      } else {
        return r, Some(WrongTriggerRe);
      }
    }
  }

  /**
   * The resolution step of the job loop: the two overlay loops, then the
   * checks and conversions.  `raised` is whether some lookup raised, which
   * marks the whole run failed without stopping the job.
   */
  method ResolveJob(d: Section, j: Section, cliInteractive: bool, compiles: string -> bool)
    returns (res: Resolution, raised: bool)
    ensures res == Resolve(d, j, cliInteractive, compiles)
    ensures raised <==> LookupRaises(d) || LookupRaises(j)
  {
    var configJob;
    configJob, raised := OverlayBoth(d, j);
    res := SettleJob(configJob, cliInteractive, compiles);
  }
  /**
   * A job is skipped for its server URL exactly when neither section gives
   * a non-empty `zdx_host`; user and password are checked the same way,
   * in that order.
   */
  lemma CredentialsRequired(d: Section, j: Section, cli: bool, compiles: string -> bool)
    ensures Resolve(d, j, cli, compiles) == Skip(WrongHost) <==> !Overrides(j, ZdxHost) && !Overrides(d, ZdxHost)
    ensures Resolve(d, j, cli, compiles) == Skip(WrongUser) <==>
      (Overrides(j, ZdxHost) || Overrides(d, ZdxHost)) &&
      !Overrides(j, ZdxUser) && !Overrides(d, ZdxUser)
    ensures Resolve(d, j, cli, compiles) == Skip(WrongPass) <==>
      (Overrides(j, ZdxHost) || Overrides(d, ZdxHost)) &&
      (Overrides(j, ZdxUser) || Overrides(d, ZdxUser)) &&
      !Overrides(j, ZdxPass) && !Overrides(d, ZdxPass)
  {
  }

  /** The credentials come from the job section when it gives them, else from the default section. */
  lemma CredentialsSource(d: Section, j: Section, cli: bool, compiles: string -> bool)
    requires Resolve(d, j, cli, compiles).Ready?
    ensures var c := Resolve(d, j, cli, compiles).config;
      && c.host == (if Overrides(j, ZdxHost) then TextOf(j, ZdxHost) else TextOf(d, ZdxHost))
      && c.user == (if Overrides(j, ZdxUser) then TextOf(j, ZdxUser) else TextOf(d, ZdxUser))
      && c.password == (if Overrides(j, ZdxPass) then TextOf(j, ZdxPass) else TextOf(d, ZdxPass))
  {
  }

  /**
   * A job is ready exactly when all three credentials are given and every
   * exclusion pattern it is given compiles, whichever section gives it.
   */
  lemma ResolveReady(d: Section, j: Section, cli: bool, compiles: string -> bool)
    ensures Resolve(d, j, cli, compiles).Ready? <==>
      Winning(d, j, ZdxHost).Some? && Winning(d, j, ZdxUser).Some? && Winning(d, j, ZdxPass).Some? &&
      (Winning(d, j, ExcludeItemRe).Some? ==> compiles(Winning(d, j, ExcludeItemRe).value)) &&
      (Winning(d, j, ExcludeTriggerRe).Some? ==> compiles(Winning(d, j, ExcludeTriggerRe).value))
  {
    SettleCases(MergedConfig(d, j), cli, compiles);
    MergedText(d, j, ZdxHost);
    MergedText(d, j, ZdxUser);
    MergedText(d, j, ZdxPass);
    MergedText(d, j, ExcludeItemRe);
    MergedText(d, j, ExcludeTriggerRe);
  }

  /** A merged value is a string exactly when some section gives the key, and then it is that text. */
  lemma MergedText(d: Section, j: Section, k: Key)
    ensures Merged(d, j, k).VStr? <==> Winning(d, j, k).Some?
    ensures Winning(d, j, k).Some? ==> Merged(d, j, k).s == Winning(d, j, k).value != ""
  {
  }

  /**
   * What a ready job excludes: the all-digit words of the winning id
   * texts (none when neither section gives one), and the winning patterns.
   */
  lemma ReadyConfig(d: Section, j: Section, cli: bool, compiles: string -> bool)
    requires Resolve(d, j, cli, compiles).Ready?
    ensures var c := Resolve(d, j, cli, compiles).config;
      && c.itemIds == (match Winning(d, j, ExcludeItemIds) case Some(t) => FilterDigits(Split(t)) case None => [])
      && c.triggerIds == (match Winning(d, j, ExcludeTriggerIds) case Some(t) => FilterDigits(Split(t)) case None => [])
      && c.itemRe == Winning(d, j, ExcludeItemRe)
      && c.triggerRe == Winning(d, j, ExcludeTriggerRe)
  {
    var m := MergedConfig(d, j);
    SettledFields(m, cli, compiles);
    MergedLists(d, j);
  }

  /** A ready settlement takes the id lists and patterns from the merged values. */
  lemma SettledFields(cfg: map<Key, Value>, cli: bool, compiles: string -> bool)
    requires forall k: Key :: k in cfg
    requires Settle(cfg, cli, compiles).Ready?
    ensures var c := Settle(cfg, cli, compiles).config;
      && c.itemIds == IdsOf(cfg[ExcludeItemIds]) && c.triggerIds == IdsOf(cfg[ExcludeTriggerIds])
      && c.itemRe == PatternOf(cfg[ExcludeItemRe]) && c.triggerRe == PatternOf(cfg[ExcludeTriggerRe])
  {
  }

  /** The id lists and patterns of the merged values, by the winning texts. */
  lemma MergedLists(d: Section, j: Section)
    ensures IdsOf(Merged(d, j, ExcludeItemIds)) ==
      (match Winning(d, j, ExcludeItemIds) case Some(t) => FilterDigits(Split(t)) case None => [])
    ensures IdsOf(Merged(d, j, ExcludeTriggerIds)) ==
      (match Winning(d, j, ExcludeTriggerIds) case Some(t) => FilterDigits(Split(t)) case None => [])
    ensures PatternOf(Merged(d, j, ExcludeItemRe)) == Winning(d, j, ExcludeItemRe)
    ensures PatternOf(Merged(d, j, ExcludeTriggerRe)) == Winning(d, j, ExcludeTriggerRe)
  {
  }

  /**
   * A winning item or trigger pattern that does not compile skips the
   * job, from either section.  With all credentials given, the skip names
   * the item pattern when that one is bad, and the trigger pattern
   * otherwise.
   */
  lemma BadPatternSkips(d: Section, j: Section, cli: bool, compiles: string -> bool, k: Key)
    requires k == ExcludeItemRe || k == ExcludeTriggerRe
    requires Winning(d, j, k).Some? && !compiles(Winning(d, j, k).value)
    ensures Resolve(d, j, cli, compiles).Skip?
    ensures Winning(d, j, ZdxHost).Some? && Winning(d, j, ZdxUser).Some? && Winning(d, j, ZdxPass).Some? ==>
      Resolve(d, j, cli, compiles).reason ==
        if Winning(d, j, ExcludeItemRe).Some? && !compiles(Winning(d, j, ExcludeItemRe).value)
        then WrongItemRe else WrongTriggerRe
  {
    ResolveReady(d, j, cli, compiles);
    SettleCases(MergedConfig(d, j), cli, compiles);
    MergedText(d, j, ExcludeItemRe);
    MergedText(d, j, ExcludeTriggerRe);
  }

  /**
   * Interactive is on exactly when the command line asks for it or the
   * winning section text is `true`, `yes` or `on` in any case.
   */
  lemma InteractiveSetting(d: Section, j: Section, cli: bool, compiles: string -> bool)
    requires Resolve(d, j, cli, compiles).Ready?
    ensures Resolve(d, j, cli, compiles).config.interactive <==>
      cli ||
      (Overrides(j, Interactive) && Lower(TextOf(j, Interactive)) in TrueWords) ||
      (!Overrides(j, Interactive) && Overrides(d, Interactive) && Lower(TextOf(d, Interactive)) in TrueWords)
  {
    assert Resolve(d, j, cli, compiles).config.interactive == InteractiveOf(cli, MergedConfig(d, j)[Interactive]);
    MergedInteractive(d, j, cli);
  }

  /** The interactive rule applied to the merged value. */
  lemma MergedInteractive(d: Section, j: Section, cli: bool)
    ensures InteractiveOf(cli, Merged(d, j, Interactive)) <==>
      cli ||
      (Overrides(j, Interactive) && Lower(TextOf(j, Interactive)) in TrueWords) ||
      (!Overrides(j, Interactive) && Overrides(d, Interactive) && Lower(TextOf(d, Interactive)) in TrueWords)
  {
    var v := Merged(d, j, Interactive);
    assert v.VStr? ==> v.s != "";
    assert !v.VStr? ==> v == VBool(false);
  }

  /**
   * An id list written as digit tokens separated by single spaces is read
   * back as those tokens, in order.
   */
  lemma {:induction false} IdListRoundTrip(ids: seq<string>)
    requires forall i :: 0 <= i < |ids| ==> IsDigits(ids[i])
    ensures IdsOf(VStr(JoinWords(ids))) == ids
  {
    forall i | 0 <= i < |ids| ensures ids[i] != [] && NoSpace(ids[i]) {
      assert IsDigits(ids[i]);
    }
    SplitJoinWords(ids);
    FilterAllDigits(ids);
  }

  /** Every id kept from a configured list is an all-digit token of it, and every such token is kept. */
  lemma IdListTokens(s: string)
    ensures forall t :: t in IdsOf(VStr(s)) <==> t in Split(s) && IsDigits(t)
  {
  }
}
