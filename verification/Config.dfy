/**
  From a client's options to librdkafka's settings: lib/exrdkafka/config.ex splits and renames the
  options, c_src/exrdkafka_config.cc sets them one by one over the library's own defaults. That
  librdkafka never stores an offset by itself rests on what comes out.
 */
module Config {
  import opened Prelude
  import opened ConfigKeys

  /** An Erlang term, as far as the options care: text is a binary or a list of characters. */
  datatype Value = Text(text: string) | Atom(name: string) | Number(text: string) | Fun(arity: nat) | Opaque

  datatype Entry = Pair(key: Value, value: Value) | NotAPair

  datatype Failure =
    | BadOption(key: Value, value: Value)   // {:error, {:options, {k, v}}}
    | BadStrategy(value: Value)             // {:error, {:options, v}}
    | NoClause                              // a function clause error, caught like the others

  type Setting = (string, string)

  datatype Converted = Accepted(own: seq<Entry>, rdk: seq<Setting>) | Failed(failure: Failure)

  datatype Verdict = Own | Pass(setting: Setting) | Bad(failure: Failure)

  function ToBinary(v: Value): Option<string> {
    match v
    case Text(text) => Some(text)
    case Atom(name) => Some(name)
    case Number(text) => Some(text)
    case _ => None
  }

  /** String.replace(key, "_", "."). */
  function Dotted(key: string): (r: string)
    ensures |r| == |key| && forall i :: 0 <= i < |r| ==> r[i] == if key[i] == '_' then '.' else key[i]
  {
    seq(|key|, i requires 0 <= i < |key| => if key[i] == '_' then '.' else key[i])
  }

  function ToLibrdkafka(key: Value, value: Value): Verdict {
    if !key.Atom? || !IsKafkaKey(key.name) then Bad(BadOption(key, value))
    else
      match ToBinary(value)
      case Some(text) => Pass((Dotted(key.name), text))
      case None => Bad(NoClause)
  }

  predicate IsCallback(v: Value) {
    v == Fun(2) || v.Atom?
  }

  predicate IsStrategy(v: Value) {
    v in {Atom("local_disk_queue"), Atom("block_calling_process"), Atom("drop_records")}
  }

  function Judge(e: Entry): Verdict {
    match e
    case NotAPair => Bad(NoClause)
    case Pair(k, v) =>
      if k == Atom("delivery_report_callback") || k == Atom("stats_callback") then
        if IsCallback(v) then Own else Bad(BadOption(k, v))
      else if k == Atom("queue_buffering_overflow_strategy") then
        if IsStrategy(v) then Own else Bad(BadStrategy(v))
      else ToLibrdkafka(k, v)
  }

  /** filter_kafka_config: both results are accumulated in reverse. */
  function Filter(conf: seq<Entry>, own: seq<Entry>, rdk: seq<Setting>): Converted {
    if conf == [] then Accepted(own, rdk)
    else
      match Judge(conf[0])
      case Own => Filter(conf[1..], [conf[0]] + own, rdk)
      case Pass(setting) => Filter(conf[1..], own, [setting] + rdk)
      case Bad(failure) => Failed(failure)
  }

  function Convert(conf: seq<Entry>): Converted {
    Filter(conf, [], [])
  }

  // ------------------------------------------------------------------ what is accepted

  /** The text of the first option that becomes this setting. */
  function FirstOf(conf: seq<Entry>, name: string): Option<string> {
    if conf == [] then None
    else
      var v := Judge(conf[0]);
      if v.Pass? && v.setting.0 == name then Some(v.setting.1) else FirstOf(conf[1..], name)
  }

  /** The settings after one rd_kafka_conf_set after another. */
  function Applied(base: map<string, string>, list: seq<Setting>): map<string, string>
    decreases |list|
  {
    if list == [] then base
    else Applied(base, list[..|list| - 1])[list[|list| - 1].0 := list[|list| - 1].1]
  }

  lemma {:induction false} AppliedAppend(base: map<string, string>, a: seq<Setting>, b: seq<Setting>)
    ensures Applied(base, a + b) == Applied(Applied(base, a), b)
    decreases |b|
  {
    if b == [] {
      assert a + b == a;
    } else {
      var n := |b| - 1;
      assert (a + b)[..|a| + n] == a + b[..n];
      AppliedAppend(base, a, b[..n]);
    }
  }

  /** Theorem. Conversion fails exactly when some option is bad, with what is wrong about the
      first such option. */
  lemma {:induction false} FilterFailsOnFirstBad(conf: seq<Entry>, own: seq<Entry>, rdk: seq<Setting>)
    ensures Filter(conf, own, rdk).Accepted? <==> forall e :: e in conf ==> !Judge(e).Bad?
    ensures Filter(conf, own, rdk).Failed? ==>
      exists i :: 0 <= i < |conf| && Judge(conf[i]) == Bad(Filter(conf, own, rdk).failure)
        && forall j :: 0 <= j < i ==> !Judge(conf[j]).Bad?
    decreases |conf|, 0
  {
    if conf != [] {
      hide Judge;
      var rest := conf[1..];
      match Judge(conf[0])
      case Own => FailsLater(conf, [conf[0]] + own, rdk, Filter(conf, own, rdk));
      case Pass(setting) => FailsLater(conf, own, [setting] + rdk, Filter(conf, own, rdk));
      case Bad(_) =>
    }
  }

  lemma {:induction false} FailsLater(conf: seq<Entry>, own: seq<Entry>, rdk: seq<Setting>, r: Converted)
    requires conf != [] && !Judge(conf[0]).Bad? && r == Filter(conf[1..], own, rdk)
    ensures r.Accepted? <==> forall e :: e in conf ==> !Judge(e).Bad?
    ensures r.Failed? ==>
      exists i :: 0 <= i < |conf| && Judge(conf[i]) == Bad(r.failure) && forall j :: 0 <= j < i ==> !Judge(conf[j]).Bad?
    decreases |conf| - 1, 1
  {
    hide Judge;
    var rest := conf[1..];
    FilterFailsOnFirstBad(rest, own, rdk);
    assert forall e :: e in conf <==> e == conf[0] || e in rest;
    if r.Failed? {
      var i :| 0 <= i < |rest| && Judge(rest[i]) == Bad(r.failure) && forall j :: 0 <= j < i ==> !Judge(rest[j]).Bad?;
      assert conf[i + 1] == rest[i];
      assert forall j :: 0 < j < i + 1 ==> conf[j] == rest[j - 1];
    }
  }

  predicate IsCallbackKey(key: Value) {
    key == Atom("delivery_report_callback") || key == Atom("stats_callback")
  }

  /** The option is a callback of two arguments or a module, one of the three strategies, or a setting
      of librdkafka with a value that can be written as text. */
  predicate IsFine(e: Entry) {
    && e.Pair? && e.key.Atom?
    && (IsCallbackKey(e.key) ==> e.value == Fun(2) || e.value.Atom?)
    && (e.key.name == "queue_buffering_overflow_strategy" ==>
          e.value.Atom? && e.value.name in {"local_disk_queue", "block_calling_process", "drop_records"})
    && (!IsCallbackKey(e.key) && e.key.name != "queue_buffering_overflow_strategy" ==>
          IsKafkaKey(e.key.name) && (e.value.Text? || e.value.Atom? || e.value.Number?))
  }

  lemma FineIsNotBad(e: Entry)
    ensures IsFine(e) <==> !Judge(e).Bad?
    ensures e.NotAPair? ==> Judge(e) == Bad(NoClause)
    ensures e.Pair? && !IsFine(e) ==>
      Judge(e) == Bad(
        if e.key == Atom("queue_buffering_overflow_strategy") then BadStrategy(e.value)
        else if !IsCallbackKey(e.key) && e.key.Atom? && IsKafkaKey(e.key.name) then NoClause
        else BadOption(e.key, e.value))
  {
    hide IsKafkaKey;
  }

  /** Theorem. Options are accepted exactly when each of them is fine. Otherwise the first that is not
      is complained about: a strategy by its value, an unknown option or a wrong callback by name and
      value, and what is no pair, or has a value that cannot be written, as a clause error. */
  lemma AcceptedExactly(conf: seq<Entry>)
    ensures Convert(conf).Accepted? <==> forall e :: e in conf ==> IsFine(e)
    ensures Convert(conf).Failed? ==>
      exists i :: 0 <= i < |conf| && !IsFine(conf[i]) && (forall j :: 0 <= j < i ==> IsFine(conf[j]))
        && Convert(conf).failure == (
             if conf[i].NotAPair? then NoClause
             else if conf[i].key == Atom("queue_buffering_overflow_strategy") then BadStrategy(conf[i].value)
             else if !IsCallbackKey(conf[i].key) && conf[i].key.Atom? && IsKafkaKey(conf[i].key.name) then NoClause
             else BadOption(conf[i].key, conf[i].value))
  {
    hide Judge, IsFine, IsKafkaKey;
    FilterFailsOnFirstBad(conf, [], []);
    forall e ensures IsFine(e) <==> !Judge(e).Bad? {
      FineIsNotBad(e);
    }
    if Convert(conf).Failed? {
      var i :| 0 <= i < |conf| && Judge(conf[i]) == Bad(Convert(conf).failure) &&
        forall j :: 0 <= j < i ==> !Judge(conf[j]).Bad?;
      FineIsNotBad(conf[i]);
      assert !IsFine(conf[i]);
    }
  }

  /** What filter_kafka_config accumulates from a list: the settings, last first. */
  function Passes(conf: seq<Entry>): seq<Setting> {
    if conf == [] then []
    else
      var v := Judge(conf[0]);
      Passes(conf[1..]) + if v.Pass? then [v.setting] else []
  }

  lemma {:induction false} FilterStep(conf: seq<Entry>, own: seq<Entry>, rdk: seq<Setting>)
    requires conf != [] && !Judge(conf[0]).Bad?
    ensures var v := Judge(conf[0]);
      && Passes(conf) == Passes(conf[1..]) + (if v.Own? then [] else [v.setting])
      && Filter(conf, own, rdk) ==
         if v.Own? then Filter(conf[1..], [conf[0]] + own, rdk) else Filter(conf[1..], own, [v.setting] + rdk)
  {
    hide Judge;
  }

  lemma {:induction false} FilterAccumulates(conf: seq<Entry>, own: seq<Entry>, rdk: seq<Setting>)
    requires Filter(conf, own, rdk).Accepted?
    ensures Filter(conf, own, rdk).rdk == Passes(conf) + rdk
    decreases |conf|
  {
    hide Judge;
    if conf == [] {
    } else {
      assert !Judge(conf[0]).Bad?;
      FilterStep(conf, own, rdk);
      hide Filter, Passes;
      var v := Judge(conf[0]);
      if v.Own? {
        FilterAccumulates(conf[1..], [conf[0]] + own, rdk);
      } else {
        FilterAccumulates(conf[1..], own, [v.setting] + rdk);
        Regroup(Passes(conf[1..]), v.setting, rdk);
      }
    }
  }

  lemma Regroup(a: seq<Setting>, s: Setting, b: seq<Setting>)
    ensures a + ([s] + b) == (a + [s]) + b
  {
  }

  /** Accumulating in reverse and letting the last one win is to let the first one win. */
  lemma {:induction false} FirstWins(base: map<string, string>, conf: seq<Entry>, name: string)
    ensures var (settings, first) := (Applied(base, Passes(conf)), FirstOf(conf, name));
      && (first.Some? ==> name in settings && settings[name] == first.value)
      && (first.None? ==> (name in settings <==> name in base) && (name in base ==> settings[name] == base[name]))
    decreases |conf|
  {
    if conf == [] {
    } else {
      hide Judge;
      var v := Judge(conf[0]);
      FirstWins(base, conf[1..], name);
      if v.Pass? {
        AppliedAppend(base, Passes(conf[1..]), [v.setting]);
        AppliedOne(Applied(base, Passes(conf[1..])), v.setting);
      } else {
        assert Passes(conf) == Passes(conf[1..]);
      }
    }
  }

  lemma AppliedOne(base: map<string, string>, s: Setting)
    ensures Applied(base, [s]) == base[s.0 := s.1]
  {
    assert [s][..0] == [];
  }

  lemma DottedIsInjective(a: string, b: string)
    requires '.' !in a && '.' !in b && Dotted(a) == Dotted(b)
    ensures a == b
  {
    assert |a| == |Dotted(a)| == |b|;
    forall i | 0 <= i < |a| ensures a[i] == b[i] {
      assert a[i] in a && b[i] in b;
      assert Dotted(a)[i] == Dotted(b)[i];
    }
  }

  // ----------------------------------------------------------------------- the C side

  const AUTO_COMMIT := "enable.auto.commit"
  const AUTO_OFFSET_STORE := "enable.auto.offset.store"
  const PARTITION_EOF := "enable.partition.eof"

  /** appy_kafka_default_config; the last one only where SIGIO is defined. */
  function Defaults(sigio: Option<string>): seq<Setting> {
    [(AUTO_COMMIT, "true"), (AUTO_OFFSET_STORE, "false"), (PARTITION_EOF, "false"),
     ("allow.auto.create.topics", "true")]
    + if sigio.Some? then [("internal.termination.signal", sigio.value)] else []
  }

  /** An element of the list that the NIF is handed. */
  datatype Item = Tuple(setting: Setting) | Malformed

  datatype ParseResult = ParseOk | BadOptions(item: Item) | Refused(setting: Setting) | DefaultsRefused

  /** rd_kafka_conf_t. `accepts` is librdkafka's judgement of a name and value. */
  class KafkaConf {
    const accepts: Setting -> bool
    var settings: map<string, string>

    constructor (accepts: Setting -> bool)
      ensures this.accepts == accepts && settings == map[]
    {
      this.accepts, settings := accepts, map[];
    }

    method Set(s: Setting) returns (ok: bool)
      modifies this
      ensures ok == accepts(s) && settings == if ok then old(settings)[s.0 := s.1] else old(settings)
    {
      ok := accepts(s);
      if ok { settings := settings[s.0 := s.1]; }
    }
  }

  /** The first `k` items are settings that librdkafka accepts. */
  ghost predicate FineUpTo(list: seq<Item>, accepts: Setting -> bool, k: nat)
    requires k <= |list|
  {
    forall i :: 0 <= i < k ==> list[i].Tuple? && accepts(list[i].setting)
  }

  function SettingsOf(list: seq<Item>): (r: seq<Setting>)
    requires forall item :: item in list ==> item.Tuple?
    ensures |r| == |list| && forall i :: 0 <= i < |r| ==> r[i] == list[i].setting
  {
    seq(|list|, i requires 0 <= i < |list| => list[i].setting)
  }

  /** parse_config: the settings are applied in order, up to the first that is at fault. */
  method ParseConfig(list: seq<Item>, conf: KafkaConf) returns (r: ParseResult)
    modifies conf
    ensures r.ParseOk? <==> FineUpTo(list, conf.accepts, |list|)
    ensures r.ParseOk? ==> conf.settings == Applied(old(conf.settings), SettingsOf(list))
    ensures !r.ParseOk? ==>
      exists k :: 0 <= k < |list| && FineUpTo(list, conf.accepts, k)
        && conf.settings == Applied(old(conf.settings), SettingsOf(list[..k]))
        && r == (if list[k].Malformed? then BadOptions(list[k]) else Refused(list[k].setting))
        && (list[k].Tuple? ==> !conf.accepts(list[k].setting))
  {
    var i := 0;
    while i < |list|
      invariant 0 <= i <= |list| && FineUpTo(list, conf.accepts, i)
      invariant conf.settings == Applied(old(conf.settings), SettingsOf(list[..i]))
    {
      match list[i]
      case Malformed =>
        return BadOptions(list[i]);
      case Tuple(s) =>
        var ok := conf.Set(s);
        if !ok { return Refused(s); }
        assert SettingsOf(list[..i + 1])[..i] == SettingsOf(list[..i]);
        i := i + 1;
    }
    assert list[..i] == list;
    return ParseOk;
  }

  method ParseKafkaConfig(list: seq<Item>, sigio: Option<string>, conf: KafkaConf) returns (r: ParseResult)
    requires conf.settings == map[]
    modifies conf
    ensures r.ParseOk? ==>
      && FineUpTo(list, conf.accepts, |list|)
      && conf.settings == Applied(Applied(map[], Defaults(sigio)), SettingsOf(list))
    ensures r.ParseOk? <==> FineUpTo(list, conf.accepts, |list|) && forall s :: s in Defaults(sigio) ==> conf.accepts(s)
    ensures r.DefaultsRefused? <==> exists s :: s in Defaults(sigio) && !conf.accepts(s)
  {
    var defaults := Defaults(sigio);
    var i := 0;
    while i < |defaults|
      invariant 0 <= i <= |defaults| && conf.settings == Applied(map[], defaults[..i])
      invariant forall j :: 0 <= j < i ==> conf.accepts(defaults[j])
    {
      var ok := conf.Set(defaults[i]);
      if !ok { return DefaultsRefused; }
      assert defaults[..i + 1][..i] == defaults[..i];
      i := i + 1;
    }
    assert defaults[..i] == defaults;
    r := ParseConfig(list, conf);
  }

  // -------------------------------------------------------------------------- theorems

  /** What the client ends up with, when its options are converted and parsed without error. */
  function Final(conf: seq<Entry>, sigio: Option<string>): map<string, string>
    requires Convert(conf).Accepted?
  {
    Applied(Applied(map[], Defaults(sigio)), Convert(conf).rdk)
  }

  lemma DefaultSettings(sigio: Option<string>)
    ensures var base := Applied(map[], Defaults(sigio));
      && AUTO_COMMIT in base && base[AUTO_COMMIT] == "true"
      && AUTO_OFFSET_STORE in base && base[AUTO_OFFSET_STORE] == "false"
      && PARTITION_EOF in base && base[PARTITION_EOF] == "false"
      && "allow.auto.create.topics" in base && base["allow.auto.create.topics"] == "true"
  {
    var list := Defaults(sigio);
    assert |AUTO_COMMIT| == 18 && |AUTO_OFFSET_STORE| == 24 && AUTO_OFFSET_STORE[0] == 'e' && |PARTITION_EOF| == 20;
    assert |"allow.auto.create.topics"| == 24 && "allow.auto.create.topics"[0] == 'a' &&
      |"internal.termination.signal"| == 27;
    LastOfItsName(map[], list, 0);
    LastOfItsName(map[], list, 1);
    LastOfItsName(map[], list, 2);
    LastOfItsName(map[], list, 3);
  }

  lemma {:induction false} LastOfItsName(base: map<string, string>, list: seq<Setting>, i: nat)
    requires i < |list| && forall j :: i < j < |list| ==> list[j].0 != list[i].0
    ensures list[i].0 in Applied(base, list) && Applied(base, list)[list[i].0] == list[i].1
    decreases |list|
  {
    if i == |list| - 1 {
    } else {
      LastOfItsName(base, list[..|list| - 1], i);
    }
  }

  /** No option becomes one of the reserved settings. */
  lemma {:induction false} ReservedIsNotPassed(conf: seq<Entry>, name: string)
    requires name == AUTO_COMMIT || name == AUTO_OFFSET_STORE || name == PARTITION_EOF
    ensures FirstOf(conf, name).None?
    decreases |conf|
  {
    if conf == [] {
    } else {
      ReservedIsNotPassed(conf[1..], name);
      var v := Judge(conf[0]);
      if v.Pass? {
        JudgedName(conf[0]);
        ReservedIsApart(conf[0].key.name, name);
      }
    }
  }

  lemma JudgedName(e: Entry)
    requires Judge(e).Pass?
    ensures e.Pair? && e.key.Atom? && IsKafkaKey(e.key.name) && '.' !in e.key.name
    ensures Judge(e).setting.0 == Dotted(e.key.name) && Some(Judge(e).setting.1) == ToBinary(e.value)
  {
    hide IsKafkaKey;
    KafkaKeysArePlain(e.key.name);
  }

  lemma ReservedIsApart(key: string, name: string)
    requires name == AUTO_COMMIT || name == AUTO_OFFSET_STORE || name == PARTITION_EOF
    requires IsKafkaKey(key)
    ensures Dotted(key) != name
  {
    hide IsKafkaKey;
    KafkaKeysArePlain(key);
    var d := Dotted(key);
    assert |AUTO_COMMIT| == 18 && AUTO_COMMIT[8] == 'u' && |AUTO_OFFSET_STORE| == 24 && AUTO_OFFSET_STORE[8] == 'u';
    assert |PARTITION_EOF| == 20 && PARTITION_EOF[0] == 'e';
  }

  /** Theorem. Whatever options a client is given, if they are accepted librdkafka does not store
      offsets by itself, commits what is stored, and reports no end of partition. */
  lemma OffsetsAreStoredByHandOnly(conf: seq<Entry>, sigio: Option<string>)
    requires Convert(conf).Accepted?
    ensures var settings := Final(conf, sigio);
      && AUTO_OFFSET_STORE in settings && settings[AUTO_OFFSET_STORE] == "false"
      && AUTO_COMMIT in settings && settings[AUTO_COMMIT] == "true"
      && PARTITION_EOF in settings && settings[PARTITION_EOF] == "false"
  {
    hide Defaults;
    DefaultSettings(sigio);
    FinalIsFirst(conf, sigio, AUTO_OFFSET_STORE);
    FinalIsFirst(conf, sigio, AUTO_COMMIT);
    FinalIsFirst(conf, sigio, PARTITION_EOF);
    ReservedIsNotPassed(conf, AUTO_OFFSET_STORE);
    ReservedIsNotPassed(conf, AUTO_COMMIT);
    ReservedIsNotPassed(conf, PARTITION_EOF);
  }

  /** Theorem. Every setting has the value of the first option that becomes it, or the default if
      there is none. */
  lemma FinalIsFirst(conf: seq<Entry>, sigio: Option<string>, name: string)
    requires Convert(conf).Accepted?
    ensures var (settings, base, first) := (Final(conf, sigio), Applied(map[], Defaults(sigio)), FirstOf(conf, name));
      && (first.Some? ==> name in settings && settings[name] == first.value)
      && (first.None? ==> (name in settings <==> name in base) && (name in base ==> settings[name] == base[name]))
  {
    hide Judge, Defaults;
    FilterAccumulates(conf, [], []);
    assert Passes(conf) + [] == Passes(conf);
    FirstWins(Applied(map[], Defaults(sigio)), conf, name);
  }

  /** Theorem. Topics are created on demand unless an option says otherwise: the one setting of the
      library's own that a client can change. */
  lemma TopicsAreCreatedUnlessSet(conf: seq<Entry>, sigio: Option<string>)
    requires Convert(conf).Accepted?
    requires forall e :: e in conf && e.Pair? ==> e.key != Atom("allow_auto_create_topics")
    ensures var settings := Final(conf, sigio);
      "allow.auto.create.topics" in settings && settings["allow.auto.create.topics"] == "true"
  {
    hide Judge, Defaults, Final;
    var (key, name) := ("allow_auto_create_topics", "allow.auto.create.topics");
    DefaultSettings(sigio);
    FinalIsFirst(conf, sigio, name);
    assert Dotted(key) == name && '.' !in key;
    NotGiven(conf, key);
  }

  lemma {:induction false} NotGiven(conf: seq<Entry>, key: string)
    requires '.' !in key && forall e :: e in conf && e.Pair? ==> e.key != Atom(key)
    ensures FirstOf(conf, Dotted(key)).None?
  {
    hide Judge;
    if conf == [] {
    } else {
      NotGiven(conf[1..], key);
      if Judge(conf[0]).Pass? {
        JudgedName(conf[0]);
        assert conf[0] in conf;
        if Dotted(conf[0].key.name) == Dotted(key) { DottedIsInjective(conf[0].key.name, key); }
      }
    }
  }

  /** Theorem. Among options with the same key the first one counts, the others are ignored, and
      no other key can take its place. The setting's name is the key with dots for underscores; its
      value is a text as it is, the name of an atom, or a number's digits. */
  lemma RepeatedKeyTakesFirst(conf: seq<Entry>, sigio: Option<string>, i: nat, name: string)
    requires Convert(conf).Accepted? && i < |conf| && conf[i].Pair? && conf[i].key.Atom? && !IsOwnKey(conf[i].key)
    requires forall j :: 0 <= j < i ==> conf[j].Pair? && conf[j].key != conf[i].key
    requires var key := conf[i].key.name;
      |name| == |key| && forall k :: 0 <= k < |key| ==> name[k] == if key[k] == '_' then '.' else key[k]
    ensures var (settings, v) := (Final(conf, sigio), conf[i].value);
      && name in settings
      && (v.Text? || v.Atom? || v.Number?)
      && (v.Text? ==> settings[name] == v.text)
      && (v.Atom? ==> settings[name] == v.name)
      && (v.Number? ==> settings[name] == v.text)
  {
    hide Judge, Defaults, Final, IsOwnKey;
    FilterFailsOnFirstBad(conf, [], []);
    OwnByKey(conf[i]);
    assert Judge(conf[i]).Pass?;
    JudgedName(conf[i]);
    assert name == Dotted(conf[i].key.name);
    FinalIsFirst(conf, sigio, name);
    FirstByKey(conf, i);
  }

  lemma {:induction false} FirstByKey(conf: seq<Entry>, i: nat)
    requires i < |conf| && Judge(conf[i]).Pass?
    requires forall j :: 0 <= j < i ==> conf[j].Pair? && conf[j].key != conf[i].key
    ensures conf[i].Pair? && conf[i].key.Atom? && FirstOf(conf, Dotted(conf[i].key.name)) == ToBinary(conf[i].value)
    decreases i
  {
    hide Judge;
    JudgedName(conf[i]);
    if i == 0 {
    } else {
      if Judge(conf[0]).Pass? {
        JudgedName(conf[0]);
        if Dotted(conf[0].key.name) == Dotted(conf[i].key.name) {
          DottedIsInjective(conf[0].key.name, conf[i].key.name);
        }
      }
      assert conf[1..][i - 1] == conf[i];
      FirstByKey(conf[1..], i - 1);
    }
  }

  // ------------------------------------------------------------------ the library's own options

  /** What filter_kafka_config keeps for the library, last first. */
  function Owns(conf: seq<Entry>): seq<Entry> {
    if conf == [] then [] else Owns(conf[1..]) + if Judge(conf[0]).Own? then [conf[0]] else []
  }

  lemma {:induction false} FilterKeepsOwn(conf: seq<Entry>, own: seq<Entry>, rdk: seq<Setting>)
    requires Filter(conf, own, rdk).Accepted?
    ensures Filter(conf, own, rdk).own == Owns(conf) + own
    decreases |conf|
  {
    if conf == [] {
    } else {
      hide Judge;
      var rest := conf[1..];
      match Judge(conf[0])
      case Own =>
        FilterKeepsOwn(rest, [conf[0]] + own, rdk);
        assert Owns(rest) + ([conf[0]] + own) == (Owns(rest) + [conf[0]]) + own;
      case Pass(setting) =>
        FilterKeepsOwn(rest, own, [setting] + rdk);
        assert Owns(conf) == Owns(rest) + [];
    }
  }

  /** Utils.lookup: the first entry with the key. */
  function Lookup(list: seq<Entry>, key: Value): Option<Value> {
    if list == [] then None
    else if list[0].Pair? && list[0].key == key then Some(list[0].value)
    else Lookup(list[1..], key)
  }

  /** The last of the library's own options with the key. */
  function LastOf(conf: seq<Entry>, key: Value): Option<Value>
    decreases |conf|
  {
    if conf == [] then None
    else
      var e := conf[|conf| - 1];
      if Judge(e).Own? && e.Pair? && e.key == key then Some(e.value) else LastOf(conf[..|conf| - 1], key)
  }

  lemma {:induction false} OwnsBackwards(conf: seq<Entry>, e: Entry)
    ensures Owns(conf + [e]) == (if Judge(e).Own? then [e] else []) + Owns(conf)
    decreases |conf|
  {
    hide Judge;
    if conf == [] {
      assert [] + [e] == [e] && [e][1..] == [];
    } else {
      OwnsBackwards(conf[1..], e);
      assert (conf + [e])[0] == conf[0] && (conf + [e])[1..] == conf[1..] + [e];
    }
  }

  lemma {:induction false} LookupFindsLast(conf: seq<Entry>, key: Value)
    ensures Lookup(Owns(conf), key) == LastOf(conf, key)
    decreases |conf|
  {
    if conf == [] {
    } else {
      hide Judge;
      var n := |conf| - 1;
      assert conf == conf[..n] + [conf[n]];
      OwnsBackwards(conf[..n], conf[n]);
      LookupFindsLast(conf[..n], key);
      if Judge(conf[n]).Own? {
        assert ([conf[n]] + Owns(conf[..n]))[1..] == Owns(conf[..n]);
      } else {
        assert [] + Owns(conf[..n]) == Owns(conf[..n]);
      }
    }
  }

  predicate IsOwnKey(key: Value) {
    IsCallbackKey(key) || key == Atom("queue_buffering_overflow_strategy")
  }

  lemma OwnByKey(e: Entry)
    requires !Judge(e).Bad?
    ensures e.Pair? && (Judge(e).Own? <==> IsOwnKey(e.key))
  {
    hide IsKafkaKey;
  }

  /** Option number `i` is the last with this key. */
  ghost predicate IsLastAt(conf: seq<Entry>, key: Value, value: Value, i: int) {
    && 0 <= i < |conf| && conf[i] == Pair(key, value)
    && forall j :: i < j < |conf| ==> conf[j].Pair? && conf[j].key != key
  }

  ghost predicate NoneHas(conf: seq<Entry>, key: Value) {
    forall e :: e in conf ==> e.Pair? && e.key != key
  }

  lemma OneMoreLast(conf: seq<Entry>, e: Entry, key: Value, value: Value, i: int)
    requires e.Pair? && e.key != key
    ensures IsLastAt(conf, key, value, i) ==> IsLastAt(conf + [e], key, value, i)
    ensures NoneHas(conf + [e], key) <==> NoneHas(conf, key)
  {
    if NoneHas(conf + [e], key) {
      forall x | x in conf ensures x.Pair? && x.key != key { assert x in conf + [e]; }
    }
  }

  lemma NewLast(conf: seq<Entry>, key: Value, value: Value)
    ensures IsLastAt(conf + [Pair(key, value)], key, value, |conf|) && !NoneHas(conf + [Pair(key, value)], key)
  {
    assert (conf + [Pair(key, value)])[|conf|] in conf + [Pair(key, value)];
  }

  lemma {:induction false} LastOfByKey(conf: seq<Entry>, key: Value)
    requires forall e :: e in conf ==> !Judge(e).Bad?
    ensures LastOf(conf, key).None? <==> !IsOwnKey(key) || NoneHas(conf, key)
    ensures LastOf(conf, key).Some? ==> exists i :: IsLastAt(conf, key, LastOf(conf, key).value, i)
    decreases |conf|
  {
    hide Judge, IsOwnKey, IsLastAt, NoneHas;
    if conf == [] {
      NoneOfNone(key);
    } else {
      var rest, e := conf[..|conf| - 1], conf[|conf| - 1];
      assert conf == rest + [e];
      OwnByKey(e);
      LastOfByKey(rest, key);
      if e.key == key {
        NewLast(rest, key, e.value);
      } else {
        OneMoreLast(rest, e, key, e.value, 0);
        if LastOf(rest, key).Some? {
          var i :| IsLastAt(rest, key, LastOf(rest, key).value, i);
          OneMoreLast(rest, e, key, LastOf(rest, key).value, i);
        }
      }
    }
  }

  lemma NoneOfNone(key: Value)
    ensures NoneHas([], key)
  {
  }

  /** Theorem. With the library's own options it is the other way round: lookup finds the value
      of the last one given, and nothing exactly when none is given. */
  lemma OwnOptionTakesLast(conf: seq<Entry>, key: Value)
    requires Convert(conf).Accepted?
    ensures var found := Lookup(Convert(conf).own, key);
      && (found.None? <==> !IsOwnKey(key) || forall e :: e in conf ==> e.Pair? && e.key != key)
      && (found.Some? ==>
            exists i :: 0 <= i < |conf| && conf[i] == Pair(key, found.value) &&
              forall j :: i < j < |conf| ==> conf[j].Pair? && conf[j].key != key)
  {
    hide Judge, IsOwnKey;
    FilterFailsOnFirstBad(conf, [], []);
    FilterKeepsOwn(conf, [], []);
    assert Owns(conf) + [] == Owns(conf);
    LookupFindsLast(conf, key);
    LastOfByKey(conf, key);
  }
}
