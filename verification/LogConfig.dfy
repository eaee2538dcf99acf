/** Log reconfiguration: the listener on the `logs` setting, and what any sequence of settings makes of
    the loggers. */
module LogConfig {
  import opened Common
  import opened LogPattern

  datatype Kind = File | Stdout

  datatype AppenderDefine = AppenderDefine(kind: Kind, file: string, level: int, formatter: string)

  datatype Define = Define(level: int, formatter: string, appenders: seq<AppenderDefine>)

  /** The setting: a set of definitions that compares by name holds one definition per name. */
  type Config = map<string, Define>

  /** A formatter is known by its pattern. */
  datatype Appender = Appender(kind: Kind, file: string, level: int, hasFormatter: bool, formatter: Option<string>)

  datatype Logger = Logger(level: int, formatter: string, appenders: seq<Appender>)

  const DEBUG := 1
  const SILENT := 100
  const DEFAULT_PATTERN := "%d{%Y-%m-%d %H:%M:%S}%T%t%T%N%T%F%T[%p]%T[%c]%T%f:%l%T%m%n"
  const ROOT := "root"

  const FRESH := Logger(DEBUG, DEFAULT_PATTERN, [])
  const FIRST_ROOT := Logger(DEBUG, DEFAULT_PATTERN, [Appender(Stdout, "", DEBUG, false, Some(DEFAULT_PATTERN))])

  function Get<K, V>(m: map<K, V>, k: K): Option<V> {
    if k in m then Some(m[k]) else None
  }

  /** A formatter that is given and parses without error. */
  predicate Usable(pattern: string) {
    pattern != "" && !HasError(pattern)
  }

  // ----- What a definition asks for -------------------------------------------------------

  /** An appender uses its own formatter if that is usable, and otherwise the logger's. */
  function Wanted(a: AppenderDefine, inherited: string): Appender {
    Appender(a.kind, a.file, a.level, Usable(a.formatter), Some(if Usable(a.formatter) then a.formatter else inherited))
  }

  function WantedAll(ads: seq<AppenderDefine>, inherited: string): (r: seq<Appender>)
    ensures |r| == |ads| && forall i :: 0 <= i < |r| ==> r[i] == Wanted(ads[i], inherited)
  {
    seq(|ads|, i requires 0 <= i < |ads| => Wanted(ads[i], inherited))
  }

  function Configured(l: Logger, d: Define): Logger {
    var f := if Usable(d.formatter) then d.formatter else l.formatter;
    Logger(d.level, f, WantedAll(d.appenders, f))
  }

  function OrFresh(l: Option<Logger>): Logger {
    if l.Some? then l.value else FRESH
  }

  /** What one change of the setting does to one logger. */
  function After(l: Option<Logger>, before: Option<Define>, now: Option<Define>): Option<Logger> {
    if now == before then l
    else if now.Some? then Some(Configured(OrFresh(l), now.value))
    else Some(OrFresh(l).(level := SILENT, appenders := []))
  }

  /** The loggers named in `done` have been brought up to date, the others are as they were. */
  ghost predicate ChangedOn(loggers: map<string, Logger>, loggers': map<string, Logger>, before: Config, now: Config,
      done: set<string>) {
    forall name :: Get(loggers', name) ==
                   if name in done then After(Get(loggers, name), Get(before, name), Get(now, name))
                   else Get(loggers, name)
  }

  /** All loggers after a change of the setting. */
  function ChangeAll(loggers: map<string, Logger>, before: Config, now: Config): (r: map<string, Logger>)
    ensures forall name :: Get(r, name) == After(Get(loggers, name), Get(before, name), Get(now, name))
  {
    map name | name in loggers.Keys + before.Keys + now.Keys
               && After(Get(loggers, name), Get(before, name), Get(now, name)).Some?
      :: After(Get(loggers, name), Get(before, name), Get(now, name)).value
  }

  lemma SameLoggers(a: map<string, Logger>, b: map<string, Logger>)
    requires forall name :: Get(a, name) == Get(b, name)
    ensures a == b
  {
    assert forall name :: name in a <==> Get(a, name).Some?;
    assert forall name :: name in b <==> Get(b, name).Some?;
    assert forall name :: name in a ==> a[name] == Get(a, name).value;
    assert forall name :: name in b ==> b[name] == Get(b, name).value;
  }

  // ----- The listener ---------------------------------------------------------------------

  /** `Logger::setFormatter`: appenders without a formatter of their own follow the logger. */
  method SetFormatter(l: Logger, pattern: string) returns (r: Logger)
    ensures r.level == l.level && |r.appenders| == |l.appenders|
    ensures r.formatter == if HasError(pattern) then l.formatter else pattern
    ensures forall i :: 0 <= i < |l.appenders| ==>
      r.appenders[i] == if HasError(pattern) || l.appenders[i].hasFormatter then l.appenders[i]
                        else l.appenders[i].(formatter := Some(pattern))
  {
    r := l;
    var _, error := Init(pattern);
    if error {
      return;
    }
    r := r.(formatter := pattern);
    var i := 0;
    while i < |r.appenders|
      invariant 0 <= i <= |r.appenders| == |l.appenders|
      invariant r == l.(formatter := pattern, appenders := r.appenders)
      invariant forall j :: 0 <= j < |l.appenders| ==>
        r.appenders[j] == if j >= i || l.appenders[j].hasFormatter then l.appenders[j]
                          else l.appenders[j].(formatter := Some(pattern))
    {
      if !r.appenders[i].hasFormatter {
        r := r.(appenders := r.appenders[i := r.appenders[i].(formatter := Some(pattern))]);
      }
      i := i + 1;
    }
  }

  /** `Logger::addAppender`: an appender without a formatter takes the logger's. */
  function AddAppender(l: Logger, a: Appender): Logger {
    l.(appenders := l.appenders + [if a.formatter == None then a.(formatter := Some(l.formatter)) else a])
  }

  method BuildAppender(a: AppenderDefine) returns (r: Appender)
    ensures r == Appender(a.kind, a.file, a.level, Usable(a.formatter),
                          if Usable(a.formatter) then Some(a.formatter) else None)
  {
    r := Appender(a.kind, a.file, a.level, false, None);
    if a.formatter != "" {
      var _, error := Init(a.formatter);
      if !error {
        r := r.(formatter := Some(a.formatter), hasFormatter := true);
      }
    }
  }

  /** The appender is as its definition says, with its own formatter if that is given and parses, else with the
      logger's. */
  predicate Fits(a: Appender, d: AppenderDefine, inherited: string) {
    var own := d.formatter != "" && !HasError(d.formatter);
    && a.kind == d.kind && a.file == d.file && a.level == d.level
    && a.hasFormatter == own && a.formatter == Some(if own then d.formatter else inherited)
  }

  predicate FitAll(appenders: seq<Appender>, ds: seq<AppenderDefine>, inherited: string) {
    |appenders| == |ds| && forall i :: 0 <= i < |ds| ==> Fits(appenders[i], ds[i], inherited)
  }

  lemma ConfiguredFits(l: Logger, d: Define)
    ensures var r := Configured(l, d);
      && r.level == d.level && FitAll(r.appenders, d.appenders, r.formatter)
      && r.formatter == if d.formatter != "" && !HasError(d.formatter) then d.formatter else l.formatter
  {
  }

  /** The body of the listener's first loop for a definition that is new or changed. */
  method Configure(l: Logger, d: Define) returns (r: Logger)
    ensures r == Configured(l, d)
    ensures r.level == d.level && FitAll(r.appenders, d.appenders, r.formatter)
    ensures r.formatter == if d.formatter != "" && !HasError(d.formatter) then d.formatter else l.formatter
  {
    r := l.(level := d.level);
    if d.formatter != "" {
      r := SetFormatter(r, d.formatter);
    }
    r := r.(appenders := []);
    ghost var f := r.formatter;
    for i := 0 to |d.appenders|
      invariant r.level == d.level && r.formatter == f && |r.appenders| == i
      invariant forall j :: 0 <= j < i ==> r.appenders[j] == Wanted(d.appenders[j], f)
    {
      var a := BuildAppender(d.appenders[i]);
      r := AddAppender(r, a);
    }
    assert r.appenders == WantedAll(d.appenders, f);
    ConfiguredFits(l, d);
  }

  class LoggerManager {
    var loggers: map<string, Logger>
    var config: Config

    constructor ()
      ensures loggers ==
        map["root" := Logger(1, DEFAULT_PATTERN, [Appender(Stdout, "", 1, false, Some(DEFAULT_PATTERN))])]
      ensures config == map[]
    {
      loggers, config := map[ROOT := FIRST_ROOT], map[];
    }

    /** Finds the logger, or makes one with the defaults. */
    method GetLogger(name: string) returns (l: Logger)
      modifies this`loggers
      ensures loggers == if name in old(loggers) then old(loggers) else old(loggers)[name := FRESH]
      ensures name in loggers && l == loggers[name]
      ensures name !in old(loggers) ==>
        l == Logger(1, "%d{%Y-%m-%d %H:%M:%S}%T%t%T%N%T%F%T[%p]%T[%c]%T%f:%l%T%m%n", [])
    {
      if name in loggers {
        return loggers[name];
      }
      l := FRESH;
      loggers := loggers[name := l];
    }

    /** The first loop's work for one new or changed definition. */
    method ConfigureOne(name: string, d: Define)
      modifies this`loggers
      ensures loggers == old(loggers)[name := Configured(OrFresh(Get(old(loggers), name)), d)]
    {
      var l := GetLogger(name);
      l := Configure(l, d);
      loggers := loggers[name := l];
    }

    /** The second loop's work for one dropped name. */
    method SilenceOne(name: string)
      modifies this`loggers
      ensures loggers == old(loggers)[name := OrFresh(Get(old(loggers), name)).(level := SILENT, appenders := [])]
    {
      var l := GetLogger(name);
      loggers := loggers[name := l.(level := SILENT, appenders := [])];
    }

    /** The first loop of the listener, in any order of names. */
    method ConfigureAll(before: Config, now: Config)
      modifies this`loggers
      ensures ChangedOn(old(loggers), loggers, before, now, now.Keys)
    {
      var todo := now.Keys;
      while todo != {}
        invariant todo <= now.Keys
        invariant ChangedOn(old(loggers), loggers, before, now, now.Keys - todo)
        decreases |todo|
      {
        var name :| name in todo;
        todo := todo - {name};
        if name !in before || before[name] != now[name] {
          ConfigureOne(name, now[name]);
        }
      }
    }

    /** The second loop: names dropped from the setting. */
    method SilenceDropped(before: Config, now: Config)
      modifies this`loggers
      ensures ChangedOn(old(loggers), loggers, before, now, before.Keys - now.Keys)
    {
      var todo := before.Keys;
      while todo != {}
        invariant todo <= before.Keys
        invariant ChangedOn(old(loggers), loggers, before, now, before.Keys - now.Keys - todo)
        decreases |todo|
      {
        var name :| name in todo;
        todo := todo - {name};
        if name !in now {
          SilenceOne(name);
        }
      }
    }

    /** `ConfigVar::setValue` with the listener. */
    method SetValue(now: Config)
      modifies this
      ensures config == now && loggers == ChangeAll(old(loggers), old(config), now)
    {
      ghost var was := loggers;
      if now != config {
        ConfigureAll(config, now);
        SilenceDropped(config, now);
      }
      SameLoggers(loggers, ChangeAll(was, config, now));
      config := now;
    }
  }

  // ----- Any sequence of settings ---------------------------------------------------------

  datatype Event = Set(now: Config) | LookUp(name: string)

  datatype State = State(config: Config, loggers: map<string, Logger>)

  function Start(): State {
    State(map[], map[ROOT := FIRST_ROOT])
  }

  function Do(s: State, e: Event): State {
    match e
    case Set(now) => State(now, ChangeAll(s.loggers, s.config, now))
    case LookUp(name) => if name in s.loggers then s else s.(loggers := s.loggers[name := FRESH])
  }

  function Run(events: seq<Event>): State {
    if events == [] then Start() else Do(Run(events[..|events| - 1]), events[|events| - 1])
  }

  /** The settings of a run, oldest first, from the empty one the program starts with. */
  function Settings(events: seq<Event>): (r: seq<Config>)
    ensures r != []
  {
    if events == [] then [map[]] else SettingsAfter(Settings(events[..|events| - 1]), events[|events| - 1])
  }

  function SettingsAfter(settings: seq<Config>, e: Event): (r: seq<Config>)
    requires settings != []
    ensures r != []
  {
    if e.Set? then settings + [e.now] else settings
  }

  /** The last usable formatter that any of the settings gave for `name`. */
  function LastFormatter(settings: seq<Config>, name: string): string {
    if settings == [] then DEFAULT_PATTERN
    else
      var n := |settings| - 1;
      if name in settings[n] && settings[n][name].formatter != "" && !HasError(settings[n][name].formatter)
      then settings[n][name].formatter
      else LastFormatter(settings[..n], name)
  }

  predicate EverNamed(settings: seq<Config>, name: string) {
    exists i :: 0 <= i < |settings| && name in settings[i]
  }

  /** What the settings, and whether somebody asked for it, say about a logger. */
  ghost predicate Meets(l: Option<Logger>, settings: seq<Config>, name: string, asked: bool)
    requires settings != []
  {
    var f, last := LastFormatter(settings, name), settings[|settings| - 1];
    if name in last then
      l.Some? && l.value.level == last[name].level && l.value.formatter == f
      && FitAll(l.value.appenders, last[name].appenders, f)
    else if EverNamed(settings, name) then l == Some(Logger(100, f, []))
    else if name == ROOT then l == Some(FIRST_ROOT)
    else l == if asked then Some(FRESH) else None
  }

  lemma {:induction false} NeverNamed(settings: seq<Config>, name: string)
    requires !EverNamed(settings, name)
    ensures LastFormatter(settings, name) == DEFAULT_PATTERN
  {
    if settings != [] {
      NeverNamed(settings[..|settings| - 1], name);
    }
  }

  lemma FormatterIsLast(l: Option<Logger>, settings: seq<Config>, name: string, asked: bool)
    requires settings != [] && Meets(l, settings, name, asked)
    ensures OrFresh(l).formatter == LastFormatter(settings, name)
  {
    if !EverNamed(settings, name) {
      NeverNamed(settings, name);
    }
  }

  lemma NamedNow(settings: seq<Config>, now: Config, name: string)
    ensures EverNamed(settings + [now], name) <==> EverNamed(settings, name) || name in now
  {
    var settings' := settings + [now];
    assert name in now ==> name in settings'[|settings|];
    assert forall i :: 0 <= i < |settings| ==> settings'[i] == settings[i];
  }

  lemma {:induction false} FormatterNow(settings: seq<Config>, now: Config, name: string)
    ensures LastFormatter(settings + [now], name) ==
      if name in now && now[name].formatter != "" && !HasError(now[name].formatter) then now[name].formatter
      else LastFormatter(settings, name)
  {
    assert (settings + [now])[..|settings|] == settings;
  }

  lemma SetMeets(l: Option<Logger>, settings: seq<Config>, now: Config, name: string, asked: bool)
    requires settings != [] && Meets(l, settings, name, asked)
    ensures Meets(After(l, Get(settings[|settings| - 1], name), Get(now, name)), settings + [now], name, asked)
  {
    NamedNow(settings, now, name);
    FormatterNow(settings, now, name);
    FormatterIsLast(l, settings, name, asked);
    if name in now {
      ConfiguredFits(OrFresh(l), now[name]);
      if name in settings[|settings| - 1] && settings[|settings| - 1][name] == now[name] {
        SameFormatter(settings, name);
      }
    }
  }

  /** The last setting's own usable formatter is the last one given. */
  lemma {:induction false} SameFormatter(settings: seq<Config>, name: string)
    requires settings != [] && name in settings[|settings| - 1]
    ensures var d := settings[|settings| - 1][name];
      d.formatter != "" && !HasError(d.formatter) ==> LastFormatter(settings, name) == d.formatter
  {
  }

  /** One event, with the settings so far. */
  lemma StepMeets(s: State, e: Event, settings: seq<Config>, name: string, asked: bool)
    requires settings != [] && s.config == settings[|settings| - 1]
    requires Meets(Get(s.loggers, name), settings, name, asked)
    ensures var settings' := SettingsAfter(settings, e);
      && Do(s, e).config == settings'[|settings'| - 1]
      && Meets(Get(Do(s, e).loggers, name), settings', name, asked || e == LookUp(name))
  {
    if e.Set? {
      SetMeets(Get(s.loggers, name), settings, e.now, name, asked);
    } else {
      LookMeets(s, e.name, settings, name, asked);
    }
  }

  lemma LookMeets(s: State, n: string, settings: seq<Config>, name: string, asked: bool)
    requires settings != [] && Meets(Get(s.loggers, name), settings, name, asked)
    ensures Meets(Get(Do(s, LookUp(n)).loggers, name), settings, name, asked || n == name)
  {
  }

  lemma StartMeets(name: string)
    ensures Meets(Get(Start().loggers, name), [map[]], name, false)
  {
    NeverNamed([map[]], name);
  }

  lemma AskedNow(before: seq<Event>, e: Event, name: string)
    ensures LookUp(name) in before + [e] <==> LookUp(name) in before || e == LookUp(name)
  {
  }

  /** Log reconfiguration. After any sequence of settings and look-ups, each logger is what the settings
      say: a configured one has its defined level, the last usable formatter given for its name and its
      appenders in order, each with its own usable formatter or the logger's; a dropped one is silent and
      has no appenders; one that was never named is untouched. */
  lemma {:induction false} Reconfiguration(events: seq<Event>, name: string)
    ensures var s := Run(events);
      && s.config == Settings(events)[|Settings(events)| - 1]
      && Meets(Get(s.loggers, name), Settings(events), name, LookUp(name) in events)
  {
    if events == [] {
      StartMeets(name);
    } else {
      var before, e := events[..|events| - 1], events[|events| - 1];
      Reconfiguration(before, name);
      assert events == before + [e];
      AskedNow(before, e, name);
      StepMeets(Run(before), e, Settings(before), name, LookUp(name) in before);
    }
  }
}
