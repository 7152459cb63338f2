/**
 * The logger's lifecycle: functional options applied to a configuration,
 * NewLogger initialising every provider in registration order (and closing
 * them all on the first failure), closeProviders with first-error
 * aggregation, and Logger.Close.
 */
module Golog {
  import opened Wrappers
  import opened Errors
  import opened Levels
  import opened Encoders
  import opened Providers

  /** The LoggerOption closures golog offers, plus a raw closure that appends a caller-built provider. */
  datatype LoggerOption =
    | WithStdOutProvider(encoderType: EncoderType)
    | WithWriterProvider(writer: nat, encoderType: EncoderType)
    | WithGCPProvider(projectID: string, logName: string, client: External)
    | WithFileProvider(filename: string, maxSize: int, maxBackups: int, maxAge: int, compress: bool, file: External)
    | WithLevel(level: Level)
    | WithProvider(provider: Provider)

  const NoProvidersMessage: string := "no providers specified"
  const InitContext: string := "failed to initialise provider"
  const CloseContext: string := "provider close error"
  const SyncContext: string := "zap sync error"

  predicate AddsProvider(o: LoggerOption)
  {
    !o.WithLevel?
  }

  /** The kind of the provider a built-in option allocates. */
  function KindOf(o: LoggerOption): Kind
    requires AddsProvider(o) && !o.WithProvider?
  {
    match o
    case WithStdOutProvider(enc) => StdOut(enc)
    case WithWriterProvider(w, enc) => Writer(w, enc)
    case WithGCPProvider(projectID, logName, _) => Gcp(projectID, logName)
    case WithFileProvider(filename, maxSize, maxBackups, maxAge, compress, _) =>
      File(filename, maxSize, maxBackups, maxAge, compress)
  }

  /** The external answers that come with a built-in option's provider. */
  function ExtOf(o: LoggerOption): External
    requires AddsProvider(o) && !o.WithProvider?
  {
    match o
    case WithGCPProvider(_, _, client) => client
    case WithFileProvider(_, _, _, _, _, file) => file
    case _ => External(None, None)
  }

  /** Provider p is the one option o registers. */
  predicate Registers(p: Provider, o: LoggerOption)
  {
    AddsProvider(o) &&
    if o.WithProvider? then p == o.provider else p.kind == KindOf(o) && p.ext == ExtOf(o)
  }

  /** The options that register a provider, in the order given. */
  function ProviderOptions(opts: seq<LoggerOption>): seq<LoggerOption>
  {
    if opts == [] then []
    else
      var last := opts[|opts| - 1];
      ProviderOptions(opts[..|opts| - 1]) + (if AddsProvider(last) then [last] else [])
  }

  /** The level the options leave in the configuration, starting from Info. */
  function ConfiguredLevel(opts: seq<LoggerOption>): Level
  {
    if opts == [] then InfoLevel
    else
      var last := opts[|opts| - 1];
      if last.WithLevel? then last.level else ConfiguredLevel(opts[..|opts| - 1])
  }

  /** The providers handed over by raw options. */
  function CallerProviders(opts: seq<LoggerOption>): set<Provider>
  {
    set o | o in opts && o.WithProvider? :: o.provider
  }

  /** Every registering option comes from the list, and there are no more of them than options. */
  lemma {:induction false} ProviderOptionsFromList(opts: seq<LoggerOption>)
    ensures |ProviderOptions(opts)| <= |opts|
    ensures forall j :: 0 <= j < |ProviderOptions(opts)| ==>
      AddsProvider(ProviderOptions(opts)[j]) && ProviderOptions(opts)[j] in opts
  {
    if opts != [] {
      ProviderOptionsFromList(opts[..|opts| - 1]);
    }
  }

  /**
   * Where each registered provider's option sits in the list: strictly
   * increasing positions, covering every registering option, so the providers
   * are registered in the order of their options.
   */
  function RegisteringIndices(opts: seq<LoggerOption>): (idx: seq<nat>)
    ensures |idx| == |ProviderOptions(opts)|
    ensures forall j :: 0 <= j < |idx| ==> idx[j] < |opts| && opts[idx[j]] == ProviderOptions(opts)[j]
    ensures forall j, k :: 0 <= j < k < |idx| ==> idx[j] < idx[k]
    ensures forall i :: 0 <= i < |opts| && AddsProvider(opts[i]) ==> i in idx
  {
    if opts == [] then []
    else
      var n := |opts| - 1;
      var init := opts[..n];
      var before := RegisteringIndices(init);
      assert ProviderOptions(opts) == ProviderOptions(init) + (if AddsProvider(opts[n]) then [opts[n]] else []);
      assert forall j :: 0 <= j < |before| ==> before[j] < n && opts[before[j]] == init[before[j]];
      if AddsProvider(opts[n]) then before + [n] else before
  }

  /** Without WithLevel options, every option registers a provider, in the order given. */
  lemma {:induction false} ProviderOptionsWithoutLevels(opts: seq<LoggerOption>)
    requires forall j :: 0 <= j < |opts| ==> !opts[j].WithLevel?
    ensures ProviderOptions(opts) == opts
  {
    if opts != [] {
      var init := opts[..|opts| - 1];
      ProviderOptionsWithoutLevels(init);
      assert init + [opts[|opts| - 1]] == opts;
    }
  }

  /** No provider is registered iff every option is a WithLevel. */
  lemma {:induction false} NoProvidersIffOnlyLevels(opts: seq<LoggerOption>)
    ensures ProviderOptions(opts) == [] <==> forall j :: 0 <= j < |opts| ==> opts[j].WithLevel?
  {
    if opts != [] {
      var init := opts[..|opts| - 1];
      NoProvidersIffOnlyLevels(init);
      if forall j :: 0 <= j < |opts| ==> opts[j].WithLevel? {
        assert forall j :: 0 <= j < |init| ==> init[j] == opts[j];
      }
      if ProviderOptions(opts) == [] {
        forall j | 0 <= j < |opts|
          ensures opts[j].WithLevel?
        {
          if j < |init| {
            assert opts[j] == init[j];
          }
        }
      }
    }
  }

  /** The last WithLevel wins; without one the level is Info. */
  lemma {:induction false} LastWithLevelWins(opts: seq<LoggerOption>, i: nat)
    requires i < |opts| && opts[i].WithLevel?
    requires forall j :: i < j < |opts| ==> !opts[j].WithLevel?
    ensures ConfiguredLevel(opts) == opts[i].level
  {
    if i < |opts| - 1 {
      LastWithLevelWins(opts[..|opts| - 1], i);
    }
  }

  lemma {:induction false} DefaultLevelIsInfo(opts: seq<LoggerOption>)
    requires forall j :: 0 <= j < |opts| ==> !opts[j].WithLevel?
    ensures ConfiguredLevel(opts) == InfoLevel
  {
    if opts != [] {
      DefaultLevelIsInfo(opts[..|opts| - 1]);
    }
  }

  /** The index of the first provider whose newCore fails, or |ps| when none does. */
  function FirstInitFailure(ps: seq<Provider>): (i: nat)
    ensures i <= |ps|
    ensures forall j :: 0 <= j < i ==> ps[j].InitError().None?
    ensures i < |ps| ==> ps[i].InitError().Some?
  {
    if ps == [] then 0
    else if ps[0].InitError().Some? then 0
    else 1 + FirstInitFailure(ps[1..])
  }

  /** What each provider's close() returns in the current state. */
  function CloseOutcomes(ps: seq<Provider>): (r: seq<Option<Error>>)
    reads set p | p in ps
    ensures |r| == |ps|
    ensures forall j :: 0 <= j < |ps| ==> r[j] == ps[j].CloseError()
  {
    if ps == [] then [] else [ps[0].CloseError()] + CloseOutcomes(ps[1..])
  }

  /** closeProviders' accumulator: the first error met, wrapped; later errors are dropped. */
  function FirstError(outcomes: seq<Option<Error>>): Option<Error>
  {
    if outcomes == [] then None
    else
      var before := FirstError(outcomes[..|outcomes| - 1]);
      var last := outcomes[|outcomes| - 1];
      if before.None? && last.Some? then Some(Wrapped(CloseContext, last.value)) else before
  }

  /** FirstError over one more outcome: the new outcome counts only while no error has been met. */
  lemma FirstErrorSnoc(outcomes: seq<Option<Error>>, o: Option<Error>)
    ensures FirstError(outcomes + [o]) ==
      if FirstError(outcomes).None? && o.Some? then Some(Wrapped(CloseContext, o.value)) else FirstError(outcomes)
  {
    assert (outcomes + [o])[..|outcomes|] == outcomes;
  }

  /** FirstError is nil iff no outcome is an error, and otherwise wraps the earliest one. */
  lemma {:induction false} FirstErrorIsEarliest(outcomes: seq<Option<Error>>)
    ensures FirstError(outcomes).None? <==> forall j :: 0 <= j < |outcomes| ==> outcomes[j].None?
    ensures FirstError(outcomes).Some? ==>
      exists i :: 0 <= i < |outcomes| && outcomes[i].Some? &&
        FirstError(outcomes) == Some(Wrapped(CloseContext, outcomes[i].value)) &&
        forall j :: 0 <= j < i ==> outcomes[j].None?
  {
    if outcomes != [] {
      var init := outcomes[..|outcomes| - 1];
      FirstErrorIsEarliest(init);
      assert forall j :: 0 <= j < |init| ==> init[j] == outcomes[j];
    }
  }

  class Config {
    var providers: seq<Provider>
    var level: Level
    /** The providers initialised so far. */
    var closers: seq<Provider>

    constructor ()
      ensures providers == [] && level == InfoLevel && closers == []
    {
      providers := [];
      level := InfoLevel;
      closers := [];
    }

    /** Runs one option closure against the configuration. */
    method Apply(o: LoggerOption)
      modifies this
      ensures closers == old(closers)
      ensures o.WithLevel? ==> level == o.level && providers == old(providers)
      ensures !o.WithLevel? ==>
        level == old(level) &&
        |providers| == |old(providers)| + 1 && providers[..|old(providers)|] == old(providers) &&
        Registers(providers[|providers| - 1], o)
      ensures !o.WithLevel? && !o.WithProvider? ==>
        var p := providers[|providers| - 1];
        fresh(p) && !p.handle && p.closeCalls == 0 && p.releases == 0
    {
      match o {
        case WithLevel(l) =>
          level := l;
        case WithProvider(p) =>
          providers := providers + [p];
        case _ =>
          var p := new Provider(KindOf(o), ExtOf(o));
          providers := providers + [p];
      }
    }
  }

  /** The loop of NewLogger that runs every option, in order, against a fresh configuration. */
  method Configure(options: seq<LoggerOption>) returns (cfg: Config)
    ensures fresh(cfg)
    ensures cfg.level == ConfiguredLevel(options) && cfg.closers == []
    ensures |cfg.providers| == |ProviderOptions(options)|
    ensures forall j :: 0 <= j < |cfg.providers| ==>
      var p, o := cfg.providers[j], ProviderOptions(options)[j];
      AddsProvider(o) && Registers(p, o) &&
      (o.WithProvider? ==> p in CallerProviders(options)) &&
      (!o.WithProvider? ==> fresh(p) && !p.handle && p.closeCalls == 0 && p.releases == 0)
  {
    cfg := new Config();
    for i := 0 to |options|
      invariant fresh(cfg)
      invariant cfg.level == ConfiguredLevel(options[..i]) && cfg.closers == []
      invariant |cfg.providers| == |ProviderOptions(options[..i])|
      invariant forall j :: 0 <= j < |cfg.providers| ==>
        var p, o := cfg.providers[j], ProviderOptions(options[..i])[j];
        AddsProvider(o) && Registers(p, o) &&
        (o.WithProvider? ==> p in CallerProviders(options)) &&
        (!o.WithProvider? ==> fresh(p) && !p.handle && p.closeCalls == 0 && p.releases == 0)
    {
      assert options[..i + 1][..i] == options[..i];
      assert options[..i + 1][i] == options[i];
      cfg.Apply(options[i]);
    }
    assert options[..|options|] == options;
  }

  /**
   * One step of closeProviders: close ps[i]. Each provider's counters grow by
   * its occurrences at index i, so that after the step they count ps[..i + 1].
   */
  method CloseAt(ps: seq<Provider>, i: nat) returns (e: Option<Error>)
    requires i < |ps|
    modifies ps[i]
    ensures e == old(ps[i].CloseError())
    ensures forall p | p in ps :: p.handle == old(p.handle)
    ensures forall p | p in ps ::
      p.closeCalls - multiset(ps[..i + 1])[p] == old(p.closeCalls) - multiset(ps[..i])[p]
    ensures forall p | p in ps ::
      p.releases - (if old(p.HoldsResource()) then multiset(ps[..i + 1])[p] else 0) ==
      old(p.releases) - (if old(p.HoldsResource()) then multiset(ps[..i])[p] else 0)
  {
    assert ps[..i + 1] == ps[..i] + [ps[i]];
    e := ps[i].Close();
  }

  /**
   * closeProviders: calls close() on every provider, in order, even after one
   * fails, and returns the first error, wrapped, or nil.
   */
  method CloseProviders(ps: seq<Provider>) returns (err: Option<Error>)
    modifies set p | p in ps
    ensures err == FirstError(old(CloseOutcomes(ps)))
    ensures forall p | p in ps ::
      p.handle == old(p.handle) &&
      p.closeCalls == old(p.closeCalls) + multiset(ps)[p] &&
      p.releases == old(p.releases) + (if p.HoldsResource() then multiset(ps)[p] else 0)
  {
    ghost var outcomes := CloseOutcomes(ps);
    err := None;
    for i := 0 to |ps|
      invariant err == FirstError(outcomes[..i])
      invariant forall p | p in ps :: p.handle == old(p.handle)
      invariant forall p | p in ps :: p.closeCalls == old(p.closeCalls) + multiset(ps[..i])[p]
      invariant forall p | p in ps ::
        p.releases == old(p.releases) + (if old(p.HoldsResource()) then multiset(ps[..i])[p] else 0)
    {
      assert outcomes[..i + 1] == outcomes[..i] + [outcomes[i]];
      FirstErrorSnoc(outcomes[..i], outcomes[i]);
      assert ps[i].CloseError() == outcomes[i];
      label BeforeClose:
      var e := CloseAt(ps, i);
      if e.Some? && err.None? {
        err := Some(Wrapped(CloseContext, e.value));
      }
      forall p | p in ps
        ensures old@BeforeClose(p.HoldsResource()) == old(p.HoldsResource())
      {
      }
    }
    assert ps[..|ps|] == ps;
    assert outcomes[..|ps|] == outcomes;
    assert forall p | p in ps :: p.HoldsResource() == old(p.HoldsResource());
  }

  class Logger {
    /** The cores the zap logger fans out to (zap's tee is not modelled). */
    const cores: seq<Core>
    /** The zap level every core was built at; Go keeps it only inside the cores. */
    const level: ZapLevel
    var closers: seq<Provider>
    /** Set by CloseOnce only: the released flag that Close, as written, lacks. */
    var released: bool

    constructor (cores: seq<Core>, level: ZapLevel, closers: seq<Provider>)
      ensures this.cores == cores && this.level == level && this.closers == closers && !released
    {
      this.cores := cores;
      this.level := level;
      this.closers := closers;
      released := false;
    }

    /**
     * Close as written: Sync first (its outcome is a parameter), then close
     * every provider; a Sync error takes precedence over a close error. There
     * is no released flag, so a second Close closes every provider again.
     */
    method Close(syncErr: Option<Error>) returns (err: Option<Error>)
      modifies set p | p in closers
      ensures err == if syncErr.Some? then Some(Wrapped(SyncContext, syncErr.value))
                     else FirstError(old(CloseOutcomes(closers)))
      ensures forall p | p in closers ::
        p.handle == old(p.handle) &&
        p.closeCalls == old(p.closeCalls) + multiset(closers)[p] &&
        p.releases == old(p.releases) + (if old(p.HoldsResource()) then multiset(closers)[p] else 0)
    {
      err := None;
      if syncErr.Some? {
        err := Some(Wrapped(SyncContext, syncErr.value));
      }
      var closeErr := CloseProviders(closers);
      if closeErr.Some? && err.None? {
        err := closeErr;
      }
    }

    /**
     * Close with the released flag that main_test.go:192-214 expects: the
     * first call does what Close does; every later call closes nothing and
     * returns nil.
     */
    method CloseOnce(syncErr: Option<Error>) returns (err: Option<Error>)
      modifies this, set p | p in closers
      ensures released && closers == old(closers)
      ensures forall p | p in closers :: p.handle == old(p.handle)
      ensures old(released) ==>
        err == None &&
        forall p | p in closers :: p.closeCalls == old(p.closeCalls) && p.releases == old(p.releases)
      ensures !old(released) ==>
        err == (if syncErr.Some? then Some(Wrapped(SyncContext, syncErr.value))
                else FirstError(old(CloseOutcomes(closers)))) &&
        forall p | p in closers ::
          p.closeCalls == old(p.closeCalls) + multiset(closers)[p] &&
          p.releases == old(p.releases) + (if old(p.HoldsResource()) then multiset(closers)[p] else 0)
    {
      if released {
        return None;
      }
      released := true;
      err := Close(syncErr);
    }
  }

  /**
   * One step of the init loop: newCore on ps[i]. Nothing is closed, and only
   * ps[i] may come to hold a handle, when its newCore succeeds.
   */
  method InitAt(ps: seq<Provider>, i: nat, zl: ZapLevel) returns (core: Option<Core>, e: Option<Error>)
    requires i < |ps|
    modifies ps[i]
    ensures e == ps[i].InitError() && (core.Some? <==> e.None?)
    ensures core.Some? ==> ps[i].Produced(core.value, zl) && core.value.Level() == zl
    ensures core.Some? && core.value.Cloud? ==> fresh(core.value.cloud) && core.value.cloud.fields == map[]
    ensures forall q | q in ps ::
      q.closeCalls == old(q.closeCalls) && q.releases == old(q.releases) &&
      q.handle == (old(q.handle) || (q == ps[i] && q.StoresHandle() && e.None?))
  {
    core, e := ps[i].NewCore(zl);
  }

  /**
   * The initialisation loop of NewLogger: newCore on each configured provider
   * in order, each success recorded among the closers, stopping at the first
   * failure, whose index comes back with its error.
   */
  method InitUntilFailure(cfg: Config, zl: ZapLevel) returns (cores: seq<Core>, i: nat, e: Option<Error>)
    requires cfg.closers == []
    modifies cfg, set p | p in cfg.providers
    ensures cfg.providers == old(cfg.providers) && cfg.level == old(cfg.level)
    ensures i == FirstInitFailure(cfg.providers)
    ensures e == (if i < |cfg.providers| then cfg.providers[i].InitError() else None)
    ensures cfg.closers == cfg.providers[..i] && |cores| == i
    ensures forall j :: 0 <= j < i ==>
      cfg.providers[j].Produced(cores[j], zl) && cores[j].Level() == zl &&
      (cores[j].Cloud? ==> fresh(cores[j].cloud) && cores[j].cloud.fields == map[])
    ensures forall p | p in cfg.providers ::
      p.closeCalls == old(p.closeCalls) && p.releases == old(p.releases) &&
      p.handle == (old(p.handle) || (p.StoresHandle() && p in cfg.providers[..i]))
  {
    ghost var ps := cfg.providers;
    cores, i, e := [], 0, None;
    while i < |cfg.providers|
      invariant i <= |ps| && cfg.providers == ps && cfg.level == old(cfg.level) && e.None?
      invariant forall j :: 0 <= j < i ==> ps[j].InitError().None?
      invariant cfg.closers == ps[..i] && |cores| == i
      invariant forall j :: 0 <= j < i ==>
        ps[j].Produced(cores[j], zl) && cores[j].Level() == zl &&
        (cores[j].Cloud? ==> fresh(cores[j].cloud) && cores[j].cloud.fields == map[])
      invariant forall p | p in ps ::
        p.closeCalls == old(p.closeCalls) && p.releases == old(p.releases) &&
        p.handle == (old(p.handle) || (p.StoresHandle() && p in ps[..i]))
    {
      var p := cfg.providers[i];
      var core;
      core, e := InitAt(cfg.providers, i, zl);
      if e.Some? {
        break;
      }
      assert ps[..i + 1] == ps[..i] + [p];
      cores := cores + [core.value];
      cfg.closers := cfg.closers + [p];
      i := i + 1;
    }
  }

  /**
   * Initialisation as NewLogger runs it: at the first failure every
   * configured provider is closed and the error comes back wrapped.
   */
  method InitProviders(cfg: Config, zl: ZapLevel) returns (cores: seq<Core>, err: Option<Error>)
    requires cfg.closers == []
    modifies cfg, set p | p in cfg.providers
    ensures cfg.providers == old(cfg.providers) && cfg.level == old(cfg.level)
    ensures var ps, f := cfg.providers, FirstInitFailure(cfg.providers);
      err == (if f < |ps| then Some(Wrapped(InitContext, ps[f].InitError().value)) else None) &&
      (f == |ps| ==> cfg.closers == ps && |cores| == |ps|)
    ensures FirstInitFailure(cfg.providers) == |cfg.providers| ==>
      forall j :: 0 <= j < |cores| ==>
        cfg.providers[j].Produced(cores[j], zl) && cores[j].Level() == zl &&
        (cores[j].Cloud? ==> fresh(cores[j].cloud) && cores[j].cloud.fields == map[])
    ensures var ps, f := cfg.providers, FirstInitFailure(cfg.providers);
      forall p | p in ps ::
        p.closeCalls == old(p.closeCalls) + (if f < |ps| then multiset(ps)[p] else 0) &&
        p.releases == old(p.releases) + (if f < |ps| && p.HoldsResource() then multiset(ps)[p] else 0) &&
        p.handle == (old(p.handle) || (p.StoresHandle() && p in ps[..f]))
  {
    ghost var ps := cfg.providers;
    var i, e;
    cores, i, e := InitUntilFailure(cfg, zl);
    if e.None? {
      assert ps[..i] == ps;
      return cores, None;
    }
    label BeforeClose:
    var _ := CloseProviders(cfg.providers);
    forall q | q in ps
      ensures q.closeCalls == old(q.closeCalls) + multiset(ps)[q]
      ensures q.releases == old(q.releases) + (if q.HoldsResource() then multiset(ps)[q] else 0)
      ensures q.handle == (old(q.handle) || (q.StoresHandle() && q in ps[..i]))
    {
      assert old@BeforeClose(q.closeCalls) == old(q.closeCalls);
      assert old@BeforeClose(q.releases) == old(q.releases);
      assert q.handle == old@BeforeClose(q.handle);
    }
    err := Some(Wrapped(InitContext, e.value));
  }

  /**
   * NewLogger. The options run in order (level Info unless a WithLevel says
   * otherwise, the last one winning). With no provider it fails at once and
   * touches nothing. Otherwise each provider's newCore runs in registration
   * order; at the first failure every configured provider is closed, the
   * ones never initialised included, and the error comes back wrapped. When
   * all succeed the logger keeps every provider, in order, as its closers.
   * The ghost result `ps` names the providers the options registered.
   */
  method NewLogger(options: seq<LoggerOption>) returns (l: Logger?, err: Option<Error>, ghost ps: seq<Provider>)
    modifies CallerProviders(options)
    ensures |ps| == |ProviderOptions(options)|
    ensures forall j :: 0 <= j < |ps| ==> Registers(ps[j], ProviderOptions(options)[j])
    ensures forall j :: 0 <= j < |ps| && !ProviderOptions(options)[j].WithProvider? ==> fresh(ps[j])
    ensures l == null <==> err.Some?
    ensures ps == [] ==> err == Some(Failure(NoProvidersMessage))
    ensures FirstInitFailure(ps) < |ps| ==>
      err == Some(Wrapped(InitContext, ps[FirstInitFailure(ps)].InitError().value))
    ensures ps != [] && FirstInitFailure(ps) == |ps| ==>
      l != null && fresh(l) && l.closers == ps && !l.released &&
      l.level == ToZapLevel(ConfiguredLevel(options)) && |l.cores| == |ps| &&
      forall j :: 0 <= j < |ps| ==>
        ps[j].Produced(l.cores[j], l.level) && l.cores[j].Level() == l.level &&
        (l.cores[j].Cloud? ==> fresh(l.cores[j].cloud) && l.cores[j].cloud.fields == map[])
    ensures forall p | p in ps ::
      var failed := FirstInitFailure(ps) < |ps|;
      p.closeCalls == (if fresh(p) then 0 else old(p.closeCalls)) + (if failed then multiset(ps)[p] else 0) &&
      p.releases == (if fresh(p) then 0 else old(p.releases)) + (if failed && p.HoldsResource() then multiset(ps)[p] else 0) &&
      p.handle == ((if fresh(p) then false else old(p.handle)) || (p.StoresHandle() && p in ps[..FirstInitFailure(ps)]))
  {
    var cfg := Configure(options);
    ps := cfg.providers;
    if |cfg.providers| == 0 {
      return null, Some(Failure(NoProvidersMessage)), ps;
    }
    assert forall p | p in ps ::
      (fresh(p) || p in CallerProviders(options)) &&
      p.closeCalls == (if fresh(p) then 0 else old(p.closeCalls)) &&
      p.releases == (if fresh(p) then 0 else old(p.releases)) &&
      p.handle == (if fresh(p) then false else old(p.handle));
    var zl := ToZapLevel(cfg.level);
    var cores, initErr := InitProviders(cfg, zl);
    if initErr.Some? {
      return null, initErr, ps;
    }
    l := new Logger(cores, zl, cfg.closers);
    err := None;
  }

  /**
   * The scenario of main_test.go's TestLogger_CloseInvokesProvidersOnce
   * against Close as written: one counting provider, two Close calls, and
   * the provider's close() runs twice where the test expects once.
   */
  method CloseTwiceAsWritten() returns (calls: nat, first: Option<Error>, second: Option<Error>)
    ensures first == None && second == None
    ensures calls == 2
  {
    var counter := new Provider(Custom, External(None, None));
    var l: Logger?, err: Option<Error>;
    ghost var ps: seq<Provider>;
    l, err, ps := NewLogger([WithProvider(counter)]);
    assert ProviderOptions([WithProvider(counter)]) == [WithProvider(counter)];
    assert ps == [counter];
    assert FirstInitFailure(ps) == 1;
    assert l.closers == [counter];
    OccursOnce([counter], 0);
    first := l.Close(None);
    second := l.Close(None);
    calls := counter.closeCalls;
  }

  /** The same scenario against CloseOnce: the provider's close() runs exactly once. */
  method CloseTwiceCorrected() returns (calls: nat, first: Option<Error>, second: Option<Error>)
    ensures first == None && second == None
    ensures calls == 1
  {
    var counter := new Provider(Custom, External(None, None));
    var l: Logger?, err: Option<Error>;
    ghost var ps: seq<Provider>;
    l, err, ps := NewLogger([WithProvider(counter)]);
    assert ProviderOptions([WithProvider(counter)]) == [WithProvider(counter)];
    assert ps == [counter];
    assert FirstInitFailure(ps) == 1;
    assert l.closers == [counter];
    OccursOnce([counter], 0);
    first := l.CloseOnce(None);
    second := l.CloseOnce(None);
    calls := counter.closeCalls;
  }

  /** A provider listed at one index only is counted once by the list's multiset. */
  lemma OccursOnce(ps: seq<Provider>, i: nat)
    requires i < |ps| && forall j :: 0 <= j < |ps| && j != i ==> ps[j] != ps[i]
    ensures multiset(ps)[ps[i]] == 1
  {
    assert ps == ps[..i] + [ps[i]] + ps[i + 1..];
    assert ps[i] !in ps[..i] && ps[i] !in ps[i + 1..];
  }

  /**
   * A cloud provider that cannot reach the service, registered between a
   * file provider and a caller's provider: construction fails with the
   * client's error wrapped twice, and the caller's provider, never
   * initialised, is still closed once.
   */
  method PartialInitFailure(cause: Error) returns (l: Logger?, err: Option<Error>, calls: nat, releases: nat)
    ensures l == null
    ensures err == Some(Wrapped(InitContext, Wrapped(ClientCreateContext, cause)))
    ensures calls == 1 && releases == 1
  {
    var counter := new Provider(Custom, External(None, None));
    var options := [
      WithFileProvider("app.log", 1, 1, 1, false, External(None, None)),
      WithGCPProvider("project", "log", External(Some(cause), None)),
      WithProvider(counter)
    ];
    ghost var ps: seq<Provider>;
    ProviderOptionsWithoutLevels(options);
    l, err, ps := NewLogger(options);
    assert |ps| == 3;
    assert ps[2] == counter by { assert Registers(ps[2], options[2]); }
    assert ps[0] != counter && ps[1] != counter by { assert fresh(ps[0]) && fresh(ps[1]); }
    assert FirstInitFailure(ps) == 1 && ps[1].InitError() == Some(Wrapped(ClientCreateContext, cause)) by {
      assert Registers(ps[0], options[0]) && Registers(ps[1], options[1]);
      assert ps[1..][0] == ps[1];
    }
    OccursOnce(ps, 2);
    assert counter in ps && counter.HoldsResource();
    calls := counter.closeCalls;
    releases := counter.releases;
  }
}
