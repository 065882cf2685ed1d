/**
 * The pure specification of `Rpush::Configuration`: the settings record, what each setter does
 * to the process state, `initialize_client`, `update` and the block run by `Rpush.configure`.
 * The classes in module Rpush are proved to follow these functions step for step.
 */
module ConfigModel {
  import opened Wrappers
  import B = ClientBackends

  type Path = string
  /** A Ruby symbol such as `:redis`, by its name. */
  type Symbol = string

  const Redis: Symbol := "redis"
  /** `::Logger::Severity::DEBUG`. */
  const Debug: int := 0
  const DefaultLogFile: Path := "log/rpush.log"
  const DefaultPidFile: Path := "tmp/rpush.pid"
  const ClientNotSet: string := "Rpush.config.client is not set."

  /** An opaque logger object. */
  datatype LoggerRef = LoggerRef(id: nat)
  /** The `plugin` open struct: an open-ended bag of settings. */
  datatype Bag = Bag(entries: map<string, string>)
  /** What `Modis.redis_options=` is given. */
  datatype RedisOptions = RedisOptions(entries: map<string, string>)

  /** `ApnsFeedbackReceiverConfiguration`, a two-slot struct. */
  datatype FeedbackReceiverConfiguration = FeedbackReceiverConfiguration(frequency: Option<int>, enabled: Option<bool>)
  /** `ApnsConfiguration`, a one-slot struct. */
  datatype ApnsConfiguration = ApnsConfiguration(feedbackReceiver: Option<FeedbackReceiverConfiguration>)

  /** `ApnsFeedbackReceiverConfiguration.new`: both slots start nil, then `enabled` and `frequency` are set. */
  function DefaultFeedbackReceiver(): FeedbackReceiverConfiguration
  {
    FeedbackReceiverConfiguration(frequency := Some(60), enabled := Some(true))
  }

  /** `ApnsConfiguration.new`: a fresh feedback receiver with its defaults. */
  function DefaultApns(): ApnsConfiguration
  {
    ApnsConfiguration(Some(DefaultFeedbackReceiver()))
  }

  /** The slots of the configuration struct, one per entry of `CONFIG_ATTRS` (`ConfigurationWithoutDefaults`). */
  datatype Settings = Settings(
    pushPoll: Option<int>,
    embedded: Option<bool>,
    pidFile: Option<Path>,
    batchSize: Option<int>,
    push: Option<bool>,
    client: Option<Symbol>,
    logger: Option<LoggerRef>,
    logFile: Option<Path>,
    foreground: Option<bool>,
    logLevel: Option<int>,
    plugin: Option<Bag>,
    apns: Option<ApnsConfiguration>,
    logDir: Option<Path>,
    feedbackPoll: Option<int>)

  datatype Attr =
    | PushPoll | Embedded | PidFile | BatchSize | Push | Client | Logger
    | LogFile | Foreground | LogLevel | Plugin | Apns | LogDir | FeedbackPoll

  const CurrentAttrs: seq<Attr> :=
    [PushPoll, Embedded, PidFile, BatchSize, Push, Client, Logger, LogFile, Foreground, LogLevel, Plugin, Apns]
  const DeprecatedAttrs: seq<Attr> := [LogDir, FeedbackPoll]
  /** `CONFIG_ATTRS`, in the order `update` walks it. */
  const ConfigAttrs: seq<Attr> := CurrentAttrs + DeprecatedAttrs

  /** The position of an attribute in `CONFIG_ATTRS`. */
  function IndexOf(a: Attr): (i: nat)
    ensures i < |ConfigAttrs| && ConfigAttrs[i] == a
  {
    match a
    case PushPoll => 0
    case Embedded => 1
    case PidFile => 2
    case BatchSize => 3
    case Push => 4
    case Client => 5
    case Logger => 6
    case LogFile => 7
    case Foreground => 8
    case LogLevel => 9
    case Plugin => 10
    case Apns => 11
    case LogDir => 12
    case FeedbackPoll => 13
  }

  /** `CONFIG_ATTRS` lists each attribute exactly once. */
  lemma ConfigAttrsDistinct()
    ensures forall i :: 0 <= i < |ConfigAttrs| ==> IndexOf(ConfigAttrs[i]) == i
  {
    forall i | 0 <= i < |ConfigAttrs| ensures IndexOf(ConfigAttrs[i]) == i {
      assert i == 0 || i == 1 || i == 2 || i == 3 || i == 4 || i == 5 || i == 6
        || i == 7 || i == 8 || i == 9 || i == 10 || i == 11 || i == 12 || i == 13;
    }
  }

  /** One setter call `config.<attr> = value`. `redis_options=` is a setter but not in `CONFIG_ATTRS`. */
  datatype Assignment =
    | SetPushPoll(pushPoll: Option<int>)
    | SetEmbedded(embedded: Option<bool>)
    | SetPidFile(pidFile: Option<Path>)
    | SetBatchSize(batchSize: Option<int>)
    | SetPush(push: Option<bool>)
    | SetClient(client: Option<Symbol>)
    | SetLogger(logger: Option<LoggerRef>)
    | SetLogFile(logFile: Option<Path>)
    | SetForeground(foreground: Option<bool>)
    | SetLogLevel(logLevel: Option<int>)
    | SetPlugin(plugin: Option<Bag>)
    | SetApns(apns: Option<ApnsConfiguration>)
    | SetLogDir(logDir: Option<Path>)
    | SetFeedbackPoll(frequency: Option<int>)
    | SetRedisOptions(options: Option<RedisOptions>)

  /** `send("#{a}=", s.send(a))`: the setter call for slot `a` with the value `s` holds there. */
  function SetterCall(s: Settings, a: Attr): Assignment
  {
    match a
    case PushPoll => SetPushPoll(s.pushPoll)
    case Embedded => SetEmbedded(s.embedded)
    case PidFile => SetPidFile(s.pidFile)
    case BatchSize => SetBatchSize(s.batchSize)
    case Push => SetPush(s.push)
    case Client => SetClient(s.client)
    case Logger => SetLogger(s.logger)
    case LogFile => SetLogFile(s.logFile)
    case Foreground => SetForeground(s.foreground)
    case LogLevel => SetLogLevel(s.logLevel)
    case Plugin => SetPlugin(s.plugin)
    case Apns => SetApns(s.apns)
    case LogDir => SetLogDir(s.logDir)
    case FeedbackPoll => SetFeedbackPoll(s.feedbackPoll)
  }

  /** The value passed to the setter is nil. */
  predicate IsNil(c: Assignment)
  {
    match c
    case SetPushPoll(v) => v.None?
    case SetEmbedded(v) => v.None?
    case SetPidFile(v) => v.None?
    case SetBatchSize(v) => v.None?
    case SetPush(v) => v.None?
    case SetClient(v) => v.None?
    case SetLogger(v) => v.None?
    case SetLogFile(v) => v.None?
    case SetForeground(v) => v.None?
    case SetLogLevel(v) => v.None?
    case SetPlugin(v) => v.None?
    case SetApns(v) => v.None?
    case SetLogDir(v) => v.None?
    case SetFeedbackPoll(v) => v.None?
    case SetRedisOptions(v) => v.None?
  }

  /** The slots a setter may change. */
  function Writes(c: Assignment): set<Attr>
  {
    match c
    case SetPushPoll(_) => {PushPoll}
    case SetEmbedded(_) => {Embedded}
    case SetPidFile(_) => {PidFile}
    case SetBatchSize(_) => {BatchSize}
    case SetPush(_) => {Push}
    case SetClient(_) => {Client}
    case SetLogger(_) => {Logger}
    case SetLogFile(_) => {LogFile}
    case SetForeground(_) => {Foreground}
    case SetLogLevel(_) => {LogLevel}
    case SetPlugin(_) => {Plugin}
    case SetApns(_) => {Apns}
    case SetLogDir(_) => {LogDir}
    case SetFeedbackPoll(_) => {Apns}
    case SetRedisOptions(_) => {}
  }

  /** Every setter reached through `CONFIG_ATTRS` writes its own slot, except `feedback_poll=`, which writes `apns`. */
  lemma SetterCallWrites(s: Settings, a: Attr)
    ensures Writes(SetterCall(s, a)) == if a == FeedbackPoll then {Apns} else {a}
    ensures SetterCall(s, a).SetClient? <==> a == Client
  {
  }

  // ---------------------------------------------------------------- paths

  /** `Pathname#absolute?` on a POSIX system. */
  predicate Absolute(p: Path)
  {
    |p| > 0 && p[0] == '/'
  }

  /** `File.join(root, p)` for a relative `p`: one separator between the two parts. */
  function Join(root: Path, p: Path): Path
  {
    if |root| > 0 && root[|root| - 1] == '/' then root + p else root + "/" + p
  }

  /** What `pid_file=` and `log_file=` store: a relative path is joined onto the root, anything else is kept. */
  function Normalize(root: Path, path: Option<Path>): Option<Path>
  {
    match path
    case Some(p) => if !Absolute(p) then Some(Join(root, p)) else path
    case None => path
  }

  /** The joined path starts with the root, ends with the relative path, and is absolute exactly when the root is (or is empty). */
  lemma JoinShape(root: Path, p: Path)
    ensures root <= Join(root, p)
    ensures |Join(root, p)| > |p| && Join(root, p)[|Join(root, p)| - |p|..] == p
    ensures Absolute(Join(root, p)) <==> root == "" || Absolute(root)
  {
    var j := Join(root, p);
    if |root| > 0 && root[|root| - 1] == '/' {
      assert j == root + p;
      assert j[|root|..] == p;
    } else {
      assert j == root + "/" + p;
      assert j[|root| + 1..] == p;
      if root == "" {
        assert j[0] == '/';
      }
    }
  }

  /** A path is stored unchanged exactly when it is nil or absolute; otherwise it is the joined path. */
  lemma NormalizeKeeps(root: Path, path: Option<Path>)
    ensures Normalize(root, path) == path <==> path.None? || Absolute(path.value)
    ensures path.Some? && !Absolute(path.value) ==> Normalize(root, path) == Some(Join(root, path.value))
    ensures Normalize(root, path).None? <==> path.None?
  {
    if path.Some? && !Absolute(path.value) {
      JoinShape(root, path.value);
    }
  }

  /** With an absolute root every stored path is absolute, so storing it again changes nothing. */
  lemma NormalizeIdempotent(root: Path, path: Option<Path>)
    requires Absolute(root)
    ensures Normalize(root, path).Some? ==> Absolute(Normalize(root, path).value)
    ensures Normalize(root, Normalize(root, path)) == Normalize(root, path)
  {
    if path.Some? && !Absolute(path.value) {
      JoinShape(root, path.value);
    }
  }

  // ---------------------------------------------------------------- defaults

  /**
   * `Configuration.new`: every slot starts nil, then the defaults are assigned, the two paths
   * through their normalising setters; `client`, `log_dir` and `feedback_poll` stay nil. `hostLogLevel` is the host framework's logger level, if there is one.
   */
  function Defaults(root: Path, hostLogLevel: Option<int>): Settings
  {
    Settings(
      pushPoll := Some(2),
      embedded := Some(false),
      pidFile := Normalize(root, Some(DefaultPidFile)),
      batchSize := Some(100),
      push := Some(false),
      client := None,
      logger := None,
      logFile := Normalize(root, Some(DefaultLogFile)),
      foreground := Some(false),
      logLevel := Some(hostLogLevel.GetOr(Debug)),
      plugin := Some(Bag(map[])),
      apns := Some(DefaultApns()),
      logDir := None,
      feedbackPoll := None)
  }

  /** The documented defaults of a fresh configuration. */
  lemma DefaultValues(root: Path, hostLogLevel: Option<int>)
    ensures var d := Defaults(root, hostLogLevel);
      && d.pushPoll == Some(2) && d.batchSize == Some(100) && d.logger == None
      && d.foreground == Some(false) && d.embedded == Some(false) && d.push == Some(false)
      && d.logFile == Some(Join(root, DefaultLogFile))
      && d.pidFile == Some(Join(root, DefaultPidFile))
      && d.logLevel == Some(if hostLogLevel.Some? then hostLogLevel.value else Debug)
      && d.plugin == Some(Bag(map[]))
      && d.client == None && d.logDir == None && d.feedbackPoll == None
      && d.apns.Some? && d.apns.value.feedbackReceiver.Some?
      && d.apns.value.feedbackReceiver.value.frequency == Some(60)
      && d.apns.value.feedbackReceiver.value.enabled == Some(true)
  {
    NormalizeKeeps(root, Some(DefaultLogFile));
    NormalizeKeeps(root, Some(DefaultPidFile));
  }

  // ---------------------------------------------------------------- process state

  /**
   * Everything the configuration code reads or changes: the struct slots, the
   * `@client_initialized` flag, the shared `Rpush` namespace and the Modis option store.
   */
  datatype World = World(settings: Settings, clientInitialized: bool, ns: B.Namespace, redisOptions: Option<RedisOptions>)

  /** What the process supplies: `Rpush.root` and the backends `require "rpush/client/<name>"` can load. */
  datatype Env = Env(root: Path, loadPath: map<Symbol, B.Backend>)

  datatype Error =
    | ConfigurationError(message: string)
    | LoadError(path: string)
    | NoMethodError(name: string)

  /** The state after a call, and the exception it raised, if any; nothing is rolled back on a raise. */
  datatype Outcome = Outcome(raised: Option<Error>, world: World)

  /** Client initialisation has published all four message types. */
  predicate Consistent(w: World)
  {
    w.clientInitialized ==> B.AllBound(w.ns.bindings)
  }

  /** `initialize_client`. */
  function InitializeClient(w: World, env: Env): (o: Outcome)
    ensures o.world.settings == w.settings && o.world.redisOptions == w.redisOptions
    ensures o.world.clientInitialized <==> w.clientInitialized || o.raised.None?
    ensures o.raised.Some? ==> o.world == w
    ensures B.Grows(w.ns, o.world.ns)
    ensures Consistent(w) ==> Consistent(o.world)
  {
    if w.clientInitialized then Outcome(None, w)
    else
      match w.settings.client
      case None => Outcome(Some(ConfigurationError(ClientNotSet)), w)
      case Some(name) =>
        if name !in env.loadPath then Outcome(Some(LoadError("rpush/client/" + name)), w)
        else
          var b := env.loadPath[name];
          B.BindAll(w.ns.bindings, b);
          var ns := B.Namespace(B.Include(w.ns.included, b), B.BindMissing(w.ns.bindings, b, |B.Services|));
          Outcome(None, w.(clientInitialized := true, ns := ns))
  }

  /** `feedback_poll=`: `apns.feedback_receiver.frequency = f`, which fails on a nil along the way. */
  function AssignFeedbackPoll(w: World, f: Option<int>): Outcome
  {
    match w.settings.apns
    case None => Outcome(Some(NoMethodError("feedback_receiver")), w)
    case Some(apns) =>
      match apns.feedbackReceiver
      case None => Outcome(Some(NoMethodError("frequency=")), w)
      case Some(fr) =>
        var apns' := apns.(feedbackReceiver := Some(fr.(frequency := f)));
        Outcome(None, w.(settings := w.settings.(apns := Some(apns'))))
  }

  /** The effect of one setter call. */
  function Apply(w: World, c: Assignment, env: Env): Outcome
  {
    var s := w.settings;
    match c
    case SetPushPoll(v) => Outcome(None, w.(settings := s.(pushPoll := v)))
    case SetEmbedded(v) => Outcome(None, w.(settings := s.(embedded := v)))
    case SetPidFile(v) => Outcome(None, w.(settings := s.(pidFile := Normalize(env.root, v))))
    case SetBatchSize(v) => Outcome(None, w.(settings := s.(batchSize := v)))
    case SetPush(v) => Outcome(None, w.(settings := s.(push := v)))
    case SetClient(v) => InitializeClient(w.(settings := s.(client := v)), env)
    case SetLogger(v) => Outcome(None, w.(settings := s.(logger := v)))
    case SetLogFile(v) => Outcome(None, w.(settings := s.(logFile := Normalize(env.root, v))))
    case SetForeground(v) => Outcome(None, w.(settings := s.(foreground := v)))
    case SetLogLevel(v) => Outcome(None, w.(settings := s.(logLevel := v)))
    case SetPlugin(v) => Outcome(None, w.(settings := s.(plugin := v)))
    case SetApns(v) => Outcome(None, w.(settings := s.(apns := v)))
    case SetLogDir(v) => Outcome(None, w.(settings := s.(logDir := v)))
    case SetFeedbackPoll(v) => AssignFeedbackPoll(w, v)
    case SetRedisOptions(v) => Outcome(None, if s.client == Some(Redis) then w.(redisOptions := v) else w)
  }

  /** What a setter leaves in its own slot: the argument, with the two paths normalised. */
  function Stored(c: Assignment, root: Path): Assignment
  {
    match c
    case SetPidFile(p) => SetPidFile(Normalize(root, p))
    case SetLogFile(p) => SetLogFile(Normalize(root, p))
    case _ => c
  }

  /** A setter changes no slot outside `Writes`; only `client=` touches the flag and the namespace; only `redis_options=` the option store. */
  lemma ApplyFrame(w: World, c: Assignment, env: Env)
    ensures forall a :: a !in Writes(c) ==> SetterCall(Apply(w, c, env).world.settings, a) == SetterCall(w.settings, a)
    ensures !c.SetClient? ==> Apply(w, c, env).world.clientInitialized == w.clientInitialized
    ensures !c.SetClient? ==> Apply(w, c, env).world.ns == w.ns
    ensures !c.SetRedisOptions? ==> Apply(w, c, env).world.redisOptions == w.redisOptions
    ensures B.Grows(w.ns, Apply(w, c, env).world.ns)
    ensures Consistent(w) ==> Consistent(Apply(w, c, env).world)
  {
    match c
    case SetClient(v) =>
      var w' := w.(settings := w.settings.(client := v));
      assert Apply(w, c, env) == InitializeClient(w', env);
    case _ =>
  }

  /** A setter reached through `CONFIG_ATTRS` (other than `feedback_poll=`) stores its argument, even when `client=` then raises. */
  lemma ApplyStores(w: World, src: Settings, a: Attr, env: Env)
    requires a != FeedbackPoll
    ensures SetterCall(Apply(w, SetterCall(src, a), env).world.settings, a) == Stored(SetterCall(src, a), env.root)
  {
    if a == Client {
      var w' := w.(settings := w.settings.(client := src.client));
      assert Apply(w, SetterCall(src, a), env) == InitializeClient(w', env);
    }
  }

  /** Only `client=` (a load failure or an unset client) and `feedback_poll=` (a nil on the way) can raise. */
  lemma ApplyRaises(w: World, c: Assignment, env: Env)
    ensures var o := Apply(w, c, env);
      o.raised.Some? ==>
        || (c.SetClient? && !w.clientInitialized && o.raised.value.ConfigurationError? && c.client.None?)
        || (c.SetClient? && !w.clientInitialized && o.raised.value.LoadError? && c.client.Some? && c.client.value !in env.loadPath)
        || (c.SetFeedbackPoll? && o.raised.value.NoMethodError? && o.world == w)
  {
  }

  /** `feedback_poll=` on a populated `apns` sets the frequency and nothing else, in particular neither `enabled` nor the `feedback_poll` slot. */
  lemma FeedbackPollForwards(w: World, f: Option<int>, env: Env)
    requires w.settings.apns.Some? && w.settings.apns.value.feedbackReceiver.Some?
    ensures var o := Apply(w, SetFeedbackPoll(f), env);
      var fr := w.settings.apns.value.feedbackReceiver.value;
      && o.raised.None?
      && o.world.settings.apns == Some(ApnsConfiguration(Some(FeedbackReceiverConfiguration(f, fr.enabled))))
      && o.world.settings.feedbackPoll == w.settings.feedbackPoll
      && o.world == w.(settings := w.settings.(apns := o.world.settings.apns))
  {
  }

  /** `redis_options=` reaches the option store exactly when the client is `:redis`, and changes nothing else. */
  lemma RedisOptionsForwarded(w: World, v: Option<RedisOptions>, env: Env)
    ensures var o := Apply(w, SetRedisOptions(v), env);
      && o.raised.None?
      && (w.settings.client == Some(Redis) ==> o.world == w.(redisOptions := v))
      && (w.settings.client != Some(Redis) ==> o.world == w)
  {
  }

  /**
   * `client=` stores the value, then runs `initialize_client`: on a configuration not yet
   * initialised, storing nil raises `ConfigurationError` with the nil kept and the flag still false.
   */
  lemma ClientNilRaises(w: World, env: Env)
    requires !w.clientInitialized
    ensures Apply(w, SetClient(None), env)
      == Outcome(Some(ConfigurationError(ClientNotSet)), w.(settings := w.settings.(client := None)))
  {
  }

  // ---------------------------------------------------------------- initialize_client

  /** The guard: once initialised, nothing happens, whatever `client` now holds. */
  lemma InitializeClientGuard(w: World, env: Env)
    requires w.clientInitialized
    ensures InitializeClient(w, env) == Outcome(None, w)
  {
  }

  /** Without a client the call raises `ConfigurationError` and changes nothing, the flag included. */
  lemma InitializeClientNotSet(w: World, env: Env)
    requires !w.clientInitialized && w.settings.client.None?
    ensures InitializeClient(w, env) == Outcome(Some(ConfigurationError(ClientNotSet)), w)
  {
  }

  /** The call succeeds exactly when it was already done or the client names a loadable backend. */
  lemma InitializeClientSucceeds(w: World, env: Env)
    ensures InitializeClient(w, env).raised.None?
      <==> w.clientInitialized || (w.settings.client.Some? && w.settings.client.value in env.loadPath)
  {
  }

  /**
   * A first successful call sets the flag, includes the backend module, keeps every binding that
   * was already there and binds each missing service to the backend's class.
   */
  lemma InitializeClientPublishes(w: World, env: Env)
    requires !w.clientInitialized && w.settings.client.Some? && w.settings.client.value in env.loadPath
    ensures var o := InitializeClient(w, env);
      var b := env.loadPath[w.settings.client.value];
      && o.raised.None? && o.world.clientInitialized
      && o.world.ns.included == w.ns.included + {b.moduleName}
      && B.AllBound(o.world.ns.bindings)
      && (forall s :: s in w.ns.bindings ==> o.world.ns.bindings[s] == w.ns.bindings[s])
      && (forall s :: s !in w.ns.bindings ==> o.world.ns.bindings[s] == b.TypeFor(s))
  {
    B.BindAll(w.ns.bindings, env.loadPath[w.settings.client.value]);
  }

  /** Initialising twice is initialising once: after a success the second call is a no-op, after a failure it fails the same way. */
  lemma InitializeClientIdempotent(w: World, env: Env)
    ensures InitializeClient(InitializeClient(w, env).world, env) == InitializeClient(w, env)
  {
  }

  // ---------------------------------------------------------------- update

  /** The first `n` iterations of `update(other)`'s walk over `CONFIG_ATTRS`; a raise ends the walk. */
  function UpdatePrefix(w: World, other: Settings, env: Env, n: nat): Outcome
    requires n <= |ConfigAttrs|
  {
    if n == 0 then Outcome(None, w)
    else
      var o := UpdatePrefix(w, other, env, n - 1);
      var c := SetterCall(other, ConfigAttrs[n - 1]);
      if o.raised.Some? || IsNil(c) then o else Apply(o.world, c, env)
  }

  /** `update(other)`: every non-nil slot of `other` is passed to its setter, in `CONFIG_ATTRS` order. */
  function Update(w: World, other: Settings, env: Env): Outcome
  {
    UpdatePrefix(w, other, env, |ConfigAttrs|)
  }

  /** Once a setter has raised, the remaining attributes are not processed. */
  lemma {:induction false} UpdateStopsAtRaise(w: World, other: Settings, env: Env, k: nat, n: nat)
    requires k <= n <= |ConfigAttrs|
    requires UpdatePrefix(w, other, env, k).raised.Some?
    ensures UpdatePrefix(w, other, env, n) == UpdatePrefix(w, other, env, k)
  {
    if k < n {
      UpdateStopsAtRaise(w, other, env, k, n - 1);
    }
  }

  /** No setter among the first `n` that `other` gives a value writes slot `a`. */
  predicate Untouched(other: Settings, a: Attr, n: nat)
  {
    forall b :: IndexOf(b) < n && !IsNil(SetterCall(other, b)) ==> a !in Writes(SetterCall(other, b))
  }

  /** A slot that none of the processed setters writes keeps its value, whether or not the walk raised. */
  lemma {:induction false} UpdateFrame(w: World, other: Settings, env: Env, n: nat, a: Attr)
    requires n <= |ConfigAttrs|
    requires Untouched(other, a, n)
    ensures SetterCall(UpdatePrefix(w, other, env, n).world.settings, a) == SetterCall(w.settings, a)
  {
    if n > 0 {
      var b := ConfigAttrs[n - 1];
      ConfigAttrsDistinct();
      assert IndexOf(b) == n - 1;
      UpdateFrame(w, other, env, n - 1, a);
      var o := UpdatePrefix(w, other, env, n - 1);
      if o.raised.None? && !IsNil(SetterCall(other, b)) {
        ApplyFrame(o.world, SetterCall(other, b), env);
      }
    }
  }

  /** The flag and the namespace change only through `client=`; the option store never changes; the invariant is kept. */
  lemma {:induction false} UpdateKeepsConsistent(w: World, other: Settings, env: Env, n: nat)
    requires n <= |ConfigAttrs|
    ensures var r := UpdatePrefix(w, other, env, n).world;
      && r.redisOptions == w.redisOptions
      && B.Grows(w.ns, r.ns)
      && (Consistent(w) ==> Consistent(r))
      && (Untouched(other, Client, n) ==> r.clientInitialized == w.clientInitialized && r.ns == w.ns)
  {
    if n > 0 {
      var b := ConfigAttrs[n - 1];
      ConfigAttrsDistinct();
      assert IndexOf(b) == n - 1;
      UpdateKeepsConsistent(w, other, env, n - 1);
      var o := UpdatePrefix(w, other, env, n - 1);
      if o.raised.None? && !IsNil(SetterCall(other, b)) {
        ApplyFrame(o.world, SetterCall(other, b), env);
        SetterCallWrites(other, b);
      }
    }
  }

  /**
   * After `n` iterations that did not raise, each processed non-nil attribute holds what its
   * setter stored, unless a later setter wrote the same slot (only `feedback_poll=` writes `apns`).
   */
  lemma {:induction false} UpdateStores(w: World, other: Settings, env: Env, n: nat)
    requires n <= |ConfigAttrs|
    requires UpdatePrefix(w, other, env, n).raised.None?
    ensures forall a ::
              IndexOf(a) < n && !IsNil(SetterCall(other, a)) && a != FeedbackPoll
              && (a == Apns ==> n <= IndexOf(FeedbackPoll) || IsNil(SetterCall(other, FeedbackPoll)))
              ==> SetterCall(UpdatePrefix(w, other, env, n).world.settings, a) == Stored(SetterCall(other, a), env.root)
  {
    if n > 0 {
      var b := ConfigAttrs[n - 1];
      ConfigAttrsDistinct();
      assert IndexOf(b) == n - 1;
      var o := UpdatePrefix(w, other, env, n - 1);
      UpdateStores(w, other, env, n - 1);
      if !IsNil(SetterCall(other, b)) {
        ApplyFrame(o.world, SetterCall(other, b), env);
        SetterCallWrites(other, b);
        if b != FeedbackPoll {
          ApplyStores(o.world, other, b, env);
        }
      }
    }
  }

  /**
   * `update` skips nil: a slot whose value in `other` is nil is left as it was. For `apns` this
   * needs `feedback_poll` nil as well, since `feedback_poll=` writes into `apns`; the
   * `feedback_poll` slot itself is never written.
   */
  lemma UpdateSkipsNil(w: World, other: Settings, env: Env, a: Attr)
    requires IsNil(SetterCall(other, a))
    requires a == Apns ==> other.feedbackPoll.None?
    ensures SetterCall(Update(w, other, env).world.settings, a) == SetterCall(w.settings, a)
    ensures Update(w, other, env).world.settings.feedbackPoll == w.settings.feedbackPoll
  {
    forall b | IndexOf(b) < |ConfigAttrs| && !IsNil(SetterCall(other, b)) ensures a !in Writes(SetterCall(other, b)) {
      SetterCallWrites(other, b);
    }
    UpdateFrame(w, other, env, |ConfigAttrs|, a);
    forall b | IndexOf(b) < |ConfigAttrs| && !IsNil(SetterCall(other, b)) ensures FeedbackPoll !in Writes(SetterCall(other, b)) {
      SetterCallWrites(other, b);
    }
    UpdateFrame(w, other, env, |ConfigAttrs|, FeedbackPoll);
  }

  /** An `update` that does not raise leaves every non-nil attribute of `other` (but `apns` and `feedback_poll`) as its setter stores it. */
  lemma UpdateAssigns(w: World, other: Settings, env: Env, a: Attr)
    requires Update(w, other, env).raised.None?
    requires !IsNil(SetterCall(other, a)) && a != Apns && a != FeedbackPoll
    ensures SetterCall(Update(w, other, env).world.settings, a) == Stored(SetterCall(other, a), env.root)
  {
    UpdateStores(w, other, env, |ConfigAttrs|);
  }

  /**
   * `apns` is assigned before `feedback_poll` in `CONFIG_ATTRS`, so a successful `update` first
   * takes `other.apns` (if set) and then writes `other.feedback_poll` (if set) into its frequency.
   */
  lemma UpdateApns(w: World, other: Settings, env: Env)
    requires Update(w, other, env).raised.None?
    ensures var base := if other.apns.Some? then other.apns else w.settings.apns;
      var r := Update(w, other, env).world.settings.apns;
      if other.feedbackPoll.None? then r == base
      else
        && base.Some? && base.value.feedbackReceiver.Some?
        && r == Some(base.value.(feedbackReceiver := Some(base.value.feedbackReceiver.value.(frequency := other.feedbackPoll))))
  {
    var n := IndexOf(FeedbackPoll);
    var o := UpdatePrefix(w, other, env, n);
    assert Update(w, other, env) == if o.raised.Some? || IsNil(SetterCall(other, FeedbackPoll)) then o
      else Apply(o.world, SetterCall(other, FeedbackPoll), env);
    assert o.raised.None?;
    if other.apns.Some? {
      UpdateStores(w, other, env, n);
    } else {
      forall b | IndexOf(b) < n && !IsNil(SetterCall(other, b)) ensures Apns !in Writes(SetterCall(other, b)) {
        SetterCallWrites(other, b);
      }
      UpdateFrame(w, other, env, n, Apns);
    }
  }

  /** Only `client=` and `feedback_poll=` can raise inside `update`, and never `ConfigurationError`: a nil client is skipped. */
  lemma {:induction false} UpdateRaises(w: World, other: Settings, env: Env, n: nat)
    requires n <= |ConfigAttrs|
    ensures var r := UpdatePrefix(w, other, env, n);
      r.raised.Some? ==> r.raised.value.LoadError? || r.raised.value.NoMethodError?
  {
    if n > 0 {
      var o := UpdatePrefix(w, other, env, n - 1);
      UpdateRaises(w, other, env, n - 1);
      var c := SetterCall(other, ConfigAttrs[n - 1]);
      if o.raised.None? && !IsNil(c) {
        ApplyRaises(o.world, c, env);
      }
    }
  }

  /** A load failure can only come from the `client=` step, so it leaves the walk after that step. */
  lemma {:induction false} LoadErrorAtClient(w: World, other: Settings, env: Env, n: nat)
    requires n <= |ConfigAttrs|
    requires UpdatePrefix(w, other, env, n).raised.Some? && UpdatePrefix(w, other, env, n).raised.value.LoadError?
    ensures IndexOf(Client) < n
    ensures UpdatePrefix(w, other, env, n) == UpdatePrefix(w, other, env, IndexOf(Client) + 1)
    ensures UpdatePrefix(w, other, env, IndexOf(Client)).raised.None?
  {
    var o := UpdatePrefix(w, other, env, n - 1);
    if o.raised.Some? {
      LoadErrorAtClient(w, other, env, n - 1);
    } else {
      var b := ConfigAttrs[n - 1];
      ApplyRaises(o.world, SetterCall(other, b), env);
      assert SetterCall(other, b).SetClient?;
      assert b == Client;
      ConfigAttrsDistinct();
      assert n - 1 == IndexOf(Client);
    }
  }

  /** A load failure inside `update` is the outcome of the `client=` step on the state the earlier steps left. */
  lemma LoadErrorStep(w: World, other: Settings, env: Env)
    requires Update(w, other, env).raised.Some? && Update(w, other, env).raised.value.LoadError?
    ensures UpdatePrefix(w, other, env, IndexOf(Client)).raised.None?
    ensures Update(w, other, env) == Apply(UpdatePrefix(w, other, env, IndexOf(Client)).world, SetClient(other.client), env)
  {
    LoadErrorAtClient(w, other, env, |ConfigAttrs|);
  }

  /**
   * No rollback: when `client=` fails to load its backend inside `update`, `client` holds the new
   * value while the flag and the namespace are untouched; this happens only for an uninitialised
   * configuration whose new client cannot be loaded.
   */
  lemma UpdateNoRollback(w: World, other: Settings, env: Env)
    requires Update(w, other, env).raised.Some? && Update(w, other, env).raised.value.LoadError?
    ensures var r := Update(w, other, env).world;
      && !w.clientInitialized && other.client.Some? && other.client.value !in env.loadPath
      && !r.clientInitialized && r.ns == w.ns
      && r.settings.client == other.client
  {
    var k := IndexOf(Client);
    LoadErrorStep(w, other, env);
    var o := UpdatePrefix(w, other, env, k);
    ApplyRaises(o.world, SetClient(other.client), env);
    forall b | IndexOf(b) < k && !IsNil(SetterCall(other, b)) ensures Client !in Writes(SetterCall(other, b)) {
      SetterCallWrites(other, b);
    }
    UpdateKeepsConsistent(w, other, env, k);
  }

  /** No rollback: the non-nil attributes before `client` in `CONFIG_ATTRS` stay assigned after a load failure. */
  lemma UpdateNoRollbackEarlier(w: World, other: Settings, env: Env, a: Attr)
    requires Update(w, other, env).raised.Some? && Update(w, other, env).raised.value.LoadError?
    requires IndexOf(a) < IndexOf(Client) && !IsNil(SetterCall(other, a))
    ensures SetterCall(Update(w, other, env).world.settings, a) == Stored(SetterCall(other, a), env.root)
  {
    var k := IndexOf(Client);
    LoadErrorStep(w, other, env);
    var o := UpdatePrefix(w, other, env, k);
    UpdateStores(w, other, env, k);
    ApplyFrame(o.world, SetClient(other.client), env);
  }

  /** No rollback and no further progress: after a load failure the attributes after `client`, and nil ones, are as before. */
  lemma UpdateNoRollbackLater(w: World, other: Settings, env: Env, a: Attr)
    requires Update(w, other, env).raised.Some? && Update(w, other, env).raised.value.LoadError?
    requires a != Client && (IndexOf(a) > IndexOf(Client) || IsNil(SetterCall(other, a)))
    ensures SetterCall(Update(w, other, env).world.settings, a) == SetterCall(w.settings, a)
  {
    var k := IndexOf(Client);
    LoadErrorAtClient(w, other, env, |ConfigAttrs|);
    forall b | IndexOf(b) < k + 1 && !IsNil(SetterCall(other, b)) ensures a !in Writes(SetterCall(other, b)) {
      SetterCallWrites(other, b);
    }
    UpdateFrame(w, other, env, k + 1, a);
  }

  /** A walk that got past the `client=` step without raising has run `initialize_client`, which stays done. */
  lemma {:induction false} PrefixInitialises(w: World, other: Settings, env: Env, n: nat)
    requires IndexOf(Client) < n <= |ConfigAttrs|
    requires other.client.Some?
    requires UpdatePrefix(w, other, env, n).raised.None?
    ensures UpdatePrefix(w, other, env, n).world.clientInitialized
  {
    var o := UpdatePrefix(w, other, env, n - 1);
    assert o.raised.None?;
    if n - 1 == IndexOf(Client) {
      assert UpdatePrefix(w, other, env, n) == Apply(o.world, SetClient(other.client), env);
      assert UpdatePrefix(w, other, env, n)
        == InitializeClient(o.world.(settings := o.world.settings.(client := other.client)), env);
    } else {
      PrefixInitialises(w, other, env, n - 1);
      var b := ConfigAttrs[n - 1];
      ConfigAttrsDistinct();
      assert IndexOf(b) == n - 1;
      SetterCallWrites(other, b);
      if !IsNil(SetterCall(other, b)) {
        ApplyFrame(o.world, SetterCall(other, b), env);
      }
    }
  }

  /**
   * An `update` with a non-nil client that does not raise has run `client=` and hence
   * `initialize_client`: afterwards the client is initialised and all four message types are bound.
   */
  lemma UpdateInitialises(w: World, other: Settings, env: Env)
    requires Consistent(w)
    requires Update(w, other, env).raised.None? && other.client.Some?
    ensures Update(w, other, env).world.clientInitialized
    ensures B.AllBound(Update(w, other, env).world.ns.bindings)
  {
    PrefixInitialises(w, other, env, |ConfigAttrs|);
    UpdateKeepsConsistent(w, other, env, |ConfigAttrs|);
  }

  // ---------------------------------------------------------------- Rpush.configure

  /** The setter calls of a configuration block, run in order; a raise leaves the block. */
  function RunCalls(w: World, calls: seq<Assignment>, env: Env): Outcome
    decreases |calls|
  {
    if calls == [] then Outcome(None, w)
    else
      var o := Apply(w, calls[0], env);
      if o.raised.Some? then o else RunCalls(o.world, calls[1..], env)
  }

  /** `Rpush.configure { |config| ... }`: the block's calls, then `initialize_client`. */
  function Configure(w: World, calls: seq<Assignment>, env: Env): Outcome
  {
    var o := RunCalls(w, calls, env);
    if o.raised.Some? then o else InitializeClient(o.world, env)
  }

  /** A block only ever adds to the namespace and keeps the invariant. */
  lemma {:induction false} RunCallsKeepsConsistent(w: World, calls: seq<Assignment>, env: Env)
    ensures B.Grows(w.ns, RunCalls(w, calls, env).world.ns)
    ensures Consistent(w) ==> Consistent(RunCalls(w, calls, env).world)
    decreases |calls|
  {
    if calls != [] {
      var o := Apply(w, calls[0], env);
      ApplyFrame(w, calls[0], env);
      if o.raised.None? {
        RunCallsKeepsConsistent(o.world, calls[1..], env);
      }
    }
  }

  /** A `configure` that does not raise leaves the client initialised and all four message types published. */
  lemma ConfigureInitialises(w: World, calls: seq<Assignment>, env: Env)
    requires Consistent(w)
    ensures var o := Configure(w, calls, env);
      && B.Grows(w.ns, o.world.ns)
      && (o.raised.None? ==> o.world.clientInitialized && B.AllBound(o.world.ns.bindings))
  {
    RunCallsKeepsConsistent(w, calls, env);
  }
}
