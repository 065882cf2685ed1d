/**
 * The configuration objects of the push service as they change state in place: the `Rpush`
 * module's process-wide state and the `Rpush::Configuration` struct. Each method is proved to
 * have the effect the matching function of ConfigModel describes.
 */
module Rpush {
  import opened Wrappers
  import B = ClientBackends
  import M = ConfigModel

  /**
   * What the configuration code reads and changes outside the configuration object: the `Rpush`
   * module (its lazily built singleton, the modules included into it and its four message-type
   * constants), `Rpush.root`, the backends `require` can find, the host framework's logger level
   * and the Modis option store.
   */
  class Runtime {
    const root: M.Path
    const loadPath: map<M.Symbol, B.Backend>
    const hostLogLevel: Option<int>
    var included: set<string>
    var bindings: map<B.Service, B.TypeTag>
    var redisOptions: Option<M.RedisOptions>
    var config: Configuration?

    constructor(root: M.Path, loadPath: map<M.Symbol, B.Backend>, hostLogLevel: Option<int>, redisOptions: Option<M.RedisOptions>)
      ensures this.root == root && this.loadPath == loadPath && this.hostLogLevel == hostLogLevel
      ensures included == {} && bindings == map[] && this.redisOptions == redisOptions && config == null
    {
      this.root := root;
      this.loadPath := loadPath;
      this.hostLogLevel := hostLogLevel;
      included := {};
      bindings := map[];
      this.redisOptions := redisOptions;
      config := null;
    }

    function Env(): M.Env
    {
      M.Env(root, loadPath)
    }

    function Namespace(): B.Namespace
      reads this
    {
      B.Namespace(included, bindings)
    }

    /** The state a newly constructed configuration starts in. */
    function FreshWorld(): M.World
      reads this
    {
      M.World(M.Defaults(root, hostLogLevel), false, Namespace(), redisOptions)
    }

    /** The state `Rpush.config` would hand out now. */
    function CurrentWorld(): M.World
      reads this, config
    {
      if config != null then config.State(this) else FreshWorld()
    }

    /** `Rpush.send(:include, m) unless Rpush.ancestors.include?(m)`. */
    method IncludeBackend(b: B.Backend)
      modifies this`included
      ensures included == B.Include(old(included), b)
    {
      if b.moduleName !in included {
        included := included + {b.moduleName};
      }
    }

    /** The `const_set` loop: each message type not yet bound in `Rpush` gets the backend's class. */
    method BindMissingTypes(b: B.Backend)
      modifies this`bindings
      ensures bindings == B.BindMissing(old(bindings), b, |B.Services|)
    {
      var i := 0;
      while i < |B.Services|
        invariant 0 <= i <= |B.Services|
        invariant bindings == B.BindMissing(old(bindings), b, i)
      {
        var s := B.Services[i];
        if s !in bindings {
          bindings := bindings[s := b.TypeFor(s)];
        }
        i := i + 1;
      }
    }

    /** `Rpush.config`: `@config ||= Rpush::Configuration.new`. */
    method Config() returns (c: Configuration)
      modifies this`config
      ensures config == c
      ensures old(config) != null ==> c == old(config)
      ensures old(config) == null ==> fresh(c) && c.State(this) == FreshWorld()
    {
      if config == null {
        config := new Configuration(this);
      }
      c := config;
    }

    /** `Rpush.config = c`. */
    method SetConfig(c: Configuration?)
      modifies this`config
      ensures config == c
    {
      config := c;
    }

    /**
     * `Rpush.configure`: without a block nothing happens, not even the construction of the
     * singleton; with one, the block's setter calls run on `Rpush.config`, then `initialize_client`.
     */
    method Configure(block: Option<seq<M.Assignment>>) returns (raised: Option<M.Error>)
      modifies this, config
      ensures block.None? ==> raised.None? && unchanged(this) && (config != null ==> unchanged(config))
      ensures block.Some? ==> config != null && (old(config) != null ==> config == old(config))
      ensures block.Some? && old(config) == null ==> fresh(config)
      ensures block.Some? ==> M.Outcome(raised, CurrentWorld()) == M.Configure(old(CurrentWorld()), block.value, Env())
    {
      if block.None? {
        return None;
      }
      var c := Config();
      ghost var w0 := c.State(this);
      var calls := block.value;
      var i := 0;
      while i < |calls|
        invariant 0 <= i <= |calls|
        invariant config == c
        invariant M.RunCalls(c.State(this), calls[i..], Env()) == M.RunCalls(w0, calls, Env())
      {
        raised := c.Send(calls[i], this);
        if raised.Some? {
          return;
        }
        i := i + 1;
      }
      raised := c.InitializeClient(this);
    }
  }

  /** `Rpush::Configuration`: the struct slots of `CONFIG_ATTRS` and the `@client_initialized` flag. */
  class Configuration {
    var pushPoll: Option<int>
    var embedded: Option<bool>
    var pidFile: Option<M.Path>
    var batchSize: Option<int>
    var push: Option<bool>
    var client: Option<M.Symbol>
    var logger: Option<M.LoggerRef>
    var logFile: Option<M.Path>
    var foreground: Option<bool>
    var logLevel: Option<int>
    var plugin: Option<M.Bag>
    var apns: Option<M.ApnsConfiguration>
    var logDir: Option<M.Path>
    var feedbackPoll: Option<int>
    var clientInitialized: bool

    function Slots(): M.Settings
      reads this
    {
      M.Settings(pushPoll, embedded, pidFile, batchSize, push, client, logger,
                 logFile, foreground, logLevel, plugin, apns, logDir, feedbackPoll)
    }

    function State(rt: Runtime): M.World
      reads this, rt
    {
      M.World(Slots(), clientInitialized, rt.Namespace(), rt.redisOptions)
    }

    /**
     * `Configuration.new`: `super` leaves every slot nil, then the defaults are assigned, the two
     * paths through their setters.
     */
    constructor(rt: Runtime)
      ensures Slots() == M.Defaults(rt.root, rt.hostLogLevel) && !clientInitialized
    {
      pushPoll := Some(2);
      batchSize := Some(100);
      logger := None;
      logFile, pidFile := None, None;
      logLevel := Some(if rt.hostLogLevel.Some? then rt.hostLogLevel.value else M.Debug);
      plugin := Some(M.Bag(map[]));
      foreground := Some(false);
      apns := Some(M.DefaultApns());
      embedded := Some(false);
      push := Some(false);
      client, logDir, feedbackPoll := None, None, None;
      clientInitialized := false;
      new;
      SetLogFile(Some(M.DefaultLogFile), rt.root);
      SetPidFile(Some(M.DefaultPidFile), rt.root);
    }

    /** `pid_file=`: a relative path is joined onto `Rpush.root`; nil or an absolute path is stored as given. */
    method SetPidFile(path: Option<M.Path>, root: M.Path)
      modifies this`pidFile
      ensures pidFile == M.Normalize(root, path)
    {
      if path.Some? && !M.Absolute(path.value) {
        pidFile := Some(M.Join(root, path.value));
      } else {
        pidFile := path;
      }
    }

    /** `log_file=`, with the same normalisation as `pid_file=`. */
    method SetLogFile(path: Option<M.Path>, root: M.Path)
      modifies this`logFile
      ensures logFile == M.Normalize(root, path)
    {
      if path.Some? && !M.Absolute(path.value) {
        logFile := Some(M.Join(root, path.value));
      } else {
        logFile := path;
      }
    }

    /** `client=`: store the value, then `initialize_client`, whose exception propagates. */
    method SetClient(v: Option<M.Symbol>, rt: Runtime) returns (raised: Option<M.Error>)
      modifies this`client, this`clientInitialized, rt`included, rt`bindings
      ensures M.Outcome(raised, State(rt)) == M.Apply(old(State(rt)), M.SetClient(v), rt.Env())
    {
      client := v;
      raised := InitializeClient(rt);
    }

    /** `redis_options=`: forwarded to the Modis store only when the client is `:redis`. */
    method SetRedisOptions(v: Option<M.RedisOptions>, rt: Runtime)
      modifies rt`redisOptions
      ensures rt.redisOptions == if client == Some(M.Redis) then v else old(rt.redisOptions)
    {
      if client == Some(M.Redis) {
        rt.redisOptions := v;
      }
    }

    /** `feedback_poll=`: `apns.feedback_receiver.frequency = f`. */
    method SetFeedbackPoll(f: Option<int>, rt: Runtime) returns (raised: Option<M.Error>)
      modifies this`apns
      ensures M.Outcome(raised, State(rt)) == M.AssignFeedbackPoll(old(State(rt)), f)
    {
      match apns
      case None =>
        raised := Some(M.NoMethodError("feedback_receiver"));
      case Some(a) =>
        match a.feedbackReceiver
        case None =>
          raised := Some(M.NoMethodError("frequency="));
        case Some(fr) =>
          apns := Some(a.(feedbackReceiver := Some(fr.(frequency := f))));
          raised := None;
    }

    /**
     * `initialize_client`: a no-op once done; otherwise the client must be set and loadable,
     * its module is included unless already there, each missing message-type constant is bound
     * to the backend's class, and only then is the flag set.
     */
    method InitializeClient(rt: Runtime) returns (raised: Option<M.Error>)
      modifies this`clientInitialized, rt`included, rt`bindings
      ensures M.Outcome(raised, State(rt)) == M.InitializeClient(old(State(rt)), rt.Env())
    {
      if clientInitialized {
        return None;
      }
      if client.None? {
        return Some(M.ConfigurationError(M.ClientNotSet));
      }
      var name := client.value;
      if name !in rt.loadPath {
        return Some(M.LoadError("rpush/client/" + name));
      }
      var b := rt.loadPath[name];
      rt.IncludeBackend(b);
      rt.BindMissingTypes(b);
      clientInitialized := true;
      raised := None;
    }

    /** `send("#{attr}=", value)`: dispatch one setter call; the plain struct setters store their argument. */
    method Send(c: M.Assignment, rt: Runtime) returns (raised: Option<M.Error>)
      modifies this, rt`included, rt`bindings, rt`redisOptions
      ensures M.Outcome(raised, State(rt)) == M.Apply(old(State(rt)), c, rt.Env())
    {
      raised := None;
      match c
      case SetPushPoll(v) => pushPoll := v;
      case SetEmbedded(v) => embedded := v;
      case SetPidFile(v) => SetPidFile(v, rt.root);
      case SetBatchSize(v) => batchSize := v;
      case SetPush(v) => push := v;
      case SetClient(v) => raised := SetClient(v, rt);
      case SetLogger(v) => logger := v;
      case SetLogFile(v) => SetLogFile(v, rt.root);
      case SetForeground(v) => foreground := v;
      case SetLogLevel(v) => logLevel := v;
      case SetPlugin(v) => plugin := v;
      case SetApns(v) => apns := v;
      case SetLogDir(v) => logDir := v;
      case SetFeedbackPoll(v) => raised := SetFeedbackPoll(v, rt);
      case SetRedisOptions(v) => SetRedisOptions(v, rt);
    }

    /** `update(other)`: walk `CONFIG_ATTRS`, passing each non-nil value of `other` to its setter. */
    method Update(other: M.Settings, rt: Runtime) returns (raised: Option<M.Error>)
      modifies this, rt`included, rt`bindings, rt`redisOptions
      ensures M.Outcome(raised, State(rt)) == M.Update(old(State(rt)), other, rt.Env())
    {
      ghost var w0 := State(rt);
      var i := 0;
      while i < |M.ConfigAttrs|
        invariant 0 <= i <= |M.ConfigAttrs|
        invariant M.UpdatePrefix(w0, other, rt.Env(), i) == M.Outcome(None, State(rt))
      {
        var c := M.SetterCall(other, M.ConfigAttrs[i]);
        if !M.IsNil(c) {
          raised := Send(c, rt);
          if raised.Some? {
            M.UpdateStopsAtRaise(w0, other, rt.Env(), i + 1, |M.ConfigAttrs|);
            return;
          }
        }
        i := i + 1;
      }
      raised := None;
    }
  }
}
