# Rpush configuration, modelled in Dafny

This project models `lib/rpush/configuration.rb` of the Rpush push-notification service. That file holds the process-wide configuration. It covers:

- the `Rpush::Configuration` struct: its defaults, its path-normalising `pid_file=` and `log_file=` setters, `client=`, `redis_options=` and the deprecated `feedback_poll=`;
- the null-skipping merge `update(other)`;
- the one-shot `initialize_client`, which loads the selected client backend and publishes the message types `Apns`, `Gcm`, `Wpns` and `Adm` into the shared `Rpush` namespace;
- the module-level `Rpush.config` (built lazily) and `Rpush.configure`.

The project has four modules:

- `Wrappers` (`wrappers.dfy`): `Option`, which stands for Ruby's `nil`.
- `ClientBackends` (`client_backends.dfy`): a loadable backend (its module name and its four classes), the part of the `Rpush` namespace that client initialisation changes, and the `const_set` loop as `BindMissing`.
- `ConfigModel` (`config_model.dfy`): the pure specification. It covers the struct slots (`Settings`, one `Option` per entry of `CONFIG_ATTRS`), one setter call (`Assignment`), the process state (`World`): slots, `@client_initialized` flag, namespace and Modis option store. It then defines what each setter, `initialize_client`, `update` and a `configure` block do to that state (`Apply`, `InitializeClient`, `Update`, `Configure`), and the lemmas about them.
- `Rpush` (`rpush.dfy`): the imperative model. `Runtime` holds the `Rpush` module's globals: the singleton, the included modules, the four constants, `Rpush.root`, the backends `require` can find, the host logger level and the Modis option store. `Configuration` has one field per struct slot plus the flag. Most methods' `ensures` equate the new state, and the exception raised, with the matching `ConfigModel` function applied to the old state; this covers `Send`, `SetClient`, `SetFeedbackPoll`, `InitializeClient`, `Update` and `Runtime.Configure`. The exceptions:
  - `SetPidFile` and `SetLogFile` state only their own field, as `Normalize` of the argument.
  - `SetRedisOptions` states the store's new value directly: the argument when the client is `:redis`, otherwise unchanged.
  - `Runtime.IncludeBackend` and `Runtime.BindMissingTypes` are tied to `ClientBackends.Include` and `ClientBackends.BindMissing`.
  - `Runtime.Config` and `Runtime.SetConfig` state their effect on the singleton directly.

External inputs are fields of `Runtime`, passed to the methods that need them:

- `Rpush.root`;
- the set of loadable backends;
- the host framework's logger level;
- the Modis store.

Nothing is read from a clock, the file system or the network.

Where the code and the written design differ, the model follows the code:

- `update` does not overwrite fields directly. It calls each setter. So paths are normalised, `client=` runs `initialize_client`, and a `feedback_poll` value in `other` is written into `apns.feedback_receiver.frequency`, not into the `feedback_poll` slot. This is why `UpdateSkipsNil` needs `feedback_poll` to be nil before it can promise that `apns` is unchanged.
- For a `client` that is nil or a symbol, `update` can never raise `ConfigurationError` (`UpdateRaises`), because a nil `client` in `other` is skipped. This does not hold of every Ruby value: see "Slot types" under "## Left out".

## Model

| member | source | states |
|---|---|---|
| `ClientBackends.Include` | lib/rpush/configuration.rb:113 | including the backend module only when absent gives the same set as adding it |
| `ClientBackends.BindMissing` | lib/rpush/configuration.rb:115-117 | after the first n iterations, every earlier entry of the model's bindings table survives with its value; the bound names are the old ones plus the first n services; each newly bound name holds the backend's class |
| `ClientBackends.BindAll` | lib/rpush/configuration.rb:115-117 | after the whole loop all four services are bound in the model's bindings table; entries already in that table keep their value (first backend wins), missing ones get the backend's class |
| `ConfigModel.IndexOf` | lib/rpush/configuration.rb:18-20 | every attribute occurs in `CONFIG_ATTRS` at its index |
| `ConfigModel.DefaultFeedbackReceiver` | lib/rpush/configuration.rb:25-31 | a feedback receiver starting with both slots nil, then `enabled` true and `frequency` 60; its values are stated in `ConfigModel.DefaultValues` |
| `ConfigModel.DefaultApns` | lib/rpush/configuration.rb:33-38 | an apns configuration whose receiver is a fresh default receiver; `ConfigModel.DefaultValues` states it is fully populated |
| `ConfigModel.Defaults` | lib/rpush/configuration.rb:47-64 | the slots after `Configuration.new`, paths through `Normalize`; `ConfigModel.DefaultValues` states every value and `Rpush.Configuration.constructor` is proved equal to it |
| `ConfigModel.Join` | lib/rpush/configuration.rb:75 | `File.join(root, path)` with one separator; its shape is stated in `ConfigModel.JoinShape` |
| `ConfigModel.Normalize` | lib/rpush/configuration.rb:73-87 | what `pid_file=` and `log_file=` store; stated in `ConfigModel.NormalizeKeeps` and `ConfigModel.NormalizeIdempotent` |
| `ConfigModel.AssignFeedbackPoll` | lib/rpush/configuration.rb:102-104 | `apns.feedback_receiver.frequency = f`, raising `NoMethodError` on a nil on the way; stated in `ConfigModel.FeedbackPollForwards` and `ConfigModel.ApplyRaises` |
| `ConfigModel.Apply` | lib/rpush/configuration.rb:73-104 | the effect of one setter call, including the plain `logger=` at lines 89-91; stated in `ConfigModel.ApplyFrame`, `ApplyStores`, `ApplyRaises`, `FeedbackPollForwards`, `RedisOptionsForwarded` and `ClientNilRaises` |
| `ConfigModel.UpdatePrefix` | lib/rpush/configuration.rb:66-71 | the first n iterations of the walk over `CONFIG_ATTRS`; stated in `ConfigModel.UpdateStopsAtRaise`, `UpdateFrame`, `UpdateStores`, `UpdateKeepsConsistent`, `UpdateRaises`, `LoadErrorAtClient` and `PrefixInitialises` |
| `ConfigModel.Update` | lib/rpush/configuration.rb:66-71 | the whole walk; stated in `ConfigModel.UpdateSkipsNil`, `UpdateAssigns`, `UpdateApns`, `UpdateInitialises` and the three `UpdateNoRollback` lemmas |
| `ConfigModel.RunCalls` | lib/rpush/configuration.rb:13 | the setter calls of the block yielded to, stopping at the first raise; stated in `ConfigModel.RunCallsKeepsConsistent` |
| `ConfigModel.Configure` | lib/rpush/configuration.rb:11-15 | the block's calls, then `initialize_client`; stated in `ConfigModel.ConfigureInitialises` |
| `ConfigModel.ConfigAttrsDistinct` | lib/rpush/configuration.rb:18-20 | `CONFIG_ATTRS` lists each attribute exactly once |
| `ConfigModel.SetterCallWrites` | lib/rpush/configuration.rb:66-104 | a setter reached from `update` writes its own slot, except `feedback_poll=`, which writes `apns`; only the `client` attribute reaches `client=` |
| `ConfigModel.JoinShape` | lib/rpush/configuration.rb:75 | a joined path starts with the root, ends with the relative path, and is absolute exactly when the root is empty or absolute |
| `ConfigModel.NormalizeKeeps` | lib/rpush/configuration.rb:73-87 | a path is stored unchanged if and only if it is nil or absolute; a relative path is stored as `join(root, path)`; nil stays nil |
| `ConfigModel.NormalizeIdempotent` | lib/rpush/configuration.rb:73-87 | with an absolute root every stored path is absolute, and storing a stored path again changes nothing |
| `ConfigModel.DefaultValues` | lib/rpush/configuration.rb:25-64 | a fresh configuration has push_poll 2, batch_size 100, nil logger, foreground/embedded/push false, the two default paths joined onto the root, the host or DEBUG log level, an empty plugin bag, nil client/log_dir/feedback_poll, and a fully populated apns with frequency 60 and enabled true |
| `ConfigModel.InitializeClient` | lib/rpush/configuration.rb:107-120 | never changes the slots or the option store; afterwards the flag is set if and only if it was set before or the call succeeded; a raise changes nothing; the namespace only grows; the invariant "initialised implies the four types are bound" is kept |
| `ConfigModel.ApplyFrame` | lib/rpush/configuration.rb:73-104 | a setter changes no slot outside the ones it writes; only `client=` changes the flag and the namespace; only `redis_options=` changes the option store; the namespace only grows and the invariant is kept |
| `ConfigModel.ApplyStores` | lib/rpush/configuration.rb:73-96 | every setter other than `feedback_poll=` leaves its slot holding the argument (paths normalised), `client=` even when initialisation then raises |
| `ConfigModel.ApplyRaises` | lib/rpush/configuration.rb:93-120 | for a `client` that is nil or a symbol, only `client=` raises: `ConfigurationError` for nil, `LoadError` for an unloadable client, and only when not yet initialised. Only `feedback_poll=` otherwise raises: `NoMethodError` on a nil `apns` or receiver, with nothing changed |
| `ConfigModel.FeedbackPollForwards` | lib/rpush/configuration.rb:102-104 | `feedback_poll=` sets `apns.feedback_receiver.frequency` and changes nothing else, neither `enabled` nor the `feedback_poll` slot |
| `ConfigModel.RedisOptionsForwarded` | lib/rpush/configuration.rb:98-100 | the option store becomes the argument when the client is `:redis`; otherwise nothing changes |
| `ConfigModel.ClientNilRaises` | lib/rpush/configuration.rb:93-109 | on an uninitialised configuration `client = nil` stores nil, then raises `ConfigurationError`, and the flag stays false |
| `ConfigModel.InitializeClientGuard` | lib/rpush/configuration.rb:108 | once initialised, the call returns with no change and no error, whatever `client` now holds |
| `ConfigModel.InitializeClientNotSet` | lib/rpush/configuration.rb:109 | with the flag false and no client it raises `ConfigurationError` and changes nothing |
| `ConfigModel.InitializeClientSucceeds` | lib/rpush/configuration.rb:107-120 | the call succeeds if and only if it was already done or the client names a loadable backend |
| `ConfigModel.InitializeClientPublishes` | lib/rpush/configuration.rb:112-119 | a first successful call sets the flag, includes the backend module, binds all four names in the model's bindings table, keeps each earlier entry and gives each missing name the backend's class |
| `ConfigModel.InitializeClientIdempotent` | lib/rpush/configuration.rb:107-120 | calling it a second time on the resulting state gives the same outcome as calling it once |
| `ConfigModel.UpdateStopsAtRaise` | lib/rpush/configuration.rb:66-71 | once a setter has raised, the remaining attributes are not processed |
| `ConfigModel.UpdateFrame` | lib/rpush/configuration.rb:66-71 | a slot that none of the processed non-nil setters writes keeps its value, whether or not the walk raised |
| `ConfigModel.UpdateKeepsConsistent` | lib/rpush/configuration.rb:66-71 | `update` never changes the option store, only grows the namespace, keeps the invariant, and changes the flag and namespace only through `client=` |
| `ConfigModel.UpdateStores` | lib/rpush/configuration.rb:66-71 | after a prefix of the walk that did not raise, each processed non-nil attribute holds what its setter stored (`apns` unless `feedback_poll` later wrote into it) |
| `ConfigModel.UpdateSkipsNil` | lib/rpush/configuration.rb:66-71 | every attribute that is nil in `other` keeps its old value (`apns` if `feedback_poll` is nil too); the `feedback_poll` slot never changes |
| `ConfigModel.UpdateAssigns` | lib/rpush/configuration.rb:66-71 | after an `update` that did not raise, each non-nil attribute other than `apns` and `feedback_poll` holds the value its setter stores |
| `ConfigModel.UpdateApns` | lib/rpush/configuration.rb:18-20 | because `apns` comes before `feedback_poll` in `CONFIG_ATTRS`, a successful `update` takes `other.apns` if set, then writes `other.feedback_poll` into its frequency |
| `ConfigModel.UpdateRaises` | lib/rpush/configuration.rb:66-71 | for a `client` that is nil or a symbol, `update` raises only `LoadError` or `NoMethodError`, never `ConfigurationError` |
| `ConfigModel.LoadErrorAtClient` | lib/rpush/configuration.rb:66-71 | a load failure happens at the `client` step and ends the walk there |
| `ConfigModel.LoadErrorStep` | lib/rpush/configuration.rb:66-71 | a load failure is the `client=` step applied to the state the earlier steps left, which did not raise |
| `ConfigModel.UpdateNoRollback` | lib/rpush/configuration.rb:66-71 | a load failure inside `update` needs an uninitialised configuration and an unloadable client; it leaves `client` holding the new value, the flag false and the namespace unchanged |
| `ConfigModel.UpdateNoRollbackEarlier` | lib/rpush/configuration.rb:66-71 | after a load failure, the non-nil attributes before `client` stay assigned (no rollback) |
| `ConfigModel.UpdateNoRollbackLater` | lib/rpush/configuration.rb:66-71 | after a load failure, the attributes after `client`, and the nil ones, are as before |
| `ConfigModel.PrefixInitialises` | lib/rpush/configuration.rb:66-96 | a walk that gets past the `client=` step without raising, with a non-nil client in `other`, leaves the configuration initialised |
| `ConfigModel.UpdateInitialises` | lib/rpush/configuration.rb:66-96 | a successful `update` with a non-nil `other.client` has run `initialize_client`: the flag is set and all four message types are bound |
| `ConfigModel.RunCallsKeepsConsistent` | lib/rpush/configuration.rb:11-15 | the setter calls of a configuration block only grow the namespace and keep the invariant |
| `ConfigModel.ConfigureInitialises` | lib/rpush/configuration.rb:11-15 | a `configure` that does not raise leaves the client initialised with all four message types bound |
| `Rpush.Runtime.Config` | lib/rpush/configuration.rb:7-9 | the first call builds and keeps a configuration with the defaults and the flag false; later calls return the same object and change nothing |
| `Rpush.Runtime.IncludeBackend` | lib/rpush/configuration.rb:113 | the backend's module is among `Rpush`'s included modules afterwards, added only if it was missing (`ClientBackends.Include`) |
| `Rpush.Runtime.BindMissingTypes` | lib/rpush/configuration.rb:115-117 | the loop leaves the bindings table equal to `ClientBackends.BindMissing` over all four services, whose properties `ClientBackends.BindAll` states |
| `Rpush.Runtime.SetConfig` | lib/rpush/configuration.rb:5 | replaces the singleton |
| `Rpush.Runtime.Configure` | lib/rpush/configuration.rb:11-15 | without a block nothing changes and the singleton is not built; with one, the singleton is built if needed, the block's calls run on it, then `initialize_client`, exactly as `ConfigModel.Configure` says |
| `Rpush.Configuration.constructor` | lib/rpush/configuration.rb:47-64 | the slots equal `ConfigModel.Defaults` for the runtime's root and host log level, and the flag is false |
| `Rpush.Configuration.SetPidFile` | lib/rpush/configuration.rb:73-79 | stores the normalised path and changes no other field |
| `Rpush.Configuration.SetLogFile` | lib/rpush/configuration.rb:81-87 | stores the normalised path and changes no other field |
| `Rpush.Configuration.SetClient` | lib/rpush/configuration.rb:93-96 | stores the client, then has the effect of `initialize_client` |
| `Rpush.Configuration.SetRedisOptions` | lib/rpush/configuration.rb:98-100 | the option store becomes the argument exactly when the client is `:redis`; nothing else is modified |
| `Rpush.Configuration.SetFeedbackPoll` | lib/rpush/configuration.rb:102-104 | writes only `apns`, with the frequency replaced, or raises `NoMethodError` on a nil |
| `Rpush.Configuration.InitializeClient` | lib/rpush/configuration.rb:107-120 | guard, error checks, module inclusion and the `const_set` loop have the effect `ConfigModel.InitializeClient` describes |
| `Rpush.Configuration.Send` | lib/rpush/configuration.rb:69 | dispatching a setter call has the effect `ConfigModel.Apply` describes |
| `Rpush.Configuration.Update` | lib/rpush/configuration.rb:66-71 | the loop over `CONFIG_ATTRS`, stopping at the first raise, has the effect `ConfigModel.Update` describes |

## Left out

- Deprecation warnings: the `Deprecatable` module that wraps `log_dir=` and `feedback_poll=` is not part of this model. Only what the wrapped setters store is modelled, not the warning text or how many warnings are emitted.
- Default log level: whether a Rails logger is present is host-framework detection. It is given as `Runtime.hostLogLevel`. When it is absent the default is `::Logger::Severity::DEBUG`, which is 0.
- Dynamic loading: `require "rpush/client/#{client}"`, `camelize` and `const_get` are a map `Runtime.loadPath` from client name to backend. A missing entry is a load failure (`LoadError`). A `NameError` from `const_get` on a file that loads but lacks the module is folded into that case.
- Constant lookup: `Rpush.const_defined?(service)` is modelled as membership in the namespace's own bindings table. Ruby also searches the modules included into `Rpush`, including the backend module included just before, and, since `Rpush` is a module, also the top level (`Object`). So a top-level `::Apns`, `::Gcm`, `::Wpns` or `::Adm` defined elsewhere also stops that name from being bound. Two things the model states therefore hold only of that table, not of Ruby's constant resolution:
  - If the included backend module itself defines `Apns`, `Gcm`, `Wpns` and `Adm`, Ruby binds nothing at line 116, and `Rpush::Apns` resolves through the ancestors. A backend included later is placed earlier among the ancestors and shadows the first. "First backend wins" (`ClientBackends.BindAll`, `ConfigModel.InitializeClientPublishes`) is a property of the model's table, not a guarantee of the program.
  - `client_module.const_get(service)` raises `NameError` if the backend lacks one of the four names. That happens partway through the loop, after the include and the earlier bindings, and leaves the flag false. Every `Backend` here has all four classes, so this partial failure cannot arise in the model.
- `Rpush.ancestors` is modelled as a set of module names. The order of ancestors is not modelled.
- Object aliasing: `apns`, its feedback receiver and `other` are values. In Ruby, `update` shares `other.apns` by reference, and `feedback_poll=` then mutates the object both configurations hold. Calling `update` with the configuration itself as `other` is not modelled either.
- Slot types: Ruby struct slots take any object, but here each slot has one type. Two consequences are not modelled:
  - The `TypeError` that `Pathname.new` raises on a non-string path.
  - A non-nil falsy `client` in `other`, namely `false`. `update` does not skip it (line 69), so `client=` stores it and runs `initialize_client`. On an uninitialised configuration, `unless client` at line 109 then raises `ConfigurationError` from inside `update`.
- UpdateRaises: `ConfigModel.UpdateRaises` and `ConfigModel.ApplyRaises` hold only for a `client` that is nil or a symbol. The `false` client above makes `update` raise `ConfigurationError`.
- `File.join` and `Pathname#absolute?`: "absolute" means "starts with `/`". The join puts exactly one `/` between root and path unless the root already ends with one. Other operating-system path rules are not modelled.
- `delegate :redis_options, to: '::Modis'`: only the store that `redis_options=` writes is modelled (`Runtime.redisOptions`), not the reader.
- `plugin = OpenStruct.new` is an uninterpreted bag of string entries, empty by default.
- The block of `Rpush.configure` is modelled as a sequence of setter calls on the configuration. Other code a block might run is not.
- Concurrency: the guard flag and the lazily built singleton are not modelled as thread-safe. This model is sequential.
