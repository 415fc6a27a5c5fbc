# DefaultEventLoopGroupFactory, modelled in Dafny

This project models Micronaut's `DefaultEventLoopGroupFactory`, the primary
`EventLoopGroupFactory` of the Netty HTTP layer. The factory holds two backend
references:

- `defaultFactory`, which is always the NIO factory;
- `nativeFactory`, which is the injected native factory (epoll, kqueue, ...) if there is one, and otherwise the NIO factory.

Every public operation forwards its arguments, unchanged, to one of the two
references. It picks the reference by one of two rules:

- **Rule A.** Operations that take an `EventLoopGroupConfiguration` go through `getFactory`. It picks the native reference only when the configuration is non-null and prefers the native transport.
- **Rule B.** Operations without a configuration always go to `nativeFactory`.

Construction also tunes two process-wide settings:

- Netty's global resource-leak-detector level;
- the `io.netty.allocator.maxOrder` system property.

Files:

- `wrappers.dfy`: `Option` (Java `null`) and `Result` (a thrown argument error).
- `transport.dfy`: the backend id `Backend = Nio | Native(id)`, the per-call configuration, opaque tokens for thread factories, executors and channel-type tags, and `Delegation`. A `Delegation` records which backend received which call with which arguments. It is the result of every delegating operation.
- `tuning.dfy`: the leak level (`Disabled < Simple < Advanced < Paranoid`), the global state (that level plus a `map<string, string>` of system properties), and the reference function `Tuned` for one construction's tuning. It also holds the mutable class `NettyGlobals` and lemmas about the tuning.
- `factory.dfy`: the class `DefaultEventLoopGroupFactory`. It has two `const` backend fields, a ghost record of the injected native backend, and a constructor that performs the tuning step by step on a `NettyGlobals` object. Its selection function and delegating operations are functions, since the source changes no state in them.

Every delegating function is specified against a reference function of the injected native backend, not of the fields:

- `NativeOrDefault` for Rule B;
- `PreferredBackend` for Rule A.

The constructor ties the fields to those reference functions through `Valid()`.

Three points about the code:

- The no-argument `serverSocketChannelClass()` and `domainServerSocketChannelClass()` use Rule B, like the two raw `createEventLoopGroup` overloads and `channelClass(type)`. Only overloads that take a configuration consult its preference.
- The allocator chunk order is tuned through a system property that holds the string `"3"`.
- The comment at lines 81-82 of `DefaultEventLoopGroupFactory.java` says leak detection is disabled only when it was not explicitly enabled by a system property, by configuration or by `setLevel`. The test at lines 78-80 cannot keep that promise for `SIMPLE`. A level set to `SIMPLE` by `ResourceLeakDetector.setLevel`, or by an earlier construction's configuration, is indistinguishable from Netty's default. A later construction without a configured level turns it to `DISABLED` (line 83). `ConfiguredSimpleIsDisabledByLaterConstruction` proves this for every state without a leak-detection property.

## Model

| member | source | states |
|---|---|---|
| `EventLoopGroupFactories.PrefersNative` | http-netty/src/main/java/io/micronaut/http/netty/channel/DefaultEventLoopGroupFactory.java:163 | reference definition of the test on line 163, a null configuration never preferring native; no contract of its own; `PreferredBackend` and `OverloadsSplitOnPreference` state its consequences |
| `EventLoopGroupFactories.NativeOrDefault` | http-netty/src/main/java/io/micronaut/http/netty/channel/DefaultEventLoopGroupFactory.java:75 | the native-or-default backend is native exactly when a native factory was injected, and is then that factory |
| `EventLoopGroupFactories.PreferredBackend` | http-netty/src/main/java/io/micronaut/http/netty/channel/DefaultEventLoopGroupFactory.java:162-168 | the Rule A backend is native exactly when a native factory was injected and the configuration is non-null and prefers native, and is then the injected factory; otherwise it is NIO |
| `EventLoopGroupFactories.DefaultEventLoopGroupFactory.constructor` | http-netty/src/main/java/io/micronaut/http/netty/channel/DefaultEventLoopGroupFactory.java:70-89 | `defaultFactory` is the NIO factory; `nativeFactory` is the injected factory if present and `defaultFactory` otherwise; the globals end in the state `Tuned` gives for the old globals and the global configuration |
| `EventLoopGroupFactories.DefaultEventLoopGroupFactory.GetFactory` | http-netty/src/main/java/io/micronaut/http/netty/channel/DefaultEventLoopGroupFactory.java:162-168 | the selected backend is the Rule A backend of the injected factory and the configuration, a null configuration included |
| `EventLoopGroupFactories.DefaultEventLoopGroupFactory.CreateEventLoopGroup` | http-netty/src/main/java/io/micronaut/http/netty/channel/DefaultEventLoopGroupFactory.java:92-97 | fails exactly when the configuration or the thread factory is null; a null configuration is reported first; a failure reaches no backend; on success the Rule A backend gets both arguments unchanged |
| `EventLoopGroupFactories.DefaultEventLoopGroupFactory.CreateEventLoopGroupWithExecutor` | http-netty/src/main/java/io/micronaut/http/netty/channel/DefaultEventLoopGroupFactory.java:99-102 | the native-or-default backend gets threads, executor and ioRatio unchanged |
| `EventLoopGroupFactories.DefaultEventLoopGroupFactory.CreateEventLoopGroupWithThreadFactory` | http-netty/src/main/java/io/micronaut/http/netty/channel/DefaultEventLoopGroupFactory.java:104-107 | the native-or-default backend gets threads, the nullable thread factory and ioRatio unchanged |
| `EventLoopGroupFactories.DefaultEventLoopGroupFactory.ServerSocketChannelClass` | http-netty/src/main/java/io/micronaut/http/netty/channel/DefaultEventLoopGroupFactory.java:109-112 | the no-argument server socket class request goes to the native-or-default backend |
| `EventLoopGroupFactories.DefaultEventLoopGroupFactory.DomainServerSocketChannelClass` | http-netty/src/main/java/io/micronaut/http/netty/channel/DefaultEventLoopGroupFactory.java:114-117 | the no-argument domain server socket class request goes to the native-or-default backend |
| `EventLoopGroupFactories.DefaultEventLoopGroupFactory.ChannelClass` | http-netty/src/main/java/io/micronaut/http/netty/channel/DefaultEventLoopGroupFactory.java:119-122 | `channelClass(type)` goes to the native-or-default backend with the same type |
| `EventLoopGroupFactories.DefaultEventLoopGroupFactory.ServerSocketChannelClassFor` | http-netty/src/main/java/io/micronaut/http/netty/channel/DefaultEventLoopGroupFactory.java:124-128 | the Rule A backend gets the same configuration |
| `EventLoopGroupFactories.DefaultEventLoopGroupFactory.DomainServerSocketChannelClassFor` | http-netty/src/main/java/io/micronaut/http/netty/channel/DefaultEventLoopGroupFactory.java:130-134 | the Rule A backend gets the same configuration |
| `EventLoopGroupFactories.DefaultEventLoopGroupFactory.ChannelClassFor` | http-netty/src/main/java/io/micronaut/http/netty/channel/DefaultEventLoopGroupFactory.java:136-139 | the Rule A backend gets the same type and configuration |
| `EventLoopGroupFactories.DefaultEventLoopGroupFactory.ServerSocketChannelInstance` | http-netty/src/main/java/io/micronaut/http/netty/channel/DefaultEventLoopGroupFactory.java:141-144 | the Rule A backend gets the same configuration |
| `EventLoopGroupFactories.DefaultEventLoopGroupFactory.DomainServerSocketChannelInstance` | http-netty/src/main/java/io/micronaut/http/netty/channel/DefaultEventLoopGroupFactory.java:146-149 | the Rule A backend gets the same configuration |
| `EventLoopGroupFactories.DefaultEventLoopGroupFactory.ChannelInstance` | http-netty/src/main/java/io/micronaut/http/netty/channel/DefaultEventLoopGroupFactory.java:151-154 | the Rule A backend gets the same type and configuration |
| `EventLoopGroupFactories.DefaultEventLoopGroupFactory.ClientSocketChannelClass` | http-netty/src/main/java/io/micronaut/http/netty/channel/DefaultEventLoopGroupFactory.java:156-160 | the Rule A backend gets the same configuration |
| `EventLoopGroupFactories.DefaultEventLoopGroupFactory.ClientSocketChannelInstance` | http-netty/src/main/java/io/micronaut/http/netty/channel/DefaultEventLoopGroupFactory.java:170-174 | the Rule A backend gets the same configuration |
| `EventLoopGroupFactories.OverloadsSplitOnPreference` | http-netty/src/main/java/io/micronaut/http/netty/channel/DefaultEventLoopGroupFactory.java:109-128 | with a native factory injected, `serverSocketChannelClass(configuration)` and `serverSocketChannelClass()` reach the same backend exactly when the configuration prefers native |
| `EventLoopGroupFactories.WithoutNativeEverythingIsNio` | http-netty/src/main/java/io/micronaut/http/netty/channel/DefaultEventLoopGroupFactory.java:74-75 | without an injected native factory both references are NIO, and so is every selection |
| `GlobalTuning.NettyGlobals.GetProperty` | http-netty/src/main/java/io/micronaut/http/netty/channel/DefaultEventLoopGroupFactory.java:79-80 | `System.getProperty` is non-null exactly when the key is set, and then gives its value |
| `GlobalTuning.NettyGlobals.SetLevel` | http-netty/src/main/java/io/micronaut/http/netty/channel/DefaultEventLoopGroupFactory.java:77 | `ResourceLeakDetector.setLevel` replaces the level and leaves the properties alone |
| `GlobalTuning.NettyGlobals.SetProperty` | http-netty/src/main/java/io/micronaut/http/netty/channel/DefaultEventLoopGroupFactory.java:87 | `System.setProperty` sets one key and leaves the level alone |
| `GlobalTuning.ConfiguredLevel` | http-netty/src/main/java/io/micronaut/http/netty/channel/DefaultEventLoopGroupFactory.java:76 | reference definition of the test on line 76: a level is configured only when the global configuration is non-null and its level is non-null; no contract of its own; `LeakLevelCases` and `TunedLevel` state its consequences |
| `GlobalTuning.LeakLevelOverridden` | http-netty/src/main/java/io/micronaut/http/netty/channel/DefaultEventLoopGroupFactory.java:79-80 | reference definition of the negation of the tests on lines 79-80: either spelling of the leak-detection property is set; no contract of its own; `LeakLevelCases` and `OnlyTheDefaultLevelIsDowngraded` state its consequences |
| `GlobalTuning.TunedLevel` | http-netty/src/main/java/io/micronaut/http/netty/channel/DefaultEventLoopGroupFactory.java:76-84 | a configured level is the final level; without one the level never rises, and the only change it can undergo is `SIMPLE` to `DISABLED` |
| `GlobalTuning.TunedProperties` | http-netty/src/main/java/io/micronaut/http/netty/channel/DefaultEventLoopGroupFactory.java:86-88 | the key set after tuning is the old one plus `io.netty.allocator.maxOrder`, and every key that was set keeps its value |
| `GlobalTuning.Tuned` | http-netty/src/main/java/io/micronaut/http/netty/channel/DefaultEventLoopGroupFactory.java:76-88 | the state after one construction has the chunk order set and has a leak-level override exactly when the old state had one; `LeakLevelCases`, `MaxOrderDefaulted` and `TuningIdempotent` give its other properties |
| `GlobalTuning.LeakLevelCases` | http-netty/src/main/java/io/micronaut/http/netty/channel/DefaultEventLoopGroupFactory.java:76-84 | a configured level is applied; without one, `SIMPLE` with neither leak-detection property set becomes `DISABLED`; every other level is kept |
| `GlobalTuning.OnlyTheDefaultLevelIsDowngraded` | http-netty/src/main/java/io/micronaut/http/netty/channel/DefaultEventLoopGroupFactory.java:78-84 | without a configured level the level never rises, and it falls exactly when it was `SIMPLE` and no leak-detection property was set |
| `GlobalTuning.MaxOrderDefaulted` | http-netty/src/main/java/io/micronaut/http/netty/channel/DefaultEventLoopGroupFactory.java:86-88 | the key set grows by `io.netty.allocator.maxOrder` only; its value is the old one if present and `"3"` otherwise; every existing property keeps its value |
| `GlobalTuning.TuningIdempotent` | http-netty/src/main/java/io/micronaut/http/netty/channel/DefaultEventLoopGroupFactory.java:76-88 | tuning twice with the same global configuration gives the state that tuning once gives |
| `GlobalTuning.RepeatedTuningIsTuningOnce` | http-netty/src/main/java/io/micronaut/http/netty/channel/DefaultEventLoopGroupFactory.java:76-88 | any non-empty run of constructions with one global configuration ends in the state of a single construction |
| `GlobalTuning.PropertiesTunedOnce` | http-netty/src/main/java/io/micronaut/http/netty/channel/DefaultEventLoopGroupFactory.java:86-88 | after any non-empty run of constructions, whatever their configurations, the system properties are those of a single construction |
| `GlobalTuning.ConfiguredSimpleIsDisabledByLaterConstruction` | http-netty/src/main/java/io/micronaut/http/netty/channel/DefaultEventLoopGroupFactory.java:76-84 | a construction configured with `SIMPLE` followed by one without a configured level leaves leak detection `DISABLED` when no leak-detection property is set |

## Left out

- The Netty work itself is not modelled: creating event-loop groups, channel classes and channel instances, and the backends' own errors (unsupported channel type, failed reflective instantiation). These are calls into Netty. Each operation's result is the `Delegation` naming the backend, the call and its arguments. Whatever the backend returns or throws is passed on unchanged.
- The two-argument constructor (lines 57-61) is not modelled separately. It passes `null` as the global configuration, which is the main constructor called with `None`.
- Races between concurrent constructions on the leak level and the system properties are not modelled. The source has no synchronisation, so the model is a sequential state change.
- How `ResourceLeakDetector` picks its initial level when its class loads is not modelled. Netty reads its initial level from the same system properties, but the model takes the prior level and the properties as independent inputs.
- Dependency-injection annotations are not modelled: `@Primary`, `@Singleton`, `@Named`, `@Inject`.
- The type of the injected factory is narrowed. In Java the `native`-named bean may be any `EventLoopGroupFactory`. The model gives it a `Native(id)` identifier, distinct from the NIO factory.
- `EventLoopGroupConfiguration`, `NettyGlobalConfiguration` and `NettyChannelType` are not part of this model. The factory reads only `isPreferNativeTransport()` and `getResourceLeakDetectorLevel()`. The configuration record also carries a thread count and an IO ratio, which the factory never reads and only passes on inside the configuration it forwards. `NettyChannelType` is an opaque value that the factory forwards.
- `HttpConverterRegistrar` and the `HelloClient` documentation interface are not modelled. Both lie outside the factory. The first only wires unseen conversion-service calls; the second has no executable logic.
