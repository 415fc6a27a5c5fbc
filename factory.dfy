/**
 * `DefaultEventLoopGroupFactory`: the primary `EventLoopGroupFactory`, which
 * forwards every operation to either the NIO backend or the native one, and
 * tunes Netty's globals once when it is constructed.
 */
module EventLoopGroupFactories {
  import opened Wrappers
  import opened Transport
  import opened GlobalTuning

  /** True when a (possibly null) configuration asks for the native transport. */
  predicate PrefersNative(configuration: Option<EventLoopGroupConfiguration>) {
    configuration.Some? && configuration.value.preferNativeTransport
  }

  /** The backend that stands for "native": the injected one, else NIO. */
  function NativeOrDefault(injected: Option<NativeBackend>): (b: Backend)
    ensures b.Native? <==> injected.Some?
    ensures injected.Some? ==> b == injected.value
  {
    if injected.Some? then injected.value else Nio
  }

  /**
   * The backend a configuration-taking operation must reach: the injected
   * native backend exactly when there is one and the configuration prefers
   * it, and NIO in every other case, a null configuration included.
   */
  function PreferredBackend(injected: Option<NativeBackend>,
                            configuration: Option<EventLoopGroupConfiguration>): (b: Backend)
    ensures b.Native? <==> injected.Some? && PrefersNative(configuration)
    ensures b.Native? ==> b == injected.value
  {
    if PrefersNative(configuration) then NativeOrDefault(injected) else Nio
  }

  class DefaultEventLoopGroupFactory {
    const nativeFactory: Backend
    const defaultFactory: Backend
    /** The native factory that was injected, if any. */
    ghost const injected: Option<NativeBackend>

    ghost predicate Valid() {
      defaultFactory == Nio && nativeFactory == NativeOrDefault(injected)
    }

    /**
     * The injecting constructor. The global configuration is `None` for the
     * two-argument constructor.
     */
    constructor (nioEventLoopGroupFactory: NioBackend,
                 nativeFactory: Option<NativeBackend>,
                 nettyGlobalConfiguration: Option<NettyGlobalConfiguration>,
                 globals: NettyGlobals)
      modifies globals
      ensures Valid() && injected == nativeFactory
      ensures defaultFactory == nioEventLoopGroupFactory
      ensures nativeFactory.Some? ==> this.nativeFactory == nativeFactory.value
      ensures nativeFactory.None? ==> this.nativeFactory == defaultFactory
      ensures globals.State() == Tuned(old(globals.State()), nettyGlobalConfiguration)
    {
      defaultFactory := nioEventLoopGroupFactory;
      this.nativeFactory := if nativeFactory.Some? then nativeFactory.value else nioEventLoopGroupFactory;
      injected := nativeFactory;
      new;
      if nettyGlobalConfiguration.Some? && nettyGlobalConfiguration.value.resourceLeakDetectorLevel.Some? {
        globals.SetLevel(nettyGlobalConfiguration.value.resourceLeakDetectorLevel.value);
      } else if globals.leakLevel == Simple
        && globals.GetProperty(LeakDetectionLevelOldProperty).None?
        && globals.GetProperty(LeakDetectionLevelProperty).None?
      {
        globals.SetLevel(Disabled);
      }

      if globals.GetProperty(MaxOrderProperty).None? {
        globals.SetProperty(MaxOrderProperty, DefaultMaxOrder);
      }
    }

    /** The backend for a configuration-taking operation. */
    function GetFactory(configuration: Option<EventLoopGroupConfiguration>): (b: Backend)
      requires Valid()
      ensures b == PreferredBackend(injected, configuration)
    {
      if configuration.Some? && configuration.value.preferNativeTransport then nativeFactory
      else defaultFactory
    }

    /**
     * `createEventLoopGroup(configuration, threadFactory)`: a null argument
     * fails, the configuration checked first, before any backend is reached.
     */
    function CreateEventLoopGroup(configuration: Option<EventLoopGroupConfiguration>,
                                  threadFactory: Option<ThreadFactory>): (r: Result<Delegation, NullArgument>)
      requires Valid()
      ensures r.Failure? <==> configuration.None? || threadFactory.None?
      ensures configuration.None? ==> r == Failure(NullArgument("configuration"))
      ensures configuration.Some? && threadFactory.None? ==> r == Failure(NullArgument("threadFactory"))
      ensures r.Success? ==> r.value.backend == PreferredBackend(injected, configuration)
      ensures r.Success? ==>
                r.value.call == Call.CreateEventLoopGroup(configuration.value, threadFactory.value)
    {
      if configuration.None? then Failure(NullArgument("configuration"))
      else if threadFactory.None? then Failure(NullArgument("threadFactory"))
      else Success(Delegation(GetFactory(configuration),
                              Call.CreateEventLoopGroup(configuration.value, threadFactory.value)))
    }

    /** `createEventLoopGroup(threads, executor, ioRatio)`: always the native-or-default backend. */
    function CreateEventLoopGroupWithExecutor(threads: int, executor: Executor, ioRatio: Option<int>): (d: Delegation)
      requires Valid()
      ensures d.backend == NativeOrDefault(injected)
      ensures d.call == Call.CreateEventLoopGroupWithExecutor(threads, executor, ioRatio)
    {
      Delegation(nativeFactory, Call.CreateEventLoopGroupWithExecutor(threads, executor, ioRatio))
    }

    /** `createEventLoopGroup(threads, threadFactory, ioRatio)`: always the native-or-default backend. */
    function CreateEventLoopGroupWithThreadFactory(threads: int, threadFactory: Option<ThreadFactory>,
                                                   ioRatio: Option<int>): (d: Delegation)
      requires Valid()
      ensures d.backend == NativeOrDefault(injected)
      ensures d.call == Call.CreateEventLoopGroupWithThreadFactory(threads, threadFactory, ioRatio)
    {
      Delegation(nativeFactory, Call.CreateEventLoopGroupWithThreadFactory(threads, threadFactory, ioRatio))
    }

    /** `serverSocketChannelClass()`: always the native-or-default backend. */
    function ServerSocketChannelClass(): (d: Delegation)
      requires Valid()
      ensures d.backend == NativeOrDefault(injected)
      ensures d.call == Call.ServerSocketChannelClass
    {
      Delegation(nativeFactory, Call.ServerSocketChannelClass)
    }

    /** `domainServerSocketChannelClass()`: always the native-or-default backend. */
    function DomainServerSocketChannelClass(): (d: Delegation)
      requires Valid()
      ensures d.backend == NativeOrDefault(injected)
      ensures d.call == Call.DomainServerSocketChannelClass
    {
      Delegation(nativeFactory, Call.DomainServerSocketChannelClass)
    }

    /** `channelClass(type)`: always the native-or-default backend. */
    function ChannelClass(channelType: NettyChannelType): (d: Delegation)
      requires Valid()
      ensures d.backend == NativeOrDefault(injected)
      ensures d.call == Call.ChannelClass(channelType)
    {
      Delegation(nativeFactory, Call.ChannelClass(channelType))
    }

    /** `serverSocketChannelClass(configuration)`. */
    function ServerSocketChannelClassFor(configuration: Option<EventLoopGroupConfiguration>): (d: Delegation)
      requires Valid()
      ensures d.backend == PreferredBackend(injected, configuration)
      ensures d.call == Call.ServerSocketChannelClassFor(configuration)
    {
      Delegation(GetFactory(configuration), Call.ServerSocketChannelClassFor(configuration))
    }

    /** `domainServerSocketChannelClass(configuration)`. */
    function DomainServerSocketChannelClassFor(configuration: Option<EventLoopGroupConfiguration>): (d: Delegation)
      requires Valid()
      ensures d.backend == PreferredBackend(injected, configuration)
      ensures d.call == Call.DomainServerSocketChannelClassFor(configuration)
    {
      Delegation(GetFactory(configuration), Call.DomainServerSocketChannelClassFor(configuration))
    }

    /** `channelClass(type, configuration)`. */
    function ChannelClassFor(channelType: NettyChannelType,
                             configuration: Option<EventLoopGroupConfiguration>): (d: Delegation)
      requires Valid()
      ensures d.backend == PreferredBackend(injected, configuration)
      ensures d.call == Call.ChannelClassFor(channelType, configuration)
    {
      Delegation(GetFactory(configuration), Call.ChannelClassFor(channelType, configuration))
    }

    /** `serverSocketChannelInstance(configuration)`. */
    function ServerSocketChannelInstance(configuration: Option<EventLoopGroupConfiguration>): (d: Delegation)
      requires Valid()
      ensures d.backend == PreferredBackend(injected, configuration)
      ensures d.call == Call.ServerSocketChannelInstance(configuration)
    {
      Delegation(GetFactory(configuration), Call.ServerSocketChannelInstance(configuration))
    }

    /** `domainServerSocketChannelInstance(configuration)`. */
    function DomainServerSocketChannelInstance(configuration: Option<EventLoopGroupConfiguration>): (d: Delegation)
      requires Valid()
      ensures d.backend == PreferredBackend(injected, configuration)
      ensures d.call == Call.DomainServerSocketChannelInstance(configuration)
    {
      Delegation(GetFactory(configuration), Call.DomainServerSocketChannelInstance(configuration))
    }

    /** `channelInstance(type, configuration)`. */
    function ChannelInstance(channelType: NettyChannelType,
                             configuration: Option<EventLoopGroupConfiguration>): (d: Delegation)
      requires Valid()
      ensures d.backend == PreferredBackend(injected, configuration)
      ensures d.call == Call.ChannelInstance(channelType, configuration)
    {
      Delegation(GetFactory(configuration), Call.ChannelInstance(channelType, configuration))
    }

    /** `clientSocketChannelClass(configuration)`. */
    function ClientSocketChannelClass(configuration: Option<EventLoopGroupConfiguration>): (d: Delegation)
      requires Valid()
      ensures d.backend == PreferredBackend(injected, configuration)
      ensures d.call == Call.ClientSocketChannelClass(configuration)
    {
      Delegation(GetFactory(configuration), Call.ClientSocketChannelClass(configuration))
    }

    /** `clientSocketChannelInstance(configuration)`. */
    function ClientSocketChannelInstance(configuration: Option<EventLoopGroupConfiguration>): (d: Delegation)
      requires Valid()
      ensures d.backend == PreferredBackend(injected, configuration)
      ensures d.call == Call.ClientSocketChannelInstance(configuration)
    {
      Delegation(GetFactory(configuration), Call.ClientSocketChannelInstance(configuration))
    }
  }

  /**
   * The overloads disagree: with a native backend injected, a configuration
   * that does not prefer it sends `serverSocketChannelClass(configuration)`
   * to NIO while `serverSocketChannelClass()` still goes native.
   */
  lemma OverloadsSplitOnPreference(f: DefaultEventLoopGroupFactory, configuration: Option<EventLoopGroupConfiguration>)
    requires f.Valid() && f.injected.Some?
    ensures f.ServerSocketChannelClassFor(configuration).backend == f.ServerSocketChannelClass().backend
            <==> PrefersNative(configuration)
  {
  }

  /** Without a native backend both references and every selection are NIO. */
  lemma WithoutNativeEverythingIsNio(f: DefaultEventLoopGroupFactory, configuration: Option<EventLoopGroupConfiguration>)
    requires f.Valid() && f.injected.None?
    ensures f.nativeFactory == f.defaultFactory == Nio
    ensures f.GetFactory(configuration) == Nio
  {
  }
}
