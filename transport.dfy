/**
 * The values that flow through the event-loop-group factory: the backends it
 * can delegate to, the per-call configuration, the opaque Netty tokens it
 * forwards, and the record of one delegated call.
 */
module Transport {
  import opened Wrappers

  /**
   * An `EventLoopGroupFactory` backend. There is one NIO factory; a native
   * factory (epoll, kqueue, io_uring, ...) is told apart by an opaque id.
   */
  datatype Backend = Nio | Native(id: nat)

  /** The type of the constructor's `NioEventLoopGroupFactory` parameter. */
  type NioBackend = b: Backend | b.Nio? witness Nio

  /** The type of a factory injected under the `native` name. */
  type NativeBackend = b: Backend | b.Native? witness Native(0)

  /**
   * The per-call `EventLoopGroupConfiguration`. The factory reads only
   * `preferNativeTransport`; the other fields are passed through untouched.
   */
  datatype EventLoopGroupConfiguration = EventLoopGroupConfiguration(
    numThreads: int,
    ioRatio: Option<int>,
    preferNativeTransport: bool)

  /** Opaque stand-ins for `java.util.concurrent` objects and Netty's channel-type tag. */
  datatype ThreadFactory = ThreadFactory(id: nat)
  datatype Executor = Executor(id: nat)
  datatype NettyChannelType = NettyChannelType(id: nat)

  /**
   * One call of the `EventLoopGroupFactory` interface, with its arguments.
   * A backend receiving a `Call` does the Netty work it names.
   */
  datatype Call =
    | CreateEventLoopGroup(groupConfiguration: EventLoopGroupConfiguration, threadFactory: ThreadFactory)
    | CreateEventLoopGroupWithExecutor(threads: int, executor: Executor, ioRatio: Option<int>)
    | CreateEventLoopGroupWithThreadFactory(threads: int, factory: Option<ThreadFactory>, ioRatio: Option<int>)
    | ServerSocketChannelClass
    | DomainServerSocketChannelClass
    | ChannelClass(channelType: NettyChannelType)
    | ServerSocketChannelClassFor(configuration: Option<EventLoopGroupConfiguration>)
    | DomainServerSocketChannelClassFor(configuration: Option<EventLoopGroupConfiguration>)
    | ChannelClassFor(channelType: NettyChannelType, configuration: Option<EventLoopGroupConfiguration>)
    | ServerSocketChannelInstance(configuration: Option<EventLoopGroupConfiguration>)
    | DomainServerSocketChannelInstance(configuration: Option<EventLoopGroupConfiguration>)
    | ChannelInstance(channelType: NettyChannelType, configuration: Option<EventLoopGroupConfiguration>)
    | ClientSocketChannelClass(configuration: Option<EventLoopGroupConfiguration>)
    | ClientSocketChannelInstance(configuration: Option<EventLoopGroupConfiguration>)

  /** What an operation of the selecting factory does: hand `call` to `backend`. */
  datatype Delegation = Delegation(backend: Backend, call: Call)

  /** The `NullPointerException` of `ArgumentUtils.requireNonNull`, naming the argument. */
  datatype NullArgument = NullArgument(argument: string)
}
