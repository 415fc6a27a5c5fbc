/**
 * The process-wide tuning that constructing the selecting factory performs:
 * Netty's global resource-leak-detector level and the JVM system property
 * that bounds the pooled allocator's chunk order.
 */
module GlobalTuning {
  import opened Wrappers

  /** `ResourceLeakDetector.Level`, ordered from cheapest to costliest. */
  datatype Level = Disabled | Simple | Advanced | Paranoid {
    function Rank(): (r: nat) {
      match this
      case Disabled => 0
      case Simple => 1
      case Advanced => 2
      case Paranoid => 3
    }
  }

  /**
   * The two system properties Netty accepts as an explicit leak-detection
   * level: the older spelling and the current one.
   */
  const LeakDetectionLevelOldProperty: string := "io.netty.leakDetectionLevel"
  const LeakDetectionLevelProperty: string := "io.netty.leakDetection.level"
  /** The system property that bounds the pooled allocator's chunk order. */
  const MaxOrderProperty: string := "io.netty.allocator.maxOrder"
  const DefaultMaxOrder: string := "3"

  /** The process-wide state the constructor reads and writes. */
  datatype GlobalState = GlobalState(leakLevel: Level, properties: map<string, string>)

  /** `NettyGlobalConfiguration`: the optionally configured leak-detector level. */
  datatype NettyGlobalConfiguration = NettyGlobalConfiguration(resourceLeakDetectorLevel: Option<Level>)

  /** The level a (possibly null) global configuration sets explicitly, if any. */
  function ConfiguredLevel(configuration: Option<NettyGlobalConfiguration>): (r: Option<Level>) {
    if configuration.Some? then configuration.value.resourceLeakDetectorLevel else None
  }

  /** True when a system property names the leak-detection level, under either spelling. */
  predicate LeakLevelOverridden(properties: map<string, string>) {
    LeakDetectionLevelOldProperty in properties || LeakDetectionLevelProperty in properties
  }

  /**
   * The level after construction: a configured level wins; otherwise the
   * level can only fall, and only from `Simple` to `Disabled`.
   */
  function TunedLevel(level: Level, properties: map<string, string>,
                      configuration: Option<NettyGlobalConfiguration>): (r: Level)
    ensures ConfiguredLevel(configuration).Some? ==> r == ConfiguredLevel(configuration).value
    ensures ConfiguredLevel(configuration).None? ==> r.Rank() <= level.Rank()
    ensures ConfiguredLevel(configuration).None? && r != level ==> level == Simple && r == Disabled
  {
    if ConfiguredLevel(configuration).Some? then ConfiguredLevel(configuration).value
    else if level == Simple && !LeakLevelOverridden(properties) then Disabled
    else level
  }

  /**
   * The system properties after construction: the chunk order is set, and
   * every property that was set keeps its value.
   */
  function TunedProperties(properties: map<string, string>): (r: map<string, string>)
    ensures r.Keys == properties.Keys + {MaxOrderProperty}
    ensures forall key :: key in properties ==> r[key] == properties[key]
  {
    if MaxOrderProperty in properties then properties
    else properties[MaxOrderProperty := DefaultMaxOrder]
  }

  /**
   * The global state after one construction of the selecting factory. It
   * never makes a leak-level override appear or disappear, and leaves the
   * chunk order set.
   */
  function Tuned(s: GlobalState, configuration: Option<NettyGlobalConfiguration>): (r: GlobalState)
    ensures MaxOrderProperty in r.properties
    ensures LeakLevelOverridden(r.properties) == LeakLevelOverridden(s.properties)
  {
    OverrideKeysAreNotMaxOrder();
    GlobalState(TunedLevel(s.leakLevel, s.properties, configuration), TunedProperties(s.properties))
  }

  /** The global state after several constructions, one per configuration, in order. */
  function TunedInSequence(s: GlobalState, configurations: seq<Option<NettyGlobalConfiguration>>): (r: GlobalState)
    decreases |configurations|
  {
    if configurations == [] then s
    else TunedInSequence(Tuned(s, configurations[0]), configurations[1..])
  }

  /**
   * The mutable process-wide globals: `ResourceLeakDetector`'s static level
   * and the JVM's system properties.
   */
  class NettyGlobals {
    var leakLevel: Level
    var properties: map<string, string>

    constructor (leakLevel: Level, properties: map<string, string>)
      ensures State() == GlobalState(leakLevel, properties)
    {
      this.leakLevel := leakLevel;
      this.properties := properties;
    }

    function State(): (s: GlobalState)
      reads this
    {
      GlobalState(leakLevel, properties)
    }

    /** `System.getProperty`: `None` for an unset key. */
    function GetProperty(key: string): (v: Option<string>)
      reads this
      ensures v.Some? <==> key in State().properties
      ensures v.Some? ==> v.value == State().properties[key]
    {
      if key in properties then Some(properties[key]) else None
    }

    /** `ResourceLeakDetector.setLevel`. */
    method SetLevel(level: Level)
      modifies this
      ensures State() == GlobalState(level, old(properties))
    {
      leakLevel := level;
    }

    /** `System.setProperty`. */
    method SetProperty(key: string, value: string)
      modifies this
      ensures State() == GlobalState(old(leakLevel), old(properties)[key := value])
    {
      properties := properties[key := value];
    }
  }

  /** The three cases of the leak-level decision. */
  lemma LeakLevelCases(s: GlobalState, configuration: Option<NettyGlobalConfiguration>)
    ensures ConfiguredLevel(configuration).Some? ==>
              Tuned(s, configuration).leakLevel == ConfiguredLevel(configuration).value
    ensures ConfiguredLevel(configuration).None? && s.leakLevel == Simple
            && LeakDetectionLevelOldProperty !in s.properties
            && LeakDetectionLevelProperty !in s.properties ==>
              Tuned(s, configuration).leakLevel == Disabled
    ensures ConfiguredLevel(configuration).None?
            && (s.leakLevel != Simple || LeakLevelOverridden(s.properties)) ==>
              Tuned(s, configuration).leakLevel == s.leakLevel
  {
  }

  /**
   * Without a configured level the only change is the downgrade of the
   * default `Simple` to `Disabled`: an operator's level is never lowered,
   * and no level is ever raised.
   */
  lemma OnlyTheDefaultLevelIsDowngraded(s: GlobalState, configuration: Option<NettyGlobalConfiguration>)
    requires ConfiguredLevel(configuration).None?
    ensures Tuned(s, configuration).leakLevel.Rank() <= s.leakLevel.Rank()
    ensures Tuned(s, configuration).leakLevel.Rank() < s.leakLevel.Rank() <==>
              s.leakLevel == Simple && !LeakLevelOverridden(s.properties)
  {
  }

  /**
   * `io.netty.allocator.maxOrder` is defaulted to "3" only when unset; an
   * existing value is kept, and no other property changes.
   */
  lemma MaxOrderDefaulted(s: GlobalState, configuration: Option<NettyGlobalConfiguration>)
    ensures Tuned(s, configuration).properties.Keys == s.properties.Keys + {MaxOrderProperty}
    ensures Tuned(s, configuration).properties[MaxOrderProperty] ==
              if MaxOrderProperty in s.properties then s.properties[MaxOrderProperty] else DefaultMaxOrder
    ensures forall key :: key in s.properties ==> Tuned(s, configuration).properties[key] == s.properties[key]
  {
  }

  /** Defaulting the chunk order cannot make a leak-level override appear. */
  lemma OverrideKeysAreNotMaxOrder()
    ensures LeakDetectionLevelOldProperty != MaxOrderProperty
    ensures LeakDetectionLevelProperty != MaxOrderProperty
  {
    assert LeakDetectionLevelOldProperty[9] != MaxOrderProperty[9];
    assert LeakDetectionLevelProperty[9] != MaxOrderProperty[9];
  }

  /** A second construction with the same configuration changes nothing. */
  lemma TuningIdempotent(s: GlobalState, configuration: Option<NettyGlobalConfiguration>)
    ensures Tuned(Tuned(s, configuration), configuration) == Tuned(s, configuration)
  {
  }

  /**
   * Any number of constructions with the same configuration leave the same
   * global state as one.
   */
  lemma {:induction false} RepeatedTuningIsTuningOnce(s: GlobalState, configuration: Option<NettyGlobalConfiguration>,
                                                      configurations: seq<Option<NettyGlobalConfiguration>>)
    requires |configurations| >= 1
    requires forall i :: 0 <= i < |configurations| ==> configurations[i] == configuration
    ensures TunedInSequence(s, configurations) == Tuned(s, configuration)
    decreases |configurations|
  {
    var t := Tuned(s, configurations[0]);
    if |configurations| > 1 {
      RepeatedTuningIsTuningOnce(t, configuration, configurations[1..]);
      TuningIdempotent(s, configuration);
    }
  }

  /**
   * Whatever the configurations, any non-empty run of constructions leaves
   * the system properties as one construction does.
   */
  lemma {:induction false} PropertiesTunedOnce(s: GlobalState, configurations: seq<Option<NettyGlobalConfiguration>>)
    requires |configurations| >= 1
    ensures TunedInSequence(s, configurations).properties == TunedProperties(s.properties)
    decreases |configurations|
  {
    var t := Tuned(s, configurations[0]);
    if |configurations| > 1 {
      PropertiesTunedOnce(t, configurations[1..]);
      assert TunedProperties(t.properties) == t.properties;
    }
  }

  /**
   * The decision cannot tell a default `Simple` level from one that an
   * earlier construction configured: a later construction without a
   * configured level disables leak detection.
   */
  lemma ConfiguredSimpleIsDisabledByLaterConstruction(s: GlobalState)
    requires !LeakLevelOverridden(s.properties)
    ensures TunedInSequence(s, [Some(NettyGlobalConfiguration(Some(Simple))), None]).leakLevel == Disabled
  {
    var t := Tuned(s, Some(NettyGlobalConfiguration(Some(Simple))));
    OverrideKeysAreNotMaxOrder();
    assert !LeakLevelOverridden(t.properties);
  }
}
