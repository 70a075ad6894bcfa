/**
 The MQTT binding's operations as effect traces. The MQTT client, the alarm
 subsystem and the caller's callback are not executed: each operation yields
 the ordered list of calls it makes on them, given the outcomes the client
 reports. `Done(e)` is the caller's callback receiving error `e`.
 */
module MqttBinding {
  import opened Wrappers
  import opened Strings
  import opened JsValues
  import opened Topics
  import opened DeviceIds
  import opened Options

  /** An error reported by the MQTT client, carried through unchanged. */
  datatype Error = Error(message: string)

  /** The device record the registry hands over; only `id` is read. */
  datatype Device = Device(id: string, attributes: map<string, JsValue>)

  datatype Effect =
    | Connect(connectOptions: ConnectionOptions)      // mqtt.connect
    | ListenMessages                           // 'message' events go to the external handler
    | ListenConnect                            // 'connect' events resubscribe
    | Subscribe(topics: seq<string>)
    | Unsubscribe(topics: seq<string>)
    | RaiseAlarm(alarm: string, raised: Error)
    | ReleaseAlarm(alarm: string)
    | Publish(topic: string, payload: string, publishOptions: PublishOptions)
    | End(force: bool)
    | Done(outcome: Option<Error>)
    | Fault(reason: string)                    // a synchronous exception instead of a callback

  /** The alarm call that reports a subscription outcome. */
  function AlarmFor(c: Constants, outcome: Option<Error>): Effect {
    match outcome
    case Some(e) => RaiseAlarm(c.alarm, e)
    case None => ReleaseAlarm(c.alarm)
  }

  /**
   Sequential composition as in `async.series` and `async.waterfall`: the
   second step runs only when the first called back without an error, and
   the first step's callback is then replaced by the second's effects.
   */
  function Then(first: seq<Effect>, second: seq<Effect>): (r: seq<Effect>)
    requires |first| > 0 && first[|first| - 1].Done?
    ensures first[|first| - 1].outcome.Some? ==> r == first
    ensures first[|first| - 1].outcome.None? ==> |r| == |first| - 1 + |second|
    ensures first[|first| - 1].outcome.None? ==> r[..|first| - 1] == first[..|first| - 1] && r[|first| - 1..] == second
  {
    if first[|first| - 1].outcome.Some? then first else first[..|first| - 1] + second
  }

  /**
   One subscription round: a single subscribe call for all global topics;
   on failure the alarm is raised with the client's error and the callback
   receives that error, on success the alarm is released and the callback
   receives none.
   */
  function RecreateSubscriptions(c: Constants, subscribeOutcome: Option<Error>): (t: seq<Effect>)
    ensures |t| == 3
    ensures t[0] == Subscribe(GenerateTopics(c)) && |t[0].topics| == 4
    ensures subscribeOutcome.Some? ==> t[1] == RaiseAlarm(c.alarm, subscribeOutcome.value)
    ensures subscribeOutcome.None? ==> t[1] == ReleaseAlarm(c.alarm)
    ensures t[2] == Done(subscribeOutcome)
  {
    [Subscribe(GenerateTopics(c)), AlarmFor(c, subscribeOutcome), Done(subscribeOutcome)]
  }

  /** The rounds triggered by successive 'connect' events (the first connection and each reconnection). */
  function Rounds(c: Constants, subscribeOutcomes: seq<Option<Error>>): (t: seq<Effect>)
    ensures |t| == 3 * |subscribeOutcomes|
    decreases |subscribeOutcomes|
  {
    if |subscribeOutcomes| == 0 then []
    else RecreateSubscriptions(c, subscribeOutcomes[0]) + Rounds(c, subscribeOutcomes[1..])
  }

  /** Position `j` of round `k` of the rounds is position `j` of that round on its own. */
  lemma {:induction false} RoundsAt(c: Constants, subscribeOutcomes: seq<Option<Error>>, k: nat, j: nat)
    requires k < |subscribeOutcomes| && j < 3
    ensures Rounds(c, subscribeOutcomes)[3 * k + j] == RecreateSubscriptions(c, subscribeOutcomes[k])[j]
    decreases k
  {
    RoundsUnfold(c, subscribeOutcomes, 3 * k + j);
    if k > 0 {
      RoundsAt(c, subscribeOutcomes[1..], k - 1, j);
    }
  }

  /** Position `i` of the rounds lies in the first round or in the rounds of the later 'connect' events. */
  lemma RoundsUnfold(c: Constants, subscribeOutcomes: seq<Option<Error>>, i: nat)
    requires i < 3 * |subscribeOutcomes|
    ensures i < 3 ==> Rounds(c, subscribeOutcomes)[i] == RecreateSubscriptions(c, subscribeOutcomes[0])[i]
    ensures i >= 3 ==> Rounds(c, subscribeOutcomes)[i] == Rounds(c, subscribeOutcomes[1..])[i - 3]
  {
  }

  /**
   `start`: connect with the options derived from the configuration, route
   every inbound message to the external handler, and run one subscription
   round per 'connect' event the client reports.
   */
  function Start(cfg: MqttConfig, c: Constants, subscribeOutcomes: seq<Option<Error>>): (t: seq<Effect>)
    ensures |t| == 3 + 3 * |subscribeOutcomes|
    ensures t[0] == Connect(ConnectionOptionsOf(cfg)) && t[1] == ListenMessages && t[2] == ListenConnect
  {
    [Connect(ConnectionOptionsOf(cfg)), ListenMessages, ListenConnect] + Rounds(c, subscribeOutcomes)
  }

  /** Every callback of a trace comes right after the alarm call matching its error. */
  predicate CallbacksFollowAlarm(c: Constants, t: seq<Effect>) {
    forall i :: 0 <= i < |t| && t[i].Done? ==> i > 0 && t[i - 1] == AlarmFor(c, t[i].outcome)
  }

  /** Every subscribe or unsubscribe of a trace covers exactly the four global topics. */
  predicate OnlyGlobalTopics(c: Constants, t: seq<Effect>) {
    forall i :: 0 <= i < |t| && (t[i].Subscribe? || t[i].Unsubscribe?) ==> t[i].topics == GenerateTopics(c)
  }

  /**
   Over any run of `start`, the k-th 'connect' event produces exactly one
   subscribe, for the four global topics, and the k-th callback, which
   carries the k-th subscribe outcome unchanged.
   */
  lemma StartRounds(cfg: MqttConfig, c: Constants, subscribeOutcomes: seq<Option<Error>>)
    ensures var t := Start(cfg, c, subscribeOutcomes);
      forall k :: 0 <= k < |subscribeOutcomes| ==>
        t[3 + 3 * k] == Subscribe(GenerateTopics(c)) && t[5 + 3 * k] == Done(subscribeOutcomes[k])
  {
    var t := Start(cfg, c, subscribeOutcomes);
    forall k | 0 <= k < |subscribeOutcomes|
      ensures t[3 + 3 * k] == Subscribe(GenerateTopics(c)) && t[5 + 3 * k] == Done(subscribeOutcomes[k])
    {
      StartAt(cfg, c, subscribeOutcomes, k, 0);
      StartAt(cfg, c, subscribeOutcomes, k, 2);
    }
  }

  /**
   Over any run of `start`: nothing is subscribed and no callback is made
   before the handlers are registered, every callback comes right after the
   alarm raise or release matching its error, and every subscribe covers
   exactly the global topics.
   */
  lemma StartTraceDiscipline(cfg: MqttConfig, c: Constants, subscribeOutcomes: seq<Option<Error>>)
    ensures var t := Start(cfg, c, subscribeOutcomes);
      && (forall i :: 0 <= i < |t| && (t[i].Subscribe? || t[i].Done?) ==> i >= 3)
      && CallbacksFollowAlarm(c, t)
      && OnlyGlobalTopics(c, t)
  {
    var t := Start(cfg, c, subscribeOutcomes);
    forall i | 0 <= i < |t|
      ensures t[i].Subscribe? || t[i].Done? ==> i >= 3
      ensures t[i].Done? ==> i > 0 && t[i - 1] == AlarmFor(c, t[i].outcome)
      ensures t[i].Subscribe? || t[i].Unsubscribe? ==> t[i].topics == GenerateTopics(c)
    {
      StartEffectAt(cfg, c, subscribeOutcomes, i);
    }
  }

  /** What stands at position `i` of a `start` trace, stated pointwise. */
  lemma StartEffectAt(cfg: MqttConfig, c: Constants, subscribeOutcomes: seq<Option<Error>>, i: nat)
    requires i < |Start(cfg, c, subscribeOutcomes)|
    ensures var t := Start(cfg, c, subscribeOutcomes);
      && (t[i].Subscribe? || t[i].Done? ==> i >= 3)
      && (t[i].Done? ==> i > 0 && t[i - 1] == AlarmFor(c, t[i].outcome))
      && (t[i].Subscribe? || t[i].Unsubscribe? ==> t[i].topics == GenerateTopics(c))
  {
    if i >= 3 {
      var n := i - 3;
      SplitIndex(n, |subscribeOutcomes|);
      var k, j := n / 3, n % 3;
      StartAt(cfg, c, subscribeOutcomes, k, j);
      if j == 2 {
        StartAt(cfg, c, subscribeOutcomes, k, 1);
      }
    }
  }

  /** A position among the rounds names a round and a step within it. */
  lemma SplitIndex(n: nat, rounds: nat)
    requires n < 3 * rounds
    ensures n / 3 < rounds && n % 3 < 3 && n == 3 * (n / 3) + n % 3
  {
  }

  /** Position `j` of the round triggered by the `k`-th 'connect' event, within the whole `start` trace. */
  lemma StartAt(cfg: MqttConfig, c: Constants, subscribeOutcomes: seq<Option<Error>>, k: nat, j: nat)
    requires k < |subscribeOutcomes| && j < 3
    ensures Start(cfg, c, subscribeOutcomes)[3 + 3 * k + j] == RecreateSubscriptions(c, subscribeOutcomes[k])[j]
  {
    RoundsAt(c, subscribeOutcomes, k, j);
  }

  /** Scenarios: a successful and a failed subscription after the first connect. */
  lemma StartScenarios(cfg: MqttConfig, c: Constants, e: Error)
    ensures Start(cfg, c, [None])[3..] == [Subscribe(GenerateTopics(c)), ReleaseAlarm(c.alarm), Done(None)]
    ensures Start(cfg, c, [Some(e)])[3..] == [Subscribe(GenerateTopics(c)), RaiseAlarm(c.alarm, e), Done(Some(e))]
  {
  }

  /** `unsubscribeAll`: one unsubscribe of the global topics, whose result is not awaited; the callback gets no error. */
  function UnsubscribeAll(c: Constants): (t: seq<Effect>)
    ensures |t| == 2 && t[0] == Unsubscribe(GenerateTopics(c))
    ensures t[|t| - 1] == Done(None)
  {
    [Unsubscribe(GenerateTopics(c)), Done(None)]
  }

  /**
   `stop`: unsubscribe, then force-close the client, then call back with
   whatever the close reported. Before `start` has created the client the
   close call cannot be built and `stop` throws without any callback.
   */
  function Stop(c: Constants, clientCreated: bool, endOutcome: Option<Error>): (t: seq<Effect>)
    ensures clientCreated ==> |t| == 3 && t[0] == Unsubscribe(GenerateTopics(c)) && t[1] == End(true)
    ensures clientCreated ==> t[2] == Done(endOutcome)
    ensures !clientCreated ==> |t| == 1 && t[0].Fault?
  {
    if !clientCreated then [Fault("mqttClient is undefined")]
    else Then(UnsubscribeAll(c), [End(true), Done(endOutcome)])
  }

  /**
   `unsubscribeAll` as the first step of a series never ends it early: the
   steps after it run right after its one unsubscribe, whatever they are.
   */
  lemma UnsubscribeNeverBlocks(c: Constants, rest: seq<Effect>)
    ensures Then(UnsubscribeAll(c), rest) == [Unsubscribe(GenerateTopics(c))] + rest
  {
  }

  /** Unsubscribing never blocks the close: whatever happens, the client is ended after the unsubscribe. */
  lemma StopClosesAfterUnsubscribe(c: Constants, endOutcome: Option<Error>)
    ensures var t := Stop(c, true, endOutcome);
      exists i, j :: 0 <= i < j < |t| && t[i].Unsubscribe? && t[j] == End(true)
  {
    var t := Stop(c, true, endOutcome);
    assert t[0].Unsubscribe? && t[1] == End(true);
  }

  /**
   `sendConfigurationToDevice`: one publish of the serialised notification to
   the device's configuration-values topic, with the callback receiving the
   publish result unchanged. Before `start` has created the client the
   publish call throws and nothing else happens.
   */
  function SendConfigurationToDevice(cfg: MqttConfig, c: Constants, clientCreated: bool, apiKey: string,
                                     deviceId: string, notification: string,
                                     publishOutcome: Option<Error>): (t: seq<Effect>)
    ensures !clientCreated ==> |t| == 1 && t[0].Fault?
    ensures clientCreated ==> |t| == 2 && t[0].Publish? && t[1] == Done(publishOutcome)
    ensures clientCreated ==> t[0].topic == ConfigValuesTopic(c, apiKey, deviceId)
    ensures clientCreated ==> t[0].payload == notification && t[0].publishOptions == ConfigPublishOptions(cfg)
    ensures clientCreated && WellFormed(c) && IsSegment(apiKey) && IsSegment(deviceId) ==>
              Split(t[0].topic, '/') == ["", apiKey, deviceId, c.configuration, c.configurationValues]
  {
    if !clientCreated then [Fault("mqttClient is undefined")]
    else
      [Publish(ConfigValuesTopic(c, apiKey, deviceId), notification, ConfigPublishOptions(cfg)),
       Done(publishOutcome)]
  }

  /**
   `executeCommand`: one publish of the payload to the command topic of the
   device's physical id, then a callback without error that does not wait
   for the publish. Before `start` has created the client the publish call
   throws and nothing else happens.
   */
  function ExecuteCommand(cfg: MqttConfig, clientCreated: bool, apiKey: string, device: Device,
                          serializedPayload: string): (t: seq<Effect>)
    ensures !clientCreated ==> |t| == 1 && t[0].Fault?
    ensures clientCreated ==> |t| == 2 && t[0].Publish? && t[1] == Done(None)
    ensures clientCreated ==> t[0].topic == CommandTopic(apiKey, RemoveLogicalSuffix(device.id))
    ensures clientCreated ==> t[0].payload == serializedPayload && t[0].publishOptions == CommandPublishOptions(cfg)
    ensures clientCreated && IsSegment(apiKey) && IsSegment(RemoveLogicalSuffix(device.id)) ==>
              && Split(t[0].topic, '/') == ["", apiKey, RemoveLogicalSuffix(device.id), CommandSuffix]
              && !Contains(Split(t[0].topic, '/')[2], LogicalMarker)
  {
    if !clientCreated then [Fault("mqttClient is undefined")]
    else
      var deviceId := RemoveLogicalSuffix(device.id);
      [Publish(CommandTopic(apiKey, deviceId), serializedPayload, CommandPublishOptions(cfg)), Done(None)]
  }

  /**
   Acknowledgement asymmetry: a configuration push hands the publish error
   to its caller, a command never reports one.
   */
  lemma PublishErrorPropagation(cfg: MqttConfig, c: Constants, apiKey: string, device: Device,
                                payload: string, e: Error)
    ensures SendConfigurationToDevice(cfg, c, true, apiKey, device.id, payload, Some(e))[1].outcome == Some(e)
    ensures ExecuteCommand(cfg, true, apiKey, device, payload)[1].outcome == None
  {
  }

  /** Scenario: QoS 1, retain on, a logical device id. */
  lemma CommandScenario()
    ensures ExecuteCommand(EmptyConfig.(qos := Num(1), retain := Bool(true)), true, "ABC123",
                           Device("therm7.L1", map[]), "{\"c\":\"on\"}")
            == [Publish("/ABC123/therm7/cmd", "{\"c\":\"on\"}", PublishOptions(Some(Num(1)), Some(Bool(true)))),
                Done(None)]
  {
    var cfg := EmptyConfig.(qos := Num(1), retain := Bool(true));
    assert CommandPublishOptions(cfg) == PublishOptions(Some(Num(1)), Some(Bool(true)));
    ScenarioTopic();
    RemoveLogicalSuffixExamples();
  }

  lemma ScenarioTopic()
    ensures CommandTopic("ABC123", "therm7") == "/ABC123/therm7/cmd"
  {
  }

  /** `deviceProvisioningHandler`: the device is handed back unchanged with no error. */
  function DeviceProvisioningHandler(device: Device): (r: (Option<Error>, Device))
    ensures r.0 == None && r.1 == device
  {
    (None, device)
  }
}
