/**
  * MyMqtt: the publish cycle (connect with a bounded number of attempts,
  * publish the nine retained topics, count errors and sends) and the inbound
  * command callback that may change two options.
  *
  * The broker client (PubSubClient) is modelled by what its callers can see:
  * whether it is connected and the answers it gives to successive connect,
  * publish and subscribe requests, which are part of its state. The texts of
  * the sensor values come from code outside this model and are parameters,
  * as are millis() and secondsElapsed.
  */
module Mqtt {
  import opened Wrappers
  import opened Text
  import opened Data
  import Options

  const TOPIC_DEEP_SLEEP := "/DeepSleep"
  const TOPIC_SEND_EVERY := "/SendEverySec"
  const TOPIC_TEMPERATURE := "/BME280/Temperature"
  const TOPIC_HUMIDITY := "/BME280/Humidity"
  const TOPIC_PRESSURE := "/BME280/Pressure"
  const TOPIC_VOLTAGE := "/Voltage"
  const TOPIC_MAH := "/mAh"
  const TOPIC_ALIVE := "/Alive"
  const TOPIC_RSSI := "/RSSI"
  const TOPIC_CONN_ERROR_COUNT := "/ConnErrorCount"
  const TOPIC_SEND_ERROR_COUNT := "/SendErrorCount"

  /** handleClient tries to connect at most this many times per cycle. */
  const CONNECT_ATTEMPTS: nat := 25
  /** The callback ignores payloads longer than this. */
  const MAX_PAYLOAD_LEN: int := 200

  /** secondsElapsed(lastSec, intervalSec) at the moment it is called. */
  type Elapsed = (int, int) -> bool

  datatype Message = Message(topic: string, payload: string)

  /**
    * The texts handleClient publishes for the measurements: String(double)
    * of temperature, humidity, pressure, voltage and power consumption,
    * formatInterval of the active time and String(WiFi.RSSI()).
    */
  datatype Readings = Readings(
    temperature: string, humidity: string, pressure: string, voltage: string,
    mAh: string, alive: string, rssi: string)

  /** The broker's next answer; a missing answer is a refusal. */
  function Answer(answers: seq<bool>): bool {
    |answers| > 0 && answers[0]
  }

  function Rest(answers: seq<bool>): seq<bool> {
    if answers == [] then [] else answers[1..]
  }

  /** The answers left after `n` requests. */
  function Drop(answers: seq<bool>, n: nat): (r: seq<bool>)
    ensures n <= |answers| ==> r == answers[n..]
    ensures n > |answers| ==> r == []
  {
    if n <= |answers| then answers[n..] else []
  }

  /** The k-th answer (from 0); a missing answer is a refusal. */
  function AnswerAt(answers: seq<bool>, k: nat): bool {
    k < |answers| && answers[k]
  }

  /** The topic mySubscribe and myPublish build: name, '/', id, then the sub-topic. */
  function PublishTopic(name: string, id: string, subTopic: string): (t: string)
    ensures |t| == |name| + 1 + |id| + |subTopic|
    ensures t[..|name|] == name && t[|name|] == '/'
    ensures t[|name| + 1..] == id + subTopic
  {
    var t := name + "/" + id + subTopic;
    assert t[|name| + 1..] == id + subTopic;
    t
  }

  /** What the broker client shows: its connection and the answers it still has to give. */
  datatype Link = Link(
    connected: bool,
    connectAnswers: seq<bool>,
    publishAnswers: seq<bool>,
    subscribeAnswers: seq<bool>,
    retained: seq<Message>,
    subscriptions: seq<string>)

  class PubSubClient {
    var connected: bool
    var connectAnswers: seq<bool>
    var publishAnswers: seq<bool>
    var subscribeAnswers: seq<bool>
    /** The messages the broker accepted, in order. */
    var retained: seq<Message>
    var subscriptions: seq<string>

    function State(): Link
      reads this
    {
      Link(connected, connectAnswers, publishAnswers, subscribeAnswers, retained, subscriptions)
    }

    constructor (connectAnswers: seq<bool>, publishAnswers: seq<bool>, subscribeAnswers: seq<bool>)
      ensures State() == Link(false, connectAnswers, publishAnswers, subscribeAnswers, [], [])
    {
      connected := false;
      this.connectAnswers := connectAnswers;
      this.publishAnswers := publishAnswers;
      this.subscribeAnswers := subscribeAnswers;
      retained := [];
      subscriptions := [];
    }

    /** connect(id, user, password): the broker's next answer decides. */
    method Connect(id: string, user: string, password: string) returns (ok: bool)
      modifies this
      ensures ok == Answer(old(connectAnswers))
      ensures State() == old(State()).(connected := ok, connectAnswers := Rest(old(connectAnswers)))
    {
      ok := Answer(connectAnswers);
      connected := ok;
      connectAnswers := Rest(connectAnswers);
    }

    /** publish(topic, payload, retained): an accepted message is kept by the broker. */
    method Publish(topic: string, payload: string) returns (ok: bool)
      modifies this
      ensures ok == Answer(old(publishAnswers))
      ensures State() == old(State()).(
        publishAnswers := Rest(old(publishAnswers)),
        retained := if ok then old(retained) + [Message(topic, payload)] else old(retained))
    {
      ok := Answer(publishAnswers);
      publishAnswers := Rest(publishAnswers);
      if ok {
        retained := retained + [Message(topic, payload)];
      }
    }

    /** subscribe(topic). */
    method Subscribe(topic: string) returns (ok: bool)
      modifies this
      ensures ok == Answer(old(subscribeAnswers))
      ensures State() == old(State()).(
        subscribeAnswers := Rest(old(subscribeAnswers)),
        subscriptions := if ok then old(subscriptions) + [topic] else old(subscriptions))
    {
      ok := Answer(subscribeAnswers);
      subscribeAnswers := Rest(subscribeAnswers);
      if ok {
        subscriptions := subscriptions + [topic];
      }
    }
  }

  /** The outcome of the connection attempts: connected or not, and how many were made. */
  datatype Connection = Connection(connected: bool, attempts: nat)

  /**
    * Connection attempts against the broker's answers while not connected,
    * at most `budget` of them: they stop at the first success.
    */
  function Attempts(answers: seq<bool>, budget: nat): (r: Connection)
    ensures r.attempts <= budget
    ensures r.connected <==> exists k :: 0 <= k < budget && AnswerAt(answers, k)
    ensures r.connected ==> 0 < r.attempts && AnswerAt(answers, r.attempts - 1)
    ensures forall k :: 0 <= k < r.attempts - 1 ==> !AnswerAt(answers, k)
    ensures !r.connected ==> r.attempts == budget
    decreases budget
  {
    if budget == 0 then Connection(false, 0)
    else if Answer(answers) then
      assert AnswerAt(answers, 0);
      Connection(true, 1)
    else
      var r := Attempts(Rest(answers), budget - 1);
      assert forall k :: 0 <= k ==> AnswerAt(Rest(answers), k) == AnswerAt(answers, k + 1);
      assert forall k :: 1 <= k ==> AnswerAt(answers, k) == AnswerAt(Rest(answers), k - 1);
      Connection(r.connected, r.attempts + 1)
  }

  /** The publishing side of one cycle: broker answers, accepted messages, the send error counter. */
  datatype Outbox = Outbox(answers: seq<bool>, retained: seq<Message>, sendErrors: int)

  /** myPublish: an empty value is skipped; a refused one counts as a send error. */
  function PublishOne(out: Outbox, m: Message): Outbox {
    if m.payload == [] then out
    else if Answer(out.answers) then out.(answers := Rest(out.answers), retained := out.retained + [m])
    else out.(answers := Rest(out.answers), sendErrors := out.sendErrors + 1)
  }

  /** How many of `ms` have a payload, so that myPublish hands them to the broker. */
  function NonEmpty(ms: seq<Message>): nat {
    if ms == [] then 0 else (if ms[0].payload != [] then 1 else 0) + NonEmpty(ms[1..])
  }

  /** myPublish over `ms` in order. */
  function PublishSeq(out: Outbox, ms: seq<Message>): Outbox
    decreases |ms|
  {
    if ms == [] then out else PublishSeq(PublishOne(out, ms[0]), ms[1..])
  }

  /**
    * Every message of `ms` with a payload takes one broker answer and either
    * reaches the broker or adds one send error; what reached it before is
    * kept, and the send error count never falls.
    */
  lemma {:induction false} PublishSeqAccounting(out: Outbox, ms: seq<Message>)
    ensures var r := PublishSeq(out, ms);
      && r.sendErrors >= out.sendErrors
      && |out.retained| <= |r.retained| && r.retained[..|out.retained|] == out.retained
      && (r.sendErrors - out.sendErrors) + (|r.retained| - |out.retained|) == NonEmpty(ms)
      && r.answers == Drop(out.answers, NonEmpty(ms))
    decreases |ms|
  {
    if ms != [] {
      var o1 := PublishOne(out, ms[0]);
      PublishSeqAccounting(o1, ms[1..]);
      var r := PublishSeq(o1, ms[1..]);
      assert r.retained[..|out.retained|] == r.retained[..|o1.retained|][..|out.retained|];
      assert o1.answers == Drop(out.answers, NonEmpty(ms[..1]));
      DropDrop(out.answers, NonEmpty(ms[..1]), NonEmpty(ms[1..]));
    }
  }

  lemma DropDrop(answers: seq<bool>, m: nat, n: nat)
    ensures Drop(Drop(answers, m), n) == Drop(answers, m + n)
  {
  }

  /** The first eight messages of a publish cycle, in the order handleClient sends them. */
  function Measurements(name: string, id: string, rd: Readings, connErrors: int): seq<Message> {
    [Message(PublishTopic(name, id, TOPIC_TEMPERATURE), rd.temperature),
     Message(PublishTopic(name, id, TOPIC_HUMIDITY), rd.humidity),
     Message(PublishTopic(name, id, TOPIC_PRESSURE), rd.pressure),
     Message(PublishTopic(name, id, TOPIC_VOLTAGE), rd.voltage),
     Message(PublishTopic(name, id, TOPIC_MAH), rd.mAh),
     Message(PublishTopic(name, id, TOPIC_ALIVE), rd.alive),
     Message(PublishTopic(name, id, TOPIC_RSSI), rd.rssi),
     Message(PublishTopic(name, id, TOPIC_CONN_ERROR_COUNT), LongText(connErrors))]
  }

  /**
    * The publishes of a connected cycle: the messages `ms`, then the send
    * error count under `countTopic`. The count is read after the publishes
    * before it, so it includes their failures.
    */
  function PublishAll(out: Outbox, ms: seq<Message>, countTopic: string): Outbox {
    var o := PublishSeq(out, ms);
    PublishOne(o, Message(countTopic, LongText(o.sendErrors)))
  }

  /** Every reading has a text to publish. */
  predicate Complete(rd: Readings) {
    rd.temperature != [] && rd.humidity != [] && rd.pressure != [] && rd.voltage != []
    && rd.mAh != [] && rd.alive != [] && rd.rssi != []
  }

  /** The broker accepts the next `n` requests. */
  predicate Accepts(answers: seq<bool>, n: nat) {
    n <= |answers| && forall i :: 0 <= i < n ==> answers[i]
  }

  predicate AllNonEmpty(ms: seq<Message>) {
    forall i :: 0 <= i < |ms| ==> ms[i].payload != []
  }

  /** With every reading present, all eight measurement messages have a payload. */
  lemma MeasurementsComplete(name: string, id: string, rd: Readings, connErrors: int)
    requires Complete(rd)
    ensures |Measurements(name, id, rd, connErrors)| == 8
    ensures AllNonEmpty(Measurements(name, id, rd, connErrors))
  {
  }

  lemma {:induction false} NonEmptyBound(ms: seq<Message>)
    ensures NonEmpty(ms) <= |ms|
    decreases |ms|
  {
    if ms != [] {
      NonEmptyBound(ms[1..]);
    }
  }

  lemma {:induction false} NonEmptyAll(ms: seq<Message>)
    requires AllNonEmpty(ms)
    ensures NonEmpty(ms) == |ms|
    decreases |ms|
  {
    if ms != [] {
      NonEmptyAll(ms[1..]);
    }
  }

  /**
    * The publishes of a connected cycle add at most one send error per
    * message, and errors plus accepted messages account for every publish
    * that was made.
    */
  lemma PublishAllAccounting(out: Outbox, ms: seq<Message>, countTopic: string)
    ensures var r := PublishAll(out, ms, countTopic);
      && out.sendErrors <= r.sendErrors <= out.sendErrors + |ms| + 1
      && |out.retained| <= |r.retained| && r.retained[..|out.retained|] == out.retained
      && (r.sendErrors - out.sendErrors) + (|r.retained| - |out.retained|) == NonEmpty(ms) + 1
      && r.answers == Drop(out.answers, NonEmpty(ms) + 1)
  {
    var o := PublishSeq(out, ms);
    var m := Message(countTopic, LongText(o.sendErrors));
    PublishSeqAccounting(out, ms);
    PublishOneAccounting(o, m);
    NonEmptyBound(ms);
    DropDrop(out.answers, NonEmpty(ms), 1);
    assert PublishAll(out, ms, countTopic) == PublishOne(o, m);
    var r := PublishOne(o, m);
    assert r.retained[..|out.retained|] == o.retained[..|out.retained|];
  }

  /** One publish with a payload takes one answer and is either retained or one more error. */
  lemma PublishOneAccounting(o: Outbox, m: Message)
    requires m.payload != []
    ensures var r := PublishOne(o, m);
      && o.sendErrors <= r.sendErrors <= o.sendErrors + 1
      && |o.retained| <= |r.retained| && r.retained[..|o.retained|] == o.retained
      && (r.sendErrors - o.sendErrors) + (|r.retained| - |o.retained|) == 1
      && r.answers == Drop(o.answers, 1)
  {
  }

  /** When the broker accepts every request, `ms` reaches it whole and in order, with no error. */
  lemma {:induction false} PublishSeqAccepted(out: Outbox, ms: seq<Message>)
    requires Accepts(out.answers, |ms|) && AllNonEmpty(ms)
    ensures PublishSeq(out, ms).retained == out.retained + ms
    ensures PublishSeq(out, ms).sendErrors == out.sendErrors
    decreases |ms|
  {
    if ms == [] {
      assert out.retained + ms == out.retained;
    } else {
      assert ms[0].payload != [] && Answer(out.answers);
      var o1 := Outbox(out.answers[1..], out.retained + [ms[0]], out.sendErrors);
      assert PublishOne(out, ms[0]) == o1;
      assert PublishSeq(out, ms) == PublishSeq(o1, ms[1..]);
      assert Accepts(o1.answers, |ms| - 1) by {
        forall i | 0 <= i < |ms| - 1 ensures o1.answers[i] {
          assert o1.answers[i] == out.answers[i + 1];
        }
      }
      assert AllNonEmpty(ms[1..]) by {
        forall i | 0 <= i < |ms| - 1 ensures ms[1..][i].payload != [] {
          assert ms[1..][i] == ms[i + 1];
        }
      }
      PublishSeqAccepted(o1, ms[1..]);
      assert out.retained + [ms[0]] + ms[1..] == out.retained + ms;
    }
  }

  /** A cycle where the broker accepts all: every message in order, then the unchanged count. */
  lemma AllPublished(out: Outbox, ms: seq<Message>, countTopic: string)
    requires Accepts(out.answers, |ms| + 1) && AllNonEmpty(ms)
    ensures PublishAll(out, ms, countTopic) == Outbox(
      out.answers[|ms| + 1..],
      out.retained + ms + [Message(countTopic, LongText(out.sendErrors))],
      out.sendErrors)
  {
    PublishSeqAccepted(out, ms);
    NonEmptyAll(ms);
    var o := PublishSeq(out, ms);
    PublishSeqAccounting(out, ms);
    assert o.answers == out.answers[|ms|..];
    assert out.answers[|ms|..][1..] == out.answers[|ms| + 1..];
  }

  /**
    * A cycle where only the first publish is refused: one more send error,
    * the other messages published, and the count published last already
    * counts the refusal.
    */
  lemma FirstPublishRefused(out: Outbox, ms: seq<Message>, countTopic: string)
    requires ms != [] && AllNonEmpty(ms)
    requires |out.answers| > 0 && !out.answers[0] && Accepts(out.answers[1..], |ms|)
    ensures PublishAll(out, ms, countTopic) == Outbox(
      out.answers[|ms| + 1..],
      out.retained + ms[1..] + [Message(countTopic, LongText(out.sendErrors + 1))],
      out.sendErrors + 1)
  {
    var o1 := PublishOne(out, ms[0]);
    assert o1 == Outbox(out.answers[1..], out.retained, out.sendErrors + 1);
    assert PublishSeq(out, ms) == PublishSeq(o1, ms[1..]);
    assert AllNonEmpty(ms[1..]);
    PublishSeqAccepted(o1, ms[1..]);
    NonEmptyAll(ms[1..]);
    var o := PublishSeq(o1, ms[1..]);
    PublishSeqAccounting(o1, ms[1..]);
    assert o.answers == out.answers[1..][|ms| - 1..];
    assert out.answers[1..][|ms| - 1..][1..] == out.answers[|ms| + 1..];
  }

  /** The broker client and the RTC block together: what one publish cycle changes. */
  datatype Station = Station(link: Link, image: RtcImage)

  /** How the connection attempts of a cycle end: none when already connected. */
  function ConnectOutcome(l: Link): Connection {
    if l.connected then Connection(true, 0) else Attempts(l.connectAnswers, CONNECT_ATTEMPTS)
  }

  /** The client after the connection attempts of a cycle. */
  function AfterConnect(l: Link): Link {
    var c := ConnectOutcome(l);
    l.(connected := c.connected, connectAnswers := Drop(l.connectAnswers, c.attempts))
  }

  /** The connected part of a cycle: the nine publishes and the send error count. */
  function AfterPublish(st: Station, name: string, id: string, rd: Readings): Station {
    var o := PublishAll(Outbox(st.link.publishAnswers, st.link.retained, st.image.mqttSendErrorCount),
                        Measurements(name, id, rd, st.image.mqttConnErrorCount),
                        PublishTopic(name, id, TOPIC_SEND_ERROR_COUNT));
    Station(st.link.(publishAnswers := o.answers, retained := o.retained),
            st.image.(mqttSendErrorCount := o.sendErrors))
  }

  /**
    * A publish cycle of handleClient at active time `now`: connect if
    * needed; without a connection one more connection error, otherwise the
    * publishes and one more send; the time of the cycle in both cases.
    */
  function Cycle(st: Station, name: string, id: string, rd: Readings, now: int): Station {
    var l := AfterConnect(st.link);
    if !l.connected then
      Station(l, st.image.(mqttConnErrorCount := st.image.mqttConnErrorCount + 1, lastMqttPublishSec := now))
    else
      var p := AfterPublish(Station(l, st.image), name, id, rd);
      Station(p.link, p.image.(mqttSendCount := st.image.mqttSendCount + 1, lastMqttPublishSec := now))
  }

  /**
    * A cycle changes only the four MQTT fields of the block, and never the
    * CRC: sleep() seals the block again before it is written. The time of
    * the cycle is recorded whether or not it connected; subscriptions are
    * not touched.
    */
  lemma CycleTouchesOnlyCounters(st: Station, name: string, id: string, rd: Readings, now: int)
    ensures var r := Cycle(st, name, id, rd, now);
      && r.image == st.image.(mqttConnErrorCount := r.image.mqttConnErrorCount,
                              mqttSendCount := r.image.mqttSendCount,
                              mqttSendErrorCount := r.image.mqttSendErrorCount,
                              lastMqttPublishSec := now)
      && r.link.subscribeAnswers == st.link.subscribeAnswers
      && r.link.subscriptions == st.link.subscriptions
  {
  }

  /**
    * A cycle that ends without a connection made all twenty-five attempts,
    * each refused, counts one connection error and publishes nothing.
    */
  lemma CycleWithoutConnection(st: Station, name: string, id: string, rd: Readings, now: int)
    ensures var r := Cycle(st, name, id, rd, now);
      !r.link.connected ==>
        && !st.link.connected
        && (forall k :: 0 <= k < CONNECT_ATTEMPTS ==> !AnswerAt(st.link.connectAnswers, k))
        && r.link == st.link.(connectAnswers := Drop(st.link.connectAnswers, CONNECT_ATTEMPTS))
        && r.image == st.image.(mqttConnErrorCount := st.image.mqttConnErrorCount + 1,
                                lastMqttPublishSec := now)
  {
  }

  /**
    * A cycle that is connected counts one send, no connection error, and
    * asks the broker to take the nine messages: each is either retained or
    * one more send error when every reading has a text.
    */
  lemma CycleConnected(st: Station, name: string, id: string, rd: Readings, now: int)
    ensures var r := Cycle(st, name, id, rd, now);
      r.link.connected ==>
        && r.image.mqttSendCount == st.image.mqttSendCount + 1
        && r.image.mqttConnErrorCount == st.image.mqttConnErrorCount
        && st.image.mqttSendErrorCount <= r.image.mqttSendErrorCount <= st.image.mqttSendErrorCount + 9
        && |st.link.retained| <= |r.link.retained|
        && r.link.retained[..|st.link.retained|] == st.link.retained
        && (Complete(rd) ==>
              (r.image.mqttSendErrorCount - st.image.mqttSendErrorCount)
              + (|r.link.retained| - |st.link.retained|) == 9)
  {
    var l := AfterConnect(st.link);
    var ms := Measurements(name, id, rd, st.image.mqttConnErrorCount);
    PublishAllAccounting(Outbox(l.publishAnswers, l.retained, st.image.mqttSendErrorCount),
                         ms, PublishTopic(name, id, TOPIC_SEND_ERROR_COUNT));
    if Complete(rd) {
      MeasurementsComplete(name, id, rd, st.image.mqttConnErrorCount);
      NonEmptyAll(ms);
    }
  }

  /** A client that is already connected makes no attempt. */
  lemma CycleAlreadyConnected(st: Station, name: string, id: string, rd: Readings, now: int)
    requires st.link.connected
    ensures var r := Cycle(st, name, id, rd, now);
      r.link.connected && r.link.connectAnswers == st.link.connectAnswers
  {
  }

  /** A disconnected client connects at the first accepted attempt, within twenty-five. */
  lemma CycleConnectsAtFirstAcceptance(st: Station, name: string, id: string, rd: Readings, now: int, k: nat)
    requires !st.link.connected && k < CONNECT_ATTEMPTS && AnswerAt(st.link.connectAnswers, k)
    requires forall j :: 0 <= j < k ==> !AnswerAt(st.link.connectAnswers, j)
    ensures var r := Cycle(st, name, id, rd, now);
      r.link.connected && r.link.connectAnswers == Drop(st.link.connectAnswers, k + 1)
  {
    FirstSuccess(st.link.connectAnswers, k);
  }

  /**
    * A connected cycle where the broker accepts every publish: the nine
    * topics in order, the send error count unchanged and published as it was.
    */
  lemma CycleAllAccepted(st: Station, name: string, id: string, rd: Readings, now: int)
    requires st.link.connected && Complete(rd) && Accepts(st.link.publishAnswers, 9)
    ensures var r := Cycle(st, name, id, rd, now);
      && r.link.retained == st.link.retained + Measurements(name, id, rd, st.image.mqttConnErrorCount)
           + [Message(PublishTopic(name, id, TOPIC_SEND_ERROR_COUNT), LongText(st.image.mqttSendErrorCount))]
      && r.image.mqttSendErrorCount == st.image.mqttSendErrorCount
  {
    var ms := Measurements(name, id, rd, st.image.mqttConnErrorCount);
    MeasurementsComplete(name, id, rd, st.image.mqttConnErrorCount);
    AllPublished(Outbox(st.link.publishAnswers, st.link.retained, st.image.mqttSendErrorCount),
                 ms, PublishTopic(name, id, TOPIC_SEND_ERROR_COUNT));
  }

  /**
    * A connected cycle where only the temperature is refused: one more send
    * error, the other eight topics in order, and the count published last
    * already includes the refusal.
    */
  lemma CycleFirstRefused(st: Station, name: string, id: string, rd: Readings, now: int)
    requires st.link.connected && Complete(rd)
    requires |st.link.publishAnswers| > 0 && !st.link.publishAnswers[0]
    requires Accepts(st.link.publishAnswers[1..], 8)
    ensures var r := Cycle(st, name, id, rd, now);
      && r.link.retained == st.link.retained + Measurements(name, id, rd, st.image.mqttConnErrorCount)[1..]
           + [Message(PublishTopic(name, id, TOPIC_SEND_ERROR_COUNT), LongText(st.image.mqttSendErrorCount + 1))]
      && r.image.mqttSendErrorCount == st.image.mqttSendErrorCount + 1
  {
    var ms := Measurements(name, id, rd, st.image.mqttConnErrorCount);
    MeasurementsComplete(name, id, rd, st.image.mqttConnErrorCount);
    FirstPublishRefused(Outbox(st.link.publishAnswers, st.link.retained, st.image.mqttSendErrorCount),
                        ms, PublishTopic(name, id, TOPIC_SEND_ERROR_COUNT));
  }

  /**
    * The inbound command callback on the options. Nothing happens without a
    * topic or payload, or with an empty or over-long payload. A topic equal
    * to the MQTT name followed by "/DeepSleep" sets the deep sleep flag from
    * atoi of the payload; one followed by "/SendEverySec" sets the publish
    * interval.
    */
  function Command(s: Options.Settings, topic: Option<string>, payload: Option<string>): Options.Settings {
    if topic.None? || payload.None? || |payload.value| == 0 || |payload.value| > MAX_PAYLOAD_LEN then s
    else
      var s1 := if topic.value == s.mqttName + TOPIC_DEEP_SLEEP
        then s.(isDeepSleepEnabled := Atol(payload.value) != 0) else s;
      if topic.value == s1.mqttName + TOPIC_SEND_EVERY
      then s1.(mqttSendEverySec := Atol(payload.value)) else s1
  }

  /** A payload the callback acts on. */
  predicate Accepted(payload: Option<string>) {
    payload.Some? && 0 < |payload.value| <= MAX_PAYLOAD_LEN
  }

  /** The two command topics are never the same text. */
  lemma CommandTopicsDiffer(name: string)
    ensures name + TOPIC_DEEP_SLEEP != name + TOPIC_SEND_EVERY
  {
    var a := name + TOPIC_DEEP_SLEEP;
    var b := name + TOPIC_SEND_EVERY;
    assert a[|name| + 1] == 'D' && b[|name| + 1] == 'S';
  }

  /** The deep sleep command sets the flag from the payload and nothing else. */
  lemma DeepSleepCommand(s: Options.Settings, payload: Option<string>)
    requires Accepted(payload)
    ensures Command(s, Some(s.mqttName + TOPIC_DEEP_SLEEP), payload)
         == s.(isDeepSleepEnabled := Atol(payload.value) != 0)
  {
    CommandTopicsDiffer(s.mqttName);
  }

  /** The interval command sets the publish interval from the payload and nothing else. */
  lemma SendEveryCommand(s: Options.Settings, payload: Option<string>)
    requires Accepted(payload)
    ensures Command(s, Some(s.mqttName + TOPIC_SEND_EVERY), payload)
         == s.(mqttSendEverySec := Atol(payload.value))
  {
    CommandTopicsDiffer(s.mqttName);
  }

  /** Any other topic, and any payload the callback refuses, leave the options as they were. */
  lemma OtherMessagesIgnored(s: Options.Settings, topic: Option<string>, payload: Option<string>)
    requires !Accepted(payload) || topic.None?
      || (topic.value != s.mqttName + TOPIC_DEEP_SLEEP && topic.value != s.mqttName + TOPIC_SEND_EVERY)
    ensures Command(s, topic, payload) == s
  {
  }

  /**
    * The callback compares topics without the MQTT id, while mySubscribe puts
    * the id in front of every sub-topic: a subscription made through
    * mySubscribe would never deliver a command that the callback acts on.
    */
  lemma SubscribedTopicNeverMatches(name: string, id: string, subTopic: string)
    ensures PublishTopic(name, id, subTopic) != name + subTopic
  {
    assert |PublishTopic(name, id, subTopic)| == |name| + 1 + |id| + |subTopic|;
  }

  /**
    * Neither command sub-topic, subscribed through mySubscribe, arrives as
    * a topic the callback acts on, whatever the name and the id.
    */
  lemma CommandSubscriptionsNeverMatch(name: string, id: string)
    ensures PublishTopic(name, id, TOPIC_DEEP_SLEEP) != name + TOPIC_DEEP_SLEEP
    ensures PublishTopic(name, id, TOPIC_DEEP_SLEEP) != name + TOPIC_SEND_EVERY
    ensures PublishTopic(name, id, TOPIC_SEND_EVERY) != name + TOPIC_DEEP_SLEEP
    ensures PublishTopic(name, id, TOPIC_SEND_EVERY) != name + TOPIC_SEND_EVERY
  {
    SubscribedTopicNeverMatches(name, id, TOPIC_DEEP_SLEEP);
    SubscribedTopicNeverMatches(name, id, TOPIC_SEND_EVERY);
    if |id| == 2 {
      var t := PublishTopic(name, id, TOPIC_DEEP_SLEEP);
      assert t[|name| + 1..] == id + TOPIC_DEEP_SLEEP;
      assert t[|name| + 3] == '/';
      assert (name + TOPIC_SEND_EVERY)[|name| + 3] == 'n';
    }
  }

  /** The static g_myOptions: the options the callback may change, or null. */
  class OptionsSlot {
    var options: Options.Options?

    constructor ()
      ensures options == null
    {
      options := null;
    }
  }

  /** mqttCallback on whatever options the slot points to. */
  method MqttCallback(slot: OptionsSlot, topic: Option<string>, payload: Option<string>)
    modifies slot.options
    ensures slot.options != null ==> slot.options.Values() == Command(old(slot.options.Values()), topic, payload)
  {
    if topic.None? || payload.None? || |payload.value| == 0 || |payload.value| > MAX_PAYLOAD_LEN {
      return;
    }
    var strTopic := topic.value;
    var options := slot.options;
    if options != null {
      if strTopic == options.mqttName + TOPIC_DEEP_SLEEP {
        options.isDeepSleepEnabled := Atol(payload.value) != 0;
      }
      if strTopic == options.mqttName + TOPIC_SEND_EVERY {
        options.mqttSendEverySec := Atol(payload.value);
      }
    }
  }

  class MyMqtt {
    const client: PubSubClient
    const options: Options.Options
    const data: MyData
    const slot: OptionsSlot
    var publishInProgress: bool

    /** The constructor points the callback's slot at these options. */
    constructor (client: PubSubClient, options: Options.Options, data: MyData, slot: OptionsSlot)
      modifies slot
      ensures this.client == client && this.options == options && this.data == data && this.slot == slot
      ensures !publishInProgress
      ensures slot.options == options
    {
      this.client := client;
      this.options := options;
      this.data := data;
      this.slot := slot;
      publishInProgress := false;
      new;
      slot.options := options;
    }

    /** The destructor clears the slot, so the callback no longer reaches these options. */
    method Destroy()
      modifies slot
      ensures slot.options == null
    {
      slot.options := null;
    }

    /** The broker client and the RTC block as a value. */
    function State(): Station
      reads client, data, data.rtcData
    {
      Station(client.State(), data.rtcData.Image())
    }

    /** The publishing side as myPublish sees it. */
    function Out(): Outbox
      reads client, data, data.rtcData
    {
      Outbox(client.publishAnswers, client.retained, data.rtcData.mqttSendErrorCount)
    }

    /** mySubscribe: subscribe to the sub-topic under the MQTT name and id. */
    method MySubscribe(subTopic: string) returns (ok: bool)
      modifies client
      ensures ok == Answer(old(client.subscribeAnswers))
      ensures client.State() == old(client.State()).(
        subscribeAnswers := Rest(old(client.subscribeAnswers)),
        subscriptions := if ok then old(client.subscriptions) + [PublishTopic(options.mqttName, options.mqttId, subTopic)]
                         else old(client.subscriptions))
    {
      var topic := options.mqttName + "/" + options.mqttId + subTopic;
      ok := client.Subscribe(topic);
    }

    /**
      * myPublish: publish `value` retained under the MQTT name and id; an
      * empty value is not sent, a refused one counts as a send error.
      */
    method MyPublish(subTopic: string, value: string) returns (ok: bool)
      modifies client, data.rtcData
      ensures ok == (value != [] && Answer(old(client.publishAnswers)))
      ensures Out() == PublishOne(old(Out()), Message(PublishTopic(options.mqttName, options.mqttId, subTopic), value))
      ensures State() == old(State()).(
        link := old(client.State()).(publishAnswers := client.publishAnswers, retained := client.retained),
        image := old(data.rtcData.Image()).(mqttSendErrorCount := data.rtcData.mqttSendErrorCount))
    {
      ok := false;
      if |value| > 0 {
        var topic := options.mqttName + "/" + options.mqttId + subTopic;
        ok := client.Publish(topic, value);
        if !ok {
          data.rtcData.mqttSendErrorCount := data.rtcData.mqttSendErrorCount + 1;
        }
      }
    }

    /** Whether handleClient starts a publish cycle now. */
    predicate Fires(elapsed: Elapsed)
      reads this, options, data, data.rtcData
    {
      elapsed(data.rtcData.lastMqttPublishSec, options.mqttSendEverySec) && !publishInProgress
    }

    /**
      * waitingForMqtt, which keeps the box awake: it holds whenever
      * handleClient would start a cycle, throughout a running cycle, and
      * outside a cycle exactly when one would start.
      */
    function WaitingForMqtt(elapsed: Elapsed): (waiting: bool)
      reads this, options, data, data.rtcData
      ensures Fires(elapsed) ==> waiting
      ensures publishInProgress ==> waiting && !Fires(elapsed)
      ensures !publishInProgress ==> (waiting <==> Fires(elapsed))
    {
      publishInProgress || elapsed(data.rtcData.lastMqttPublishSec, options.mqttSendEverySec)
    }

    /**
      * handleClient: when the publish interval has elapsed and no cycle is
      * running, run one publish cycle at the current active time; otherwise
      * change nothing.
      */
    method HandleClient(elapsed: Elapsed, readings: Readings, millis: Millis)
      modifies this, client, data.rtcData
      ensures !old(Fires(elapsed)) ==> publishInProgress == old(publishInProgress) && State() == old(State())
      ensures old(Fires(elapsed)) ==>
        !publishInProgress
        && State() == Cycle(old(State()), options.mqttName, options.mqttId, readings, ActiveTimeSec(millis))
    {
      var send := elapsed(data.rtcData.lastMqttPublishSec, options.mqttSendEverySec);
      if send && !publishInProgress {
        publishInProgress := true;
        RunCycle(readings, millis);
        publishInProgress := false;
      }
    }

    /** The body of a publish cycle. */
    method RunCycle(readings: Readings, millis: Millis)
      modifies client, data.rtcData
      ensures State() == Cycle(old(State()), options.mqttName, options.mqttId, readings, ActiveTimeSec(millis))
    {
      ConnectWithRetry();
      if !client.connected {
        data.rtcData.mqttConnErrorCount := data.rtcData.mqttConnErrorCount + 1;
      } else {
        PublishCycle(readings);
        data.rtcData.mqttSendCount := data.rtcData.mqttSendCount + 1;
      }
      data.rtcData.lastMqttPublishSec := ActiveTimeSec(millis);
    }

    /** The connection attempts of handleClient: while not connected, at most 25. */
    method ConnectWithRetry()
      modifies client
      ensures client.State() == AfterConnect(old(client.State()))
    {
      if !client.connected {
        ghost var answers := client.connectAnswers;
        var i := 0;
        while !client.connected && i < CONNECT_ATTEMPTS
          invariant 0 <= i <= CONNECT_ATTEMPTS
          invariant client.State() == old(client.State()).(
            connected := client.connected, connectAnswers := Drop(answers, i))
          invariant client.connected ==> Attempts(answers, CONNECT_ATTEMPTS) == Connection(true, i)
          invariant !client.connected ==> forall k :: 0 <= k < i ==> !AnswerAt(answers, k)
          decreases CONNECT_ATTEMPTS - i
        {
          DropAnswer(answers, i);
          var ok := client.Connect(options.mqttName, options.mqttUser, options.mqttPassword);
          if ok {
            FirstSuccess(answers, i);
          }
          i := i + 1;
        }
        if !client.connected {
          AllRefused(answers);
        }
      }
    }

    /** The nine publishes of a connected cycle, in order. */
    method PublishCycle(rd: Readings)
      modifies client, data.rtcData
      ensures State() == AfterPublish(old(State()), options.mqttName, options.mqttId, rd)
    {
      ghost var ms := Measurements(options.mqttName, options.mqttId, rd, data.rtcData.mqttConnErrorCount);
      ghost var o0 := Out();
      var _ := MyPublish(TOPIC_TEMPERATURE, rd.temperature);
      var _ := MyPublish(TOPIC_HUMIDITY, rd.humidity);
      var _ := MyPublish(TOPIC_PRESSURE, rd.pressure);
      var _ := MyPublish(TOPIC_VOLTAGE, rd.voltage);
      var _ := MyPublish(TOPIC_MAH, rd.mAh);
      var _ := MyPublish(TOPIC_ALIVE, rd.alive);
      var _ := MyPublish(TOPIC_RSSI, rd.rssi);
      var _ := MyPublish(TOPIC_CONN_ERROR_COUNT, LongText(data.rtcData.mqttConnErrorCount));
      PublishSeqUnrolled(o0, ms);
      var _ := MyPublish(TOPIC_SEND_ERROR_COUNT, LongText(data.rtcData.mqttSendErrorCount));
    }
  }

  lemma DropAnswer(answers: seq<bool>, i: nat)
    ensures Rest(Drop(answers, i)) == Drop(answers, i + 1)
    ensures Answer(Drop(answers, i)) == AnswerAt(answers, i)
  {
  }

  /** The first accepted attempt ends the connection attempts. */
  lemma FirstSuccess(answers: seq<bool>, i: nat)
    requires i < CONNECT_ATTEMPTS && AnswerAt(answers, i)
    requires forall k :: 0 <= k < i ==> !AnswerAt(answers, k)
    ensures Attempts(answers, CONNECT_ATTEMPTS) == Connection(true, i + 1)
  {
    var r := Attempts(answers, CONNECT_ATTEMPTS);
    assert r.connected;
  }

  /** Twenty-five refusals leave the client disconnected after twenty-five attempts. */
  lemma AllRefused(answers: seq<bool>)
    requires forall k :: 0 <= k < CONNECT_ATTEMPTS ==> !AnswerAt(answers, k)
    ensures Attempts(answers, CONNECT_ATTEMPTS) == Connection(false, CONNECT_ATTEMPTS)
  {
  }

  /** PublishSeq over eight messages is eight myPublish steps. */
  lemma PublishSeqUnrolled(out: Outbox, ms: seq<Message>)
    requires |ms| == 8
    ensures PublishSeq(out, ms) ==
      PublishOne(PublishOne(PublishOne(PublishOne(PublishOne(PublishOne(PublishOne(PublishOne(
        out, ms[0]), ms[1]), ms[2]), ms[3]), ms[4]), ms[5]), ms[6]), ms[7])
  {
    var o1 := PublishOne(out, ms[0]);
    var o2 := PublishOne(o1, ms[1]);
    var o3 := PublishOne(o2, ms[2]);
    var o4 := PublishOne(o3, ms[3]);
    var o5 := PublishOne(o4, ms[4]);
    var o6 := PublishOne(o5, ms[5]);
    var o7 := PublishOne(o6, ms[6]);
    var o8 := PublishOne(o7, ms[7]);
    assert ms[0..] == ms;
    PublishSeqStep(out, ms, 0);
    PublishSeqStep(o1, ms, 1);
    PublishSeqStep(o2, ms, 2);
    PublishSeqStep(o3, ms, 3);
    PublishSeqStep(o4, ms, 4);
    PublishSeqStep(o5, ms, 5);
    PublishSeqStep(o6, ms, 6);
    PublishSeqStep(o7, ms, 7);
    assert ms[8..] == [];
  }

  lemma PublishSeqStep(out: Outbox, ms: seq<Message>, j: nat)
    requires j < |ms|
    ensures PublishSeq(out, ms[j..]) == PublishSeq(PublishOne(out, ms[j]), ms[j + 1..])
  {
    assert ms[j..][1..] == ms[j + 1..];
  }
}
