/**
  * The configuration (MyOptions) and its persistence as a text file of
  * `key=value` lines. The file system is not modelled: `Load` receives the
  * whole file text, or None when the file cannot be opened, and `Save`
  * returns the text it writes.
  */
module Options {
  import opened Wrappers
  import opened Text
  import Config

  datatype Settings = Settings(
    connectWifiAP: bool,
    wifiAP: string,
    wifiPassword: string,
    isDebugActive: bool,
    bme280CheckIntervalSec: int,
    isDeepSleepEnabled: bool,
    activeTimeSec: int,
    deepSleepTimeSec: int,
    isMqttEnabled: bool,
    mqttName: string,
    mqttId: string,
    mqttServer: string,
    mqttPort: int,
    mqttUser: string,
    mqttPassword: string,
    mqttSendEverySec: int)

  /** What the MyOptions constructor sets. */
  const Defaults := Settings(
    connectWifiAP := true,
    wifiAP := Config.WIFI_SID,
    wifiPassword := Config.WIFI_PW,
    isDebugActive := false,
    bme280CheckIntervalSec := 60,
    isDeepSleepEnabled := false,
    activeTimeSec := 60,
    deepSleepTimeSec := 900,
    isMqttEnabled := false,
    mqttName := Config.MQTT_NAME,
    mqttId := Config.MQTT_ID,
    mqttServer := Config.MQTT_SERVER,
    mqttPort := Config.MQTT_PORT,
    mqttUser := Config.MQTT_USER,
    mqttPassword := Config.MQTT_PASSWORD,
    mqttSendEverySec := 900)

  /** The sixteen options the file may name. */
  datatype Key =
    | IsDebugActive | WifiAP | ConnectWifiAP | WifiPassword
    | Bme280CheckIntervalSec | IsDeepSleepEnabled | ActiveTimeSec | DeepSleepTimeSec
    | IsMqttEnabled | MqttName | MqttId | MqttServer
    | MqttPort | MqttUser | MqttPassword | MqttSendEverySec

  function KeyName(k: Key): string {
    match k
    case IsDebugActive => "isDebugActive"
    case WifiAP => "wifiAP"
    case ConnectWifiAP => "connectWifiAP"
    case WifiPassword => "wifiPassword"
    case Bme280CheckIntervalSec => "bme280CheckIntervalSec"
    case IsDeepSleepEnabled => "isDeepSleepEnabled"
    case ActiveTimeSec => "activeTimeSec"
    case DeepSleepTimeSec => "deepSleepTimeSec"
    case IsMqttEnabled => "isMqttEnabled"
    case MqttName => "mqttName"
    case MqttId => "mqttId"
    case MqttServer => "mqttServer"
    case MqttPort => "mqttPort"
    case MqttUser => "mqttUser"
    case MqttPassword => "mqttPassword"
    case MqttSendEverySec => "mqttSendEverySec"
  }

  /** Text that cannot split a `key=value` line: no '=' and no line feed. */
  predicate Plain(s: string) {
    '=' !in s && '\n' !in s
  }

  /** No option name contains '=' or a line feed. */
  lemma PlainKeyName(k: Key)
    ensures Plain(KeyName(k))
  {
    if k == IsDebugActive || k == WifiAP || k == ConnectWifiAP {
      PlainKeyNames1(k);
    } else if k == WifiPassword || k == Bme280CheckIntervalSec {
      PlainKeyNames2(k);
    } else if k == IsDeepSleepEnabled || k == ActiveTimeSec {
      PlainKeyNames3(k);
    } else if k == DeepSleepTimeSec || k == IsMqttEnabled {
      PlainKeyNames4(k);
    } else if k == MqttName || k == MqttId || k == MqttServer || k == MqttPort {
      PlainKeyNames5(k);
    } else {
      PlainKeyNames6(k);
    }
  }

  // The character checks are split into small groups to keep each proof cheap.
  lemma PlainKeyNames1(k: Key)
    requires k == IsDebugActive || k == WifiAP || k == ConnectWifiAP
    ensures Plain(KeyName(k))
  {
  }

  lemma PlainKeyNames2(k: Key)
    requires k == WifiPassword || k == Bme280CheckIntervalSec
    ensures Plain(KeyName(k))
  {
  }

  lemma PlainKeyNames3(k: Key)
    requires k == IsDeepSleepEnabled || k == ActiveTimeSec
    ensures Plain(KeyName(k))
  {
  }

  lemma PlainKeyNames4(k: Key)
    requires k == DeepSleepTimeSec || k == IsMqttEnabled
    ensures Plain(KeyName(k))
  {
  }

  lemma PlainKeyNames5(k: Key)
    requires k == MqttName || k == MqttId || k == MqttServer || k == MqttPort
    ensures Plain(KeyName(k))
  {
  }

  lemma PlainKeyNames6(k: Key)
    requires k == MqttUser || k == MqttPassword || k == MqttSendEverySec
    ensures Plain(KeyName(k))
  {
  }

  /** The exact-match dispatch of load: the option a key names, if any. */
  function ParseKey(s: string): (r: Option<Key>)
    ensures r.Some? ==> KeyName(r.value) == s
    ensures r.None? ==> forall k: Key :: KeyName(k) != s
  {
    if s == "isDebugActive" then Some(IsDebugActive)
    else if s == "wifiAP" then Some(WifiAP)
    else if s == "connectWifiAP" then Some(ConnectWifiAP)
    else if s == "wifiPassword" then Some(WifiPassword)
    else if s == "bme280CheckIntervalSec" then Some(Bme280CheckIntervalSec)
    else if s == "isDeepSleepEnabled" then Some(IsDeepSleepEnabled)
    else if s == "activeTimeSec" then Some(ActiveTimeSec)
    else if s == "deepSleepTimeSec" then Some(DeepSleepTimeSec)
    else if s == "isMqttEnabled" then Some(IsMqttEnabled)
    else if s == "mqttName" then Some(MqttName)
    else if s == "mqttId" then Some(MqttId)
    else if s == "mqttServer" then Some(MqttServer)
    else if s == "mqttPort" then Some(MqttPort)
    else if s == "mqttUser" then Some(MqttUser)
    else if s == "mqttPassword" then Some(MqttPassword)
    else if s == "mqttSendEverySec" then Some(MqttSendEverySec)
    else None
  }

  /** Every option name is recognised as that option. */
  lemma ParseKeyName(k: Key)
    ensures ParseKey(KeyName(k)) == Some(k)
  {
  }

  /** The options load stores as bools (from the atol value being nonzero). */
  predicate IsFlag(k: Key) {
    k.IsDebugActive? || k.ConnectWifiAP? || k.IsDeepSleepEnabled? || k.IsMqttEnabled?
  }

  /** The WiFi options load stores as strings (the cleaned value text). */
  predicate IsWifiText(k: Key) {
    k.WifiAP? || k.WifiPassword?
  }

  /** The MQTT options load stores as strings (the cleaned value text). */
  predicate IsMqttText(k: Key) {
    k.MqttName? || k.MqttId? || k.MqttServer? || k.MqttUser? || k.MqttPassword?
  }

  /**
    * One assignment of load: a bool option takes whether the atol value is
    * nonzero, a string option the cleaned text, a number option the atol value.
    */
  function Assign(s: Settings, k: Key, text: string, number: int): Settings {
    if IsFlag(k) then AssignFlag(s, k, number != 0)
    else if IsWifiText(k) then AssignWifiText(s, k, text)
    else if IsMqttText(k) then AssignMqttText(s, k, text)
    else AssignNumber(s, k, number)
  }

  function AssignFlag(s: Settings, k: Key, b: bool): Settings
    requires IsFlag(k)
  {
    if k.IsDebugActive? then s.(isDebugActive := b)
    else if k.ConnectWifiAP? then s.(connectWifiAP := b)
    else if k.IsDeepSleepEnabled? then s.(isDeepSleepEnabled := b)
    else s.(isMqttEnabled := b)
  }

  function AssignWifiText(s: Settings, k: Key, text: string): Settings
    requires IsWifiText(k)
  {
    if k.WifiAP? then s.(wifiAP := text)
    else s.(wifiPassword := text)
  }

  function AssignMqttText(s: Settings, k: Key, text: string): Settings
    requires IsMqttText(k)
  {
    if k.MqttName? then s.(mqttName := text)
    else if k.MqttId? then s.(mqttId := text)
    else if k.MqttServer? then s.(mqttServer := text)
    else if k.MqttUser? then s.(mqttUser := text)
    else s.(mqttPassword := text)
  }

  function AssignNumber(s: Settings, k: Key, number: int): Settings
    requires !IsFlag(k) && !IsWifiText(k) && !IsMqttText(k)
  {
    if k.Bme280CheckIntervalSec? then s.(bme280CheckIntervalSec := number)
    else if k.ActiveTimeSec? then s.(activeTimeSec := number)
    else if k.DeepSleepTimeSec? then s.(deepSleepTimeSec := number)
    else if k.MqttPort? then s.(mqttPort := number)
    else s.(mqttSendEverySec := number)
  }

  /** The value text with every carriage return and line feed removed. */
  function Clean(raw: string): (r: string)
    ensures '\r' !in r && '\n' !in r
  {
    Remove(Remove(raw, '\r'), '\n')
  }

  /** A line is split at its first '='; a line without one is rejected. */
  function SplitLine(line: string): (r: Option<(string, string)>)
    ensures r.None? <==> '=' !in line
    ensures r.Some? ==> '=' !in r.value.0 && line == r.value.0 + "=" + r.value.1
  {
    var idx := IndexOf(line, '=');
    if idx == -1 then None
    else
      assert line == line[..idx] + "=" + line[idx + 1..];
      Some((line[..idx], line[idx + 1..]))
  }

  /** One line of the file applied to the settings; None aborts the load. */
  function ApplyLine(s: Settings, line: string): Option<Settings> {
    match SplitLine(line)
    case None => None
    case Some((key, raw)) =>
      match ParseKey(key)
      case None => None
      case Some(k) => Some(Assign(s, k, Clean(raw), Atol(raw)))
  }

  datatype Loaded = Loaded(settings: Settings, ok: bool)

  /** The lines of `text` applied in order until the first bad one. */
  function LoadText(s: Settings, text: string): Loaded
    decreases |text|
  {
    if text == [] then Loaded(s, true)
    else
      var (line, rest) := NextLine(text);
      match ApplyLine(s, line)
      case None => Loaded(s, false)
      case Some(s') => LoadText(s', rest)
  }

  /** load: None stands for a file that cannot be opened. */
  function LoadFile(s: Settings, file: Option<string>): Loaded {
    if file.None? then Loaded(s, false) else LoadText(s, file.value)
  }

  /** String(bool): "1" or "0". */
  function BoolText(b: bool): string {
    if b then "1" else "0"
  }

  /** The text save writes after `key=`. */
  function ValueText(v: Settings, k: Key): string {
    match k
    case IsDebugActive => BoolText(v.isDebugActive)
    case WifiAP => v.wifiAP
    case ConnectWifiAP => BoolText(v.connectWifiAP)
    case WifiPassword => v.wifiPassword
    case Bme280CheckIntervalSec => LongText(v.bme280CheckIntervalSec)
    case IsDeepSleepEnabled => BoolText(v.isDeepSleepEnabled)
    case ActiveTimeSec => LongText(v.activeTimeSec)
    case DeepSleepTimeSec => LongText(v.deepSleepTimeSec)
    case IsMqttEnabled => BoolText(v.isMqttEnabled)
    case MqttName => v.mqttName
    case MqttId => v.mqttId
    case MqttServer => v.mqttServer
    case MqttPort => LongText(v.mqttPort)
    case MqttUser => v.mqttUser
    case MqttPassword => v.mqttPassword
    case MqttSendEverySec => LongText(v.mqttSendEverySec)
  }

  /** File::println: the line, then a carriage return and a line feed. */
  function Println(line: string): string {
    line + "\r\n"
  }

  /** The line save writes for one option. */
  function SavedLine(v: Settings, k: Key): string {
    Println(KeyName(k) + "=" + ValueText(v, k))
  }

  /** The whole file save writes: one line per option, in this order. */
  function SaveText(v: Settings): string {
    SavedLine(v, IsDebugActive)
    + SavedLine(v, ConnectWifiAP)
    + SavedLine(v, WifiAP)
    + SavedLine(v, WifiPassword)
    + SavedLine(v, Bme280CheckIntervalSec)
    + SavedLine(v, IsDeepSleepEnabled)
    + SavedLine(v, ActiveTimeSec)
    + SavedLine(v, DeepSleepTimeSec)
    + SavedLine(v, IsMqttEnabled)
    + SavedLine(v, MqttName)
    + SavedLine(v, MqttId)
    + SavedLine(v, MqttServer)
    + SavedLine(v, MqttPort)
    + SavedLine(v, MqttUser)
    + SavedLine(v, MqttPassword)
    + SavedLine(v, MqttSendEverySec)
  }

  class Options {
    var connectWifiAP: bool
    var wifiAP: string
    var wifiPassword: string
    var isDebugActive: bool
    var bme280CheckIntervalSec: int
    var isDeepSleepEnabled: bool
    var activeTimeSec: int
    var deepSleepTimeSec: int
    var isMqttEnabled: bool
    var mqttName: string
    var mqttId: string
    var mqttServer: string
    var mqttPort: int
    var mqttUser: string
    var mqttPassword: string
    var mqttSendEverySec: int

    function Values(): Settings
      reads this
    {
      Settings(connectWifiAP, wifiAP, wifiPassword, isDebugActive,
               bme280CheckIntervalSec, isDeepSleepEnabled, activeTimeSec, deepSleepTimeSec,
               isMqttEnabled, mqttName, mqttId, mqttServer,
               mqttPort, mqttUser, mqttPassword, mqttSendEverySec)
    }

    constructor ()
      ensures Values() == Defaults
    {
      isDebugActive := false;
      wifiAP := Config.WIFI_SID;
      connectWifiAP := true;
      wifiPassword := Config.WIFI_PW;
      bme280CheckIntervalSec := 60;
      isDeepSleepEnabled := false;
      activeTimeSec := 60;
      deepSleepTimeSec := 900;
      isMqttEnabled := false;
      mqttName := Config.MQTT_NAME;
      mqttId := Config.MQTT_ID;
      mqttServer := Config.MQTT_SERVER;
      mqttPort := Config.MQTT_PORT;
      mqttUser := Config.MQTT_USER;
      mqttPassword := Config.MQTT_PASSWORD;
      mqttSendEverySec := 900;
    }

    /** The assignment branch of load for a recognised key. */
    method Set(k: Key, text: string, number: int)
      modifies this
      ensures Values() == Assign(old(Values()), k, text, number)
    {
      if IsFlag(k) {
        SetFlag(k, number != 0);
      } else if IsWifiText(k) {
        SetWifiText(k, text);
      } else if IsMqttText(k) {
        SetMqttText(k, text);
      } else {
        SetNumber(k, number);
      }
    }

    /** A bool option takes whether the atol value is nonzero. */
    method SetFlag(k: Key, b: bool)
      requires IsFlag(k)
      modifies this
      ensures Values() == AssignFlag(old(Values()), k, b)
    {
      if k.IsDebugActive? {
        isDebugActive := b;
      } else if k.ConnectWifiAP? {
        connectWifiAP := b;
      } else if k.IsDeepSleepEnabled? {
        isDeepSleepEnabled := b;
      } else {
        isMqttEnabled := b;
      }
    }

    /** A WiFi string option takes the cleaned text. */
    method SetWifiText(k: Key, text: string)
      requires IsWifiText(k)
      modifies this
      ensures Values() == AssignWifiText(old(Values()), k, text)
    {
      if k.WifiAP? {
        wifiAP := text;
      } else {
        wifiPassword := text;
      }
    }

    /** An MQTT string option takes the cleaned text. */
    method SetMqttText(k: Key, text: string)
      requires IsMqttText(k)
      modifies this
      ensures Values() == AssignMqttText(old(Values()), k, text)
    {
      if k.MqttName? {
        mqttName := text;
      } else if k.MqttId? {
        mqttId := text;
      } else if k.MqttServer? {
        mqttServer := text;
      } else if k.MqttUser? {
        mqttUser := text;
      } else {
        mqttPassword := text;
      }
    }

    /** A number option takes the atol value. */
    method SetNumber(k: Key, number: int)
      requires !IsFlag(k) && !IsWifiText(k) && !IsMqttText(k)
      modifies this
      ensures Values() == AssignNumber(old(Values()), k, number)
    {
      if k.Bme280CheckIntervalSec? {
        bme280CheckIntervalSec := number;
      } else if k.ActiveTimeSec? {
        activeTimeSec := number;
      } else if k.DeepSleepTimeSec? {
        deepSleepTimeSec := number;
      } else if k.MqttPort? {
        mqttPort := number;
      } else {
        mqttSendEverySec := number;
      }
    }

    /**
      * load: read the file line by line, stopping at the first line that has
      * no '=' or names an unknown option; lines applied before it stay applied.
      */
    method Load(file: Option<string>) returns (ret: bool)
      modifies this
      ensures Loaded(Values(), ret) == LoadFile(old(Values()), file)
    {
      ret := false;
      if file.Some? {
        ret := true;
        var remaining := file.value;
        while remaining != [] && ret
          invariant ret ==> LoadText(Values(), remaining) == LoadText(old(Values()), file.value)
          invariant !ret ==> LoadText(old(Values()), file.value) == Loaded(Values(), false)
          decreases |remaining|
        {
          var (line, next) := NextLine(remaining);
          ghost var before := Values();
          remaining := next;
          var idx := IndexOf(line, '=');
          if idx == -1 {
            ret := false;
          } else {
            var key := line[..idx];
            var value := line[idx + 1..];
            var lValue := Atol(value);
            value := Remove(value, '\r');
            value := Remove(value, '\n');
            var k := ParseKey(key);
            if k.None? {
              ret := false;
            } else {
              Set(k.value, value, lValue);
            }
          }
        }
      }
    }

    /** save: the sixteen lines of SaveText; nothing when the file cannot be opened. */
    method Save(writable: bool) returns (ok: bool, text: string)
      ensures ok == writable
      ensures ok ==> text == SaveText(Values())
      ensures !ok ==> text == []
    {
      var v := Values();
      text := [];
      if !writable {
        return false, text;
      }
      text := Println(KeyName(IsDebugActive) + "=" + ValueText(v, IsDebugActive));
      text := text + Println(KeyName(ConnectWifiAP) + "=" + ValueText(v, ConnectWifiAP));
      text := text + Println(KeyName(WifiAP) + "=" + ValueText(v, WifiAP));
      text := text + Println(KeyName(WifiPassword) + "=" + ValueText(v, WifiPassword));
      text := text + Println(KeyName(Bme280CheckIntervalSec) + "=" + ValueText(v, Bme280CheckIntervalSec));
      text := text + Println(KeyName(IsDeepSleepEnabled) + "=" + ValueText(v, IsDeepSleepEnabled));
      text := text + Println(KeyName(ActiveTimeSec) + "=" + ValueText(v, ActiveTimeSec));
      text := text + Println(KeyName(DeepSleepTimeSec) + "=" + ValueText(v, DeepSleepTimeSec));
      text := text + Println(KeyName(IsMqttEnabled) + "=" + ValueText(v, IsMqttEnabled));
      text := text + Println(KeyName(MqttName) + "=" + ValueText(v, MqttName));
      text := text + Println(KeyName(MqttId) + "=" + ValueText(v, MqttId));
      text := text + Println(KeyName(MqttServer) + "=" + ValueText(v, MqttServer));
      text := text + Println(KeyName(MqttPort) + "=" + ValueText(v, MqttPort));
      text := text + Println(KeyName(MqttUser) + "=" + ValueText(v, MqttUser));
      text := text + Println(KeyName(MqttPassword) + "=" + ValueText(v, MqttPassword));
      text := text + Println(KeyName(MqttSendEverySec) + "=" + ValueText(v, MqttSendEverySec));
      ok := true;
    }
  }
}
