/**
  * What load does with a file, line by line, and the round trip from save
  * back through load.
  */
module OptionsProperties {
  import opened Wrappers
  import opened Text
  import opened Options

  /** Text that ends at a line boundary: empty, or ending in a line feed. */
  predicate LoadsFully(text: string) {
    text == [] || text[|text| - 1] == '\n'
  }

  /** One step of the load loop: the first line is applied, then the rest is read. */
  lemma LoadLine(s: Settings, line: string, rest: string)
    requires '\n' !in line
    ensures LoadText(s, line + "\n" + rest) ==
      match ApplyLine(s, line)
      case None => Loaded(s, false)
      case Some(s') => LoadText(s', rest)
  {
    NextLineOf(line, rest);
  }

  /** Loading two texts one after the other, the first ending at a line boundary. */
  lemma {:induction false} LoadAppend(s: Settings, a: string, b: string)
    requires LoadsFully(a)
    ensures LoadText(s, a + b) ==
      (var r := LoadText(s, a); if r.ok then LoadText(r.settings, b) else r)
    decreases |a|
  {
    if a == [] {
      assert a + b == b;
    } else {
      var (line, rest) := NextLine(a);
      assert '\n' in a by { assert a[|a| - 1] == '\n'; }
      assert a == line + "\n" + rest;
      assert LoadsFully(rest) by {
        if rest != [] {
          assert rest[|rest| - 1] == a[|a| - 1];
        }
      }
      assert a + b == line + "\n" + (rest + b);
      LoadLine(s, line, rest + b);
      LoadLine(s, line, rest);
      match ApplyLine(s, line)
      case None =>
      case Some(s') =>
        LoadAppend(s', rest, b);
    }
  }

  /** The key of a line is the text before its first '='; the value may hold more of them. */
  lemma SplitLineAt(key: string, value: string)
    requires '=' !in key
    ensures SplitLine(key + "=" + value) == Some((key, value))
  {
    var line := key + "=" + value;
    assert line == key + ['='] + value;
    FirstIndex(key, '=', value);
    assert line[..|key|] == key;
    assert line[|key| + 1..] == value;
  }

  /** A line without '=' is rejected. */
  lemma MissingSeparatorRejected(s: Settings, line: string)
    requires '=' !in line
    ensures ApplyLine(s, line) == None
  {
  }

  /** A line whose key names no option is rejected, whatever its value. */
  lemma UnknownKeyRejected(s: Settings, key: string, value: string)
    requires '=' !in key
    requires forall k: Key :: KeyName(k) != key
    ensures ApplyLine(s, key + "=" + value) == None
  {
    SplitLineAt(key, value);
  }

  /** A line naming an option assigns the text after its first '=' to it. */
  lemma KnownKeyAccepted(s: Settings, k: Key, value: string)
    ensures ApplyLine(s, KeyName(k) + "=" + value) == Some(Assign(s, k, Clean(value), Atol(value)))
  {
    PlainKeyName(k);
    SplitLineAt(KeyName(k), value);
    ParseKeyName(k);
  }

  /** load: a line naming an option assigns it and reading goes on. */
  lemma KnownKeyLine(s: Settings, k: Key, value: string, rest: string)
    requires '\n' !in value
    ensures LoadText(s, KeyName(k) + "=" + value + "\n" + rest)
         == LoadText(Assign(s, k, Clean(value), Atol(value)), rest)
  {
    var line := KeyName(k) + "=" + value;
    PlainKeyName(k);
    assert '\n' !in line;
    KnownKeyAccepted(s, k, value);
    LoadLine(s, line, rest);
  }

  /** load: a line without '=' stops reading and fails; the settings stay as they were. */
  lemma LineWithoutSeparator(s: Settings, line: string, rest: string)
    requires '\n' !in line && '=' !in line
    ensures LoadText(s, line + "\n" + rest) == Loaded(s, false)
  {
    LoadLine(s, line, rest);
  }

  /** load: a line naming an unknown option stops reading and fails. */
  lemma UnknownKeyLine(s: Settings, key: string, value: string, rest: string)
    requires Plain(key) && '\n' !in value
    requires forall k: Key :: KeyName(k) != key
    ensures LoadText(s, key + "=" + value + "\n" + rest) == Loaded(s, false)
  {
    var line := key + "=" + value;
    assert '\n' !in line;
    UnknownKeyRejected(s, key, value);
    LoadLine(s, line, rest);
  }

  /**
    * load does not roll back: when a rejected line follows lines that were
    * read, the result keeps what those lines assigned and reports failure.
    */
  lemma NoRollback(s: Settings, good: string, bad: string, rest: string)
    requires LoadsFully(good) && LoadText(s, good).ok
    requires '\n' !in bad && ApplyLine(LoadText(s, good).settings, bad).None?
    ensures LoadText(s, good + (bad + "\n" + rest)) == Loaded(LoadText(s, good).settings, false)
  {
    LoadAppend(s, good, bad + "\n" + rest);
    LoadLine(LoadText(s, good).settings, bad, rest);
  }

  /** An empty file loads successfully and changes nothing; a missing file fails. */
  lemma LoadEmptyOrMissing(s: Settings)
    ensures LoadFile(s, Some([])) == Loaded(s, true)
    ensures LoadFile(s, None) == Loaded(s, false)
  {
  }

  /** A second assignment to the same option replaces the first. */
  lemma AssignTwice(s: Settings, k: Key, t1: string, n1: int, t2: string, n2: int)
    ensures Assign(Assign(s, k, t1, n1), k, t2, n2) == Assign(s, k, t2, n2)
  {
    if IsFlag(k) {
      FlagTwice(s, k, n1 != 0, n2 != 0);
    } else if IsWifiText(k) {
      WifiTextTwice(s, k, t1, t2);
    } else if IsMqttText(k) {
      MqttTextTwice(s, k, t1, t2);
    } else {
      NumberTwice(s, k, n1, n2);
    }
  }

  lemma FlagTwice(s: Settings, k: Key, b1: bool, b2: bool)
    requires IsFlag(k)
    ensures AssignFlag(AssignFlag(s, k, b1), k, b2) == AssignFlag(s, k, b2)
  {
  }

  lemma WifiTextTwice(s: Settings, k: Key, t1: string, t2: string)
    requires IsWifiText(k)
    ensures AssignWifiText(AssignWifiText(s, k, t1), k, t2) == AssignWifiText(s, k, t2)
  {
  }

  lemma MqttTextTwice(s: Settings, k: Key, t1: string, t2: string)
    requires IsMqttText(k)
    ensures AssignMqttText(AssignMqttText(s, k, t1), k, t2) == AssignMqttText(s, k, t2)
  {
  }

  lemma NumberTwice(s: Settings, k: Key, n1: int, n2: int)
    requires !IsFlag(k) && !IsWifiText(k) && !IsMqttText(k)
    ensures AssignNumber(AssignNumber(s, k, n1), k, n2) == AssignNumber(s, k, n2)
  {
  }

  /** load: when an option is named twice, the later line wins. */
  lemma DuplicateKey(s: Settings, k: Key, v1: string, v2: string, rest: string)
    requires '\n' !in v1 && '\n' !in v2
    ensures LoadText(s, KeyName(k) + "=" + v1 + "\n" + (KeyName(k) + "=" + v2 + "\n" + rest))
         == LoadText(Assign(s, k, Clean(v2), Atol(v2)), rest)
  {
    var s1 := Assign(s, k, Clean(v1), Atol(v1));
    KnownKeyLine(s, k, v1, KeyName(k) + "=" + v2 + "\n" + rest);
    KnownKeyLine(s1, k, v2, rest);
    AssignTwice(s, k, Clean(v1), Atol(v1), Clean(v2), Atol(v2));
  }

  /** The string options hold no carriage return and no line feed, so save writes each on one line. */
  predicate Saveable(v: Settings) {
    && '\r' !in v.wifiAP && '\n' !in v.wifiAP
    && '\r' !in v.wifiPassword && '\n' !in v.wifiPassword
    && '\r' !in v.mqttName && '\n' !in v.mqttName
    && '\r' !in v.mqttId && '\n' !in v.mqttId
    && '\r' !in v.mqttServer && '\n' !in v.mqttServer
    && '\r' !in v.mqttUser && '\n' !in v.mqttUser
    && '\r' !in v.mqttPassword && '\n' !in v.mqttPassword
  }

  /** `s` with option `k` taken from `v`. */
  function Copy(s: Settings, v: Settings, k: Key): Settings {
    match k
    case IsDebugActive => s.(isDebugActive := v.isDebugActive)
    case WifiAP => s.(wifiAP := v.wifiAP)
    case ConnectWifiAP => s.(connectWifiAP := v.connectWifiAP)
    case WifiPassword => s.(wifiPassword := v.wifiPassword)
    case Bme280CheckIntervalSec => s.(bme280CheckIntervalSec := v.bme280CheckIntervalSec)
    case IsDeepSleepEnabled => s.(isDeepSleepEnabled := v.isDeepSleepEnabled)
    case ActiveTimeSec => s.(activeTimeSec := v.activeTimeSec)
    case DeepSleepTimeSec => s.(deepSleepTimeSec := v.deepSleepTimeSec)
    case IsMqttEnabled => s.(isMqttEnabled := v.isMqttEnabled)
    case MqttName => s.(mqttName := v.mqttName)
    case MqttId => s.(mqttId := v.mqttId)
    case MqttServer => s.(mqttServer := v.mqttServer)
    case MqttPort => s.(mqttPort := v.mqttPort)
    case MqttUser => s.(mqttUser := v.mqttUser)
    case MqttPassword => s.(mqttPassword := v.mqttPassword)
    case MqttSendEverySec => s.(mqttSendEverySec := v.mqttSendEverySec)
  }

  /** A saved bool, followed by the carriage return println adds, reads back as 1 or 0. */
  lemma AtolBoolText(b: bool)
    ensures (Atol(BoolText(b) + "\r") != 0) == b
  {
    AtolDigits(BoolText(b), "\r");
  }

  /** A saved string, with the carriage return println adds, is cleaned back to itself. */
  lemma CleanSavedText(x: string)
    requires '\r' !in x && '\n' !in x
    ensures Clean(x + "\r") == x
  {
    RemoveAppend(x, "\r", '\r');
    assert Remove("\r", '\r') == [];
    assert x + [] == x;
  }

  /** What load makes of the value text of one saved line is the saved option. */
  lemma AssignSaved(s: Settings, v: Settings, k: Key)
    requires Saveable(v)
    ensures Assign(s, k, Clean(ValueText(v, k) + "\r"), Atol(ValueText(v, k) + "\r")) == Copy(s, v, k)
  {
    if IsFlag(k) {
      AssignSavedFlag(s, v, k);
    } else if IsWifiText(k) || IsMqttText(k) {
      CleanSavedText(ValueText(v, k));
    } else {
      AssignSavedNumber(s, v, k);
    }
  }

  lemma AssignSavedFlag(s: Settings, v: Settings, k: Key)
    requires IsFlag(k)
    ensures AssignFlag(s, k, Atol(ValueText(v, k) + "\r") != 0) == Copy(s, v, k)
  {
    if k.IsDebugActive? {
      AtolBoolText(v.isDebugActive);
    } else if k.ConnectWifiAP? {
      AtolBoolText(v.connectWifiAP);
    } else if k.IsDeepSleepEnabled? {
      AtolBoolText(v.isDeepSleepEnabled);
    } else {
      AtolBoolText(v.isMqttEnabled);
    }
  }

  lemma AssignSavedNumber(s: Settings, v: Settings, k: Key)
    requires !IsFlag(k) && !IsWifiText(k) && !IsMqttText(k)
    ensures AssignNumber(s, k, Atol(ValueText(v, k) + "\r")) == Copy(s, v, k)
  {
    if k.Bme280CheckIntervalSec? {
      AtolOfLongText(v.bme280CheckIntervalSec, "\r");
    } else if k.ActiveTimeSec? {
      AtolOfLongText(v.activeTimeSec, "\r");
    } else if k.DeepSleepTimeSec? {
      AtolOfLongText(v.deepSleepTimeSec, "\r");
    } else if k.MqttPort? {
      AtolOfLongText(v.mqttPort, "\r");
    } else {
      AtolOfLongText(v.mqttSendEverySec, "\r");
    }
  }

  /** The value text save writes for an option holds no line feed. */
  lemma SavedValueOneLine(v: Settings, k: Key)
    requires Saveable(v)
    ensures '\n' !in ValueText(v, k) + "\r"
  {
    if !IsFlag(k) && !IsWifiText(k) && !IsMqttText(k) {
      assert '\n' !in ValueText(v, k);
    }
  }

  /** The line save writes for an option, as load splits it: name, '=', value, line feed. */
  lemma SavedLineShape(v: Settings, k: Key)
    ensures SavedLine(v, k) == KeyName(k) + "=" + (ValueText(v, k) + "\r") + "\n"
  {
  }

  /** Loading the line save writes for one option, after text that loaded as `t`. */
  lemma LoadSavedLine(s: Settings, x: string, t: Settings, v: Settings, k: Key)
    requires Saveable(v)
    requires LoadsFully(x) && LoadText(s, x) == Loaded(t, true)
    ensures LoadText(s, x + SavedLine(v, k)) == Loaded(Copy(t, v, k), true)
    ensures LoadsFully(x + SavedLine(v, k))
  {
    var value := ValueText(v, k) + "\r";
    var line := SavedLine(v, k);
    SavedValueOneLine(v, k);
    SavedLineShape(v, k);
    assert line == KeyName(k) + "=" + value + "\n" + [];
    LoadAppend(s, x, line);
    KnownKeyLine(t, k, value, []);
    AssignSaved(t, v, k);
    assert (x + line)[|x + line| - 1] == line[|line| - 1];
  }

  /** Taking every option from `v`, in the order save writes them, gives `v`. */
  lemma CopyAll(s: Settings, v: Settings)
    ensures Copy(Copy(Copy(Copy(Copy(Copy(Copy(Copy(Copy(Copy(Copy(Copy(Copy(Copy(Copy(Copy(s, v, IsDebugActive), v, ConnectWifiAP), v, WifiAP), v, WifiPassword), v, Bme280CheckIntervalSec), v, IsDeepSleepEnabled), v, ActiveTimeSec), v, DeepSleepTimeSec), v, IsMqttEnabled), v, MqttName), v, MqttId), v, MqttServer), v, MqttPort), v, MqttUser), v, MqttPassword), v, MqttSendEverySec) == v
  {
  }

  /** The first eight lines save writes load as those eight options. */
  lemma LoadSavedHead(s: Settings, v: Settings)
    requires Saveable(v)
    ensures LoadsFully(SavedLine(v, IsDebugActive) + SavedLine(v, ConnectWifiAP) + SavedLine(v, WifiAP) + SavedLine(v, WifiPassword) + SavedLine(v, Bme280CheckIntervalSec) + SavedLine(v, IsDeepSleepEnabled) + SavedLine(v, ActiveTimeSec) + SavedLine(v, DeepSleepTimeSec))
    ensures LoadText(s, SavedLine(v, IsDebugActive) + SavedLine(v, ConnectWifiAP) + SavedLine(v, WifiAP) + SavedLine(v, WifiPassword) + SavedLine(v, Bme280CheckIntervalSec) + SavedLine(v, IsDeepSleepEnabled) + SavedLine(v, ActiveTimeSec) + SavedLine(v, DeepSleepTimeSec))
         == Loaded(Copy(Copy(Copy(Copy(Copy(Copy(Copy(Copy(s, v, IsDebugActive), v, ConnectWifiAP), v, WifiAP), v, WifiPassword), v, Bme280CheckIntervalSec), v, IsDeepSleepEnabled), v, ActiveTimeSec), v, DeepSleepTimeSec), true)
  {
    LoadSavedLine(s, [], s, v, IsDebugActive);
    assert [] + SavedLine(v, IsDebugActive) == SavedLine(v, IsDebugActive);
    var x := SavedLine(v, IsDebugActive);
    var t := Copy(s, v, IsDebugActive);
    LoadSavedLine(s, x, t, v, ConnectWifiAP);
    x, t := x + SavedLine(v, ConnectWifiAP), Copy(t, v, ConnectWifiAP);
    LoadSavedLine(s, x, t, v, WifiAP);
    x, t := x + SavedLine(v, WifiAP), Copy(t, v, WifiAP);
    LoadSavedLine(s, x, t, v, WifiPassword);
    x, t := x + SavedLine(v, WifiPassword), Copy(t, v, WifiPassword);
    LoadSavedLine(s, x, t, v, Bme280CheckIntervalSec);
    x, t := x + SavedLine(v, Bme280CheckIntervalSec), Copy(t, v, Bme280CheckIntervalSec);
    LoadSavedLine(s, x, t, v, IsDeepSleepEnabled);
    x, t := x + SavedLine(v, IsDeepSleepEnabled), Copy(t, v, IsDeepSleepEnabled);
    LoadSavedLine(s, x, t, v, ActiveTimeSec);
    x, t := x + SavedLine(v, ActiveTimeSec), Copy(t, v, ActiveTimeSec);
    LoadSavedLine(s, x, t, v, DeepSleepTimeSec);
    x, t := x + SavedLine(v, DeepSleepTimeSec), Copy(t, v, DeepSleepTimeSec);
  }

  /**
    * save then load: loading the file save writes succeeds and restores
    * every option, provided no string option holds a line break.
    */
  lemma SaveLoad(s: Settings, v: Settings)
    requires Saveable(v)
    ensures LoadFile(s, Some(SaveText(v))) == Loaded(v, true)
  {
    LoadSavedHead(s, v);
    var x := SavedLine(v, IsDebugActive) + SavedLine(v, ConnectWifiAP) + SavedLine(v, WifiAP) + SavedLine(v, WifiPassword) + SavedLine(v, Bme280CheckIntervalSec) + SavedLine(v, IsDeepSleepEnabled) + SavedLine(v, ActiveTimeSec) + SavedLine(v, DeepSleepTimeSec);
    var t := Copy(Copy(Copy(Copy(Copy(Copy(Copy(Copy(s, v, IsDebugActive), v, ConnectWifiAP), v, WifiAP), v, WifiPassword), v, Bme280CheckIntervalSec), v, IsDeepSleepEnabled), v, ActiveTimeSec), v, DeepSleepTimeSec);
    LoadSavedLine(s, x, t, v, IsMqttEnabled);
    x, t := x + SavedLine(v, IsMqttEnabled), Copy(t, v, IsMqttEnabled);
    LoadSavedLine(s, x, t, v, MqttName);
    x, t := x + SavedLine(v, MqttName), Copy(t, v, MqttName);
    LoadSavedLine(s, x, t, v, MqttId);
    x, t := x + SavedLine(v, MqttId), Copy(t, v, MqttId);
    LoadSavedLine(s, x, t, v, MqttServer);
    x, t := x + SavedLine(v, MqttServer), Copy(t, v, MqttServer);
    LoadSavedLine(s, x, t, v, MqttPort);
    x, t := x + SavedLine(v, MqttPort), Copy(t, v, MqttPort);
    LoadSavedLine(s, x, t, v, MqttUser);
    x, t := x + SavedLine(v, MqttUser), Copy(t, v, MqttUser);
    LoadSavedLine(s, x, t, v, MqttPassword);
    x, t := x + SavedLine(v, MqttPassword), Copy(t, v, MqttPassword);
    LoadSavedLine(s, x, t, v, MqttSendEverySec);
    x, t := x + SavedLine(v, MqttSendEverySec), Copy(t, v, MqttSendEverySec);
    CopyAll(s, v);
  }
}
