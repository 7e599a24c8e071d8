/**
  * The global runtime data (MyData) and the block kept in the RTC retention
  * memory across deep sleep (MyData::RtcData), sealed by a CRC.
  *
  * The crc32 routine itself is not part of this model: it is a parameter of
  * type Crc32, the step crc32(previous, field) that folds one long field into
  * the running checksum.
  */
module Data {

  /** One crc32 step: the running checksum and the field folded into it. */
  type Crc32 = (int, int) -> int

  /** The value of millis(): an unsigned long, so below 2^32. */
  type Millis = m: int | 0 <= m < 0x1_0000_0000

  /**
    * The raw image of RtcData as rtcUserMemoryRead/Write copy it: the fields
    * in declaration order and the checksum last.
    */
  datatype RtcImage = RtcImage(
    activeTimeSumSec: int,
    deepSleepTimeSumSec: int,
    deepSleepStartSec: int,
    lastBme280ReadSec: int,
    lastMqttPublishSec: int,
    mqttConnErrorCount: int,
    mqttSendCount: int,
    mqttSendErrorCount: int,
    deepSleepTimeRestSec: int,
    crcValue: int)

  /** All counters zero, the checksum not yet computed. */
  const ZeroImage := RtcImage(0, 0, 0, 0, 0, 0, 0, 0, 0, 0)

  /**
    * The fields getCRC folds, in its order. mqttConnErrorCount is folded
    * twice, mqttSendErrorCount, deepSleepTimeRestSec and crcValue never.
    */
  function CrcFields(img: RtcImage): seq<int> {
    [img.activeTimeSumSec, img.deepSleepTimeSumSec, img.deepSleepStartSec,
     img.lastBme280ReadSec, img.lastMqttPublishSec, img.mqttConnErrorCount,
     img.mqttSendCount, img.mqttConnErrorCount]
  }

  /** Successive crc32 steps over `xs`, starting from `crc`. */
  function Fold(crc32: Crc32, crc: int, xs: seq<int>): int
    decreases |xs|
  {
    if xs == [] then crc else Fold(crc32, crc32(crc, xs[0]), xs[1..])
  }

  /** The checksum getCRC computes over an image. */
  function CrcOf(crc32: Crc32, img: RtcImage): int {
    Fold(crc32, 0, CrcFields(img))
  }

  /** isValid on an image: the stored checksum matches a fresh one. */
  predicate Sealed(crc32: Crc32, img: RtcImage) {
    CrcOf(crc32, img) == img.crcValue
  }

  /** setCRC on an image. */
  function Seal(crc32: Crc32, img: RtcImage): (r: RtcImage)
    ensures Sealed(crc32, r)
    ensures r.(crcValue := img.crcValue) == img
  {
    img.(crcValue := CrcOf(crc32, img))
  }

  /** getActiveTimeSec: whole seconds since this boot, millis()/1000. */
  function ActiveTimeSec(millis: Millis): (sec: nat)
    ensures sec * 1000 <= millis < sec * 1000 + 1000
  {
    millis / 1000
  }

  class RtcData {
    var activeTimeSumSec: int
    var deepSleepTimeSumSec: int
    var deepSleepStartSec: int
    var lastBme280ReadSec: int
    var lastMqttPublishSec: int
    var mqttConnErrorCount: int
    var mqttSendCount: int
    var mqttSendErrorCount: int
    /** The part of an oversized sleep still to be slept; not covered by the checksum. */
    var deepSleepTimeRestSec: int
    var crcValue: int

    function Image(): RtcImage
      reads this
    {
      RtcImage(activeTimeSumSec, deepSleepTimeSumSec, deepSleepStartSec,
               lastBme280ReadSec, lastMqttPublishSec, mqttConnErrorCount,
               mqttSendCount, mqttSendErrorCount, deepSleepTimeRestSec, crcValue)
    }

    /** All counters zero and a checksum that matches them. */
    constructor (crc32: Crc32)
      ensures Image() == Seal(crc32, ZeroImage)
      ensures IsValid(crc32)
    {
      activeTimeSumSec, deepSleepTimeSumSec, deepSleepStartSec := 0, 0, 0;
      lastBme280ReadSec, lastMqttPublishSec := 0, 0;
      mqttConnErrorCount, mqttSendCount, mqttSendErrorCount := 0, 0, 0;
      deepSleepTimeRestSec := 0;
      crcValue := 0;
      new;
      var crc := GetCrc(crc32);
      crcValue := crc;
    }

    /** isValid: the stored checksum is the one getCRC computes from the fields. */
    function IsValid(crc32: Crc32): (valid: bool)
      reads this
      ensures valid <==> crcValue == Fold(crc32, 0, CrcFields(Image()))
    {
      Sealed(crc32, Image())
    }

    /** getCRC: eight crc32 steps from 0 in the fixed field order. */
    method GetCrc(crc32: Crc32) returns (crc: int)
      ensures crc == CrcOf(crc32, Image())
    {
      crc := 0;
      crc := crc32(crc, activeTimeSumSec);
      crc := crc32(crc, deepSleepTimeSumSec);
      crc := crc32(crc, deepSleepStartSec);
      crc := crc32(crc, lastBme280ReadSec);
      crc := crc32(crc, lastMqttPublishSec);
      crc := crc32(crc, mqttConnErrorCount);
      crc := crc32(crc, mqttSendCount);
      crc := crc32(crc, mqttConnErrorCount);
      FoldSteps(crc32, Image());
    }

    /** setCRC: store a checksum that matches the current fields. */
    method SetCrc(crc32: Crc32)
      modifies this
      ensures Image() == Seal(crc32, old(Image()))
      ensures IsValid(crc32)
    {
      var crc := GetCrc(crc32);
      crcValue := crc;
    }

    /** The record copied as a whole (rtcUserMemoryRead, operator=). */
    method Assign(img: RtcImage)
      modifies this
      ensures Image() == img
    {
      activeTimeSumSec, deepSleepTimeSumSec := img.activeTimeSumSec, img.deepSleepTimeSumSec;
      deepSleepStartSec, lastBme280ReadSec := img.deepSleepStartSec, img.lastBme280ReadSec;
      lastMqttPublishSec, mqttConnErrorCount := img.lastMqttPublishSec, img.mqttConnErrorCount;
      mqttSendCount, mqttSendErrorCount := img.mqttSendCount, img.mqttSendErrorCount;
      deepSleepTimeRestSec, crcValue := img.deepSleepTimeRestSec, img.crcValue;
    }
  }

  /** The eight straight-line steps of getCRC are the fold over CrcFields. */
  lemma FoldSteps(crc32: Crc32, img: RtcImage)
    ensures CrcOf(crc32, img) ==
      var c1 := crc32(0, img.activeTimeSumSec);
      var c2 := crc32(c1, img.deepSleepTimeSumSec);
      var c3 := crc32(c2, img.deepSleepStartSec);
      var c4 := crc32(c3, img.lastBme280ReadSec);
      var c5 := crc32(c4, img.lastMqttPublishSec);
      var c6 := crc32(c5, img.mqttConnErrorCount);
      var c7 := crc32(c6, img.mqttSendCount);
      crc32(c7, img.mqttConnErrorCount)
  {
    var xs := CrcFields(img);
    var c1 := crc32(0, img.activeTimeSumSec);
    var c2 := crc32(c1, img.deepSleepTimeSumSec);
    var c3 := crc32(c2, img.deepSleepStartSec);
    var c4 := crc32(c3, img.lastBme280ReadSec);
    var c5 := crc32(c4, img.lastMqttPublishSec);
    var c6 := crc32(c5, img.mqttConnErrorCount);
    var c7 := crc32(c6, img.mqttSendCount);
    assert Fold(crc32, 0, xs) == Fold(crc32, c1, xs[1..]);
    assert Fold(crc32, c1, xs[1..]) == Fold(crc32, c2, xs[2..]) by { assert xs[1..][1..] == xs[2..]; }
    assert Fold(crc32, c2, xs[2..]) == Fold(crc32, c3, xs[3..]) by { assert xs[2..][1..] == xs[3..]; }
    assert Fold(crc32, c3, xs[3..]) == Fold(crc32, c4, xs[4..]) by { assert xs[3..][1..] == xs[4..]; }
    assert Fold(crc32, c4, xs[4..]) == Fold(crc32, c5, xs[5..]) by { assert xs[4..][1..] == xs[5..]; }
    assert Fold(crc32, c5, xs[5..]) == Fold(crc32, c6, xs[6..]) by { assert xs[5..][1..] == xs[6..]; }
    assert Fold(crc32, c6, xs[6..]) == Fold(crc32, c7, xs[7..]) by { assert xs[6..][1..] == xs[7..]; }
    assert Fold(crc32, c7, xs[7..]) == Fold(crc32, crc32(c7, img.mqttConnErrorCount), []) by { assert xs[7..][1..] == []; }
  }

  class MyData {
    const rtcData: RtcData
    /** Seconds until the next deep sleep as last computed; -1 when deep sleep is off. */
    var secondsToDeepSleep: int
    var awakeTimeOffsetSec: int

    constructor (crc32: Crc32)
      ensures fresh(rtcData)
      ensures rtcData.Image() == Seal(crc32, ZeroImage)
      ensures secondsToDeepSleep == -1 && awakeTimeOffsetSec == 0
    {
      rtcData := new RtcData(crc32);
      secondsToDeepSleep := -1;
      awakeTimeOffsetSec := 0;
    }

    /**
      * getActiveTimeSumSec: the active time of earlier wake cycles plus this
      * one, counted in whole seconds of millis().
      */
    function ActiveTimeSumSec(millis: Millis): (sum: int)
      reads this, rtcData
      ensures var own := sum - rtcData.activeTimeSumSec; 0 <= own && own * 1000 <= millis < own * 1000 + 1000
    {
      rtcData.activeTimeSumSec + ActiveTimeSec(millis)
    }

    /** getDeepSleepTimeSumSec. */
    function DeepSleepTimeSumSec(): int
      reads this, rtcData
    {
      rtcData.deepSleepTimeSumSec
    }
  }

  /**
    * Changing only mqttSendErrorCount or the sleep remainder leaves the
    * checksum as it was, so a sealed record stays sealed.
    */
  lemma UncoveredFieldsKeepSeal(crc32: Crc32, img: RtcImage, sendErrors: int, rest: int)
    ensures var changed := img.(mqttSendErrorCount := sendErrors, deepSleepTimeRestSec := rest);
      CrcOf(crc32, changed) == CrcOf(crc32, img) && (Sealed(crc32, changed) <==> Sealed(crc32, img))
  {
  }

  /** setCRC twice stores what setCRC once stores: getCRC does not read crcValue. */
  lemma SealIdempotent(crc32: Crc32, img: RtcImage)
    ensures Seal(crc32, Seal(crc32, img)) == Seal(crc32, img)
  {
  }

  /** Across one wake cycle the active-time sum only grows. */
  lemma ActiveTimeSumMonotone(d: MyData, earlier: Millis, later: Millis)
    requires earlier <= later
    ensures d.ActiveTimeSumSec(earlier) <= d.ActiveTimeSumSec(later)
  {
  }
}
