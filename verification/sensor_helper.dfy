/** The shared sensor state and the backend's three status cascades
    (backend/src/utils/sensor.helper.ts). */
module SensorHelper {
  import opened Js
  import opened Bands

  /** One reading of the device: lux, degrees Celsius, percent humidity. */
  datatype Reading = Reading(light: real, temp: real, humidity: real)

  const InitialReading := Reading(0.0, 0.0, 0.0)

  /** `lastSensorData`: one object for the whole process. Its binding is never
      reassigned; the sensor route overwrites its fields. */
  class SensorData {
    var light: real
    var temp: real
    var humidity: real

    /** The object starts as all zeros, not as an absent value. */
    constructor ()
      ensures Current() == InitialReading
    {
      light, temp, humidity := 0.0, 0.0, 0.0;
    }

    function Current(): Reading
      reads this
    {
      Reading(light, temp, humidity)
    }

    /** The value a `!lastSensorData` test looks at: an object, so always present. */
    function Latest(): (latest: Option<Reading>)
      reads this
      ensures latest.Some? && latest.value == Current()
    {
      Some(Current())
    }
  }

  // ----- light -----

  const LightCascade :=
    Check(Above(50000.0), "แดดจ้า ☀️",
    Check(Above(10000.0), "กลางแจ้ง มีเมฆ หรือแดดอ่อน 🌤",
    Check(Above(5000.0), "ฟ้าครึ้ม 🌥",
    Check(Above(1000.0), "ห้องที่มีแสงธรรมชาติ 🌈",
    Check(Above(500.0), "ออฟฟิศ หรือร้านค้า 💡",
    Check(Above(100.0), "ห้องนั่งเล่น ไฟบ้าน 🌙",
    Check(Above(10.0), "ไฟสลัว 🌑",
    Otherwise("มืดมากๆ 🕳️"))))))))

  const LightStatuses := Statuses(LightCascade)

  /** `getLightStatus`: always one of the eight light statuses. */
  function GetLightStatus(light: real): (status: string)
    ensures status in LightStatuses
  {
    if light > 50000.0 then "แดดจ้า ☀️"
    else if light > 10000.0 then "กลางแจ้ง มีเมฆ หรือแดดอ่อน 🌤"
    else if light > 5000.0 then "ฟ้าครึ้ม 🌥"
    else if light > 1000.0 then "ห้องที่มีแสงธรรมชาติ 🌈"
    else if light > 500.0 then "ออฟฟิศ หรือร้านค้า 💡"
    else if light > 100.0 then "ห้องนั่งเล่น ไฟบ้าน 🌙"
    else if light > 10.0 then "ไฟสลัว 🌑"
    else "มืดมากๆ 🕳️"
  }

  /** The eight light statuses are all different, so a status names its band. */
  lemma LightStatusesDistinct()
    ensures |LightStatuses| == 8 && Distinct(LightStatuses)
  {
  }

  /** `getLightStatus` is the first-match scan of the light cascade. */
  lemma LightStatusIsScan(light: real)
    ensures GetLightStatus(light) == Classify(LightCascade, light)
  {
    var c2 := LightCascade.rest.rest;
    var c4 := c2.rest.rest;
    var c6 := c4.rest.rest;
    if light > 5000.0 {
      assert Classify(LightCascade, light) ==
        if light > 50000.0 then "แดดจ้า ☀️"
        else if light > 10000.0 then "กลางแจ้ง มีเมฆ หรือแดดอ่อน 🌤"
        else Classify(c2, light);
      assert Classify(c2, light) == "ฟ้าครึ้ม 🌥";
    } else {
      assert Classify(LightCascade, light) == Classify(c2, light);
      assert Classify(c2, light) ==
        if light > 1000.0 then "ห้องที่มีแสงธรรมชาติ 🌈"
        else Classify(c4, light);
      assert Classify(c4, light) ==
        if light > 500.0 then "ออฟฟิศ หรือร้านค้า 💡"
        else if light > 100.0 then "ห้องนั่งเล่น ไฟบ้าน 🌙"
        else Classify(c6, light);
      assert Classify(c6, light) == if light > 10.0 then "ไฟสลัว 🌑" else "มืดมากๆ 🕳️";
    }
  }

  /** Every light band is closed above by a strict `>`: the threshold value
      itself falls in the band below it. */
  lemma LightStatusBoundaries(light: real)
    ensures light > 50000.0 ==> GetLightStatus(light) == "แดดจ้า ☀️"
    ensures light <= 10.0 ==> GetLightStatus(light) == "มืดมากๆ 🕳️"
    ensures GetLightStatus(50000.0) == "กลางแจ้ง มีเมฆ หรือแดดอ่อน 🌤"
    ensures GetLightStatus(1000.0) == "ออฟฟิศ หรือร้านค้า 💡"
    ensures GetLightStatus(10.0) == "มืดมากๆ 🕳️"
  {
  }

  // ----- temperature -----

  const TempCascade :=
    Check(Above(35.0), "อุณหภูมิร้อนมาก ⚠️",
    Check(AtLeast(30.0), "อุณหภูมิร้อน 🔥",
    Check(AtLeast(25.0), "อุณหภูมิอุ่นๆ 🌞",
    Check(AtLeast(20.0), "อุณหภูมิพอดี 🌤",
    Otherwise("อุณหูมิเย็น ❄️")))))

  const TempStatuses := Statuses(TempCascade)

  /** `getTempStatus`: always one of the five temperature statuses. */
  function GetTempStatus(temp: real): (status: string)
    ensures status in TempStatuses
  {
    if temp > 35.0 then "อุณหภูมิร้อนมาก ⚠️"
    else if temp >= 30.0 then "อุณหภูมิร้อน 🔥"
    else if temp >= 25.0 then "อุณหภูมิอุ่นๆ 🌞"
    else if temp >= 20.0 then "อุณหภูมิพอดี 🌤"
    else "อุณหูมิเย็น ❄️"
  }

  lemma TempStatusesDistinct()
    ensures |TempStatuses| == 5 && Distinct(TempStatuses)
  {
  }

  /** `getTempStatus` is the first-match scan of the temperature cascade. */
  lemma TempStatusIsScan(temp: real)
    ensures GetTempStatus(temp) == Classify(TempCascade, temp)
  {
    var c2 := TempCascade.rest.rest;
    assert Classify(TempCascade, temp) ==
      if temp > 35.0 then "อุณหภูมิร้อนมาก ⚠️"
      else if temp >= 30.0 then "อุณหภูมิร้อน 🔥"
      else Classify(c2, temp);
    assert Classify(c2, temp) ==
      if temp >= 25.0 then "อุณหภูมิอุ่นๆ 🌞"
      else if temp >= 20.0 then "อุณหภูมิพอดี 🌤"
      else "อุณหูมิเย็น ❄️";
  }

  /** The top band is closed by a strict `>`, the three below it open with
      `>=`; everything under 20 is cold. */
  lemma TempStatusBoundaries(temp: real)
    ensures GetTempStatus(35.0) == "อุณหภูมิร้อน 🔥"
    ensures GetTempStatus(30.0) == "อุณหภูมิร้อน 🔥"
    ensures GetTempStatus(25.0) == "อุณหภูมิอุ่นๆ 🌞"
    ensures GetTempStatus(20.0) == "อุณหภูมิพอดี 🌤"
    ensures temp > 35.0 ==> GetTempStatus(temp) == "อุณหภูมิร้อนมาก ⚠️"
    ensures temp < 20.0 <==> GetTempStatus(temp) == "อุณหูมิเย็น ❄️"
  {
  }

  // ----- humidity -----

  const HumidityCascade :=
    Check(Above(85.0), "ชื้นมาก อากาศอึดอัด 🌧️",
    Check(Above(70.0), "อากาศชื้น เหนียวตัว 💦",
    Check(Above(60.0), "เริ่มชื้น 🌫️",
    Check(Above(40.0), "อากาศสบาย ✅",
    Check(Above(30.0), "ค่อนข้างแห้ง 💨",
    Check(Above(20.0), "แห้งมาก 🥵",
    Otherwise("อากาศแห้งมาก 🏜️")))))))

  const HumidityStatuses := Statuses(HumidityCascade)

  /** `getHumidityStatus`: always one of the seven humidity statuses. */
  function GetHumidityStatus(humidity: real): (status: string)
    ensures status in HumidityStatuses
  {
    if humidity > 85.0 then "ชื้นมาก อากาศอึดอัด 🌧️"
    else if humidity > 70.0 then "อากาศชื้น เหนียวตัว 💦"
    else if humidity > 60.0 then "เริ่มชื้น 🌫️"
    else if humidity > 40.0 then "อากาศสบาย ✅"
    else if humidity > 30.0 then "ค่อนข้างแห้ง 💨"
    else if humidity > 20.0 then "แห้งมาก 🥵"
    else "อากาศแห้งมาก 🏜️"
  }

  lemma HumidityStatusesDistinct()
    ensures |HumidityStatuses| == 7 && Distinct(HumidityStatuses)
  {
  }

  /** `getHumidityStatus` is the first-match scan of the humidity cascade. */
  lemma HumidityStatusIsScan(humidity: real)
    ensures GetHumidityStatus(humidity) == Classify(HumidityCascade, humidity)
  {
    var c2 := HumidityCascade.rest.rest;
    var c4 := c2.rest.rest;
    if humidity > 60.0 {
      assert Classify(HumidityCascade, humidity) ==
        if humidity > 85.0 then "ชื้นมาก อากาศอึดอัด 🌧️"
        else if humidity > 70.0 then "อากาศชื้น เหนียวตัว 💦"
        else Classify(c2, humidity);
      assert Classify(c2, humidity) == "เริ่มชื้น 🌫️";
    } else {
      assert Classify(HumidityCascade, humidity) == Classify(c2, humidity);
      assert Classify(c2, humidity) ==
        if humidity > 40.0 then "อากาศสบาย ✅"
        else Classify(c4, humidity);
      assert Classify(c4, humidity) ==
        if humidity > 30.0 then "ค่อนข้างแห้ง 💨"
        else if humidity > 20.0 then "แห้งมาก 🥵"
        else "อากาศแห้งมาก 🏜️";
    }
  }

  /** Strict `>` everywhere: 85 is in the second band, 20 and below in the driest. */
  lemma HumidityStatusBoundaries(humidity: real)
    ensures GetHumidityStatus(85.0) == "อากาศชื้น เหนียวตัว 💦"
    ensures humidity <= 20.0 <==> GetHumidityStatus(humidity) == "อากาศแห้งมาก 🏜️"
  {
  }

  // ----- properties of all three -----

  /** Each classifier is monotone: a larger reading never lands in a lower
      band, and the status is the one listed for the band. */
  lemma LightStatusMonotone(a: real, b: real)
    requires a <= b
    ensures Band(LightCascade, a) <= Band(LightCascade, b)
    ensures GetLightStatus(a) == LightStatuses[Depth(LightCascade) - Band(LightCascade, a)]
  {
    BandMonotone(LightCascade, a, b);
    LightStatusIsScan(a);
  }

  lemma TempStatusMonotone(a: real, b: real)
    requires a <= b
    ensures Band(TempCascade, a) <= Band(TempCascade, b)
    ensures GetTempStatus(a) == TempStatuses[Depth(TempCascade) - Band(TempCascade, a)]
  {
    BandMonotone(TempCascade, a, b);
    TempStatusIsScan(a);
  }

  lemma HumidityStatusMonotone(a: real, b: real)
    requires a <= b
    ensures Band(HumidityCascade, a) <= Band(HumidityCascade, b)
    ensures GetHumidityStatus(a) == HumidityStatuses[Depth(HumidityCascade) - Band(HumidityCascade, a)]
  {
    BandMonotone(HumidityCascade, a, b);
    HumidityStatusIsScan(a);
  }

  /** The statuses of each classifier are all different, so two readings get
      the same status exactly when they fall in the same band. */
  lemma LightStatusNamesBand(a: real, b: real)
    ensures GetLightStatus(a) == GetLightStatus(b) <==> Band(LightCascade, a) == Band(LightCascade, b)
  {
    LightStatusesDistinct();
    LightStatusIsScan(a);
    LightStatusIsScan(b);
    StatusNamesBand(LightCascade, a, b);
  }

  lemma TempStatusNamesBand(a: real, b: real)
    ensures GetTempStatus(a) == GetTempStatus(b) <==> Band(TempCascade, a) == Band(TempCascade, b)
  {
    TempStatusesDistinct();
    TempStatusIsScan(a);
    TempStatusIsScan(b);
    StatusNamesBand(TempCascade, a, b);
  }

  lemma HumidityStatusNamesBand(a: real, b: real)
    ensures GetHumidityStatus(a) == GetHumidityStatus(b) <==> Band(HumidityCascade, a) == Band(HumidityCascade, b)
  {
    HumidityStatusesDistinct();
    HumidityStatusIsScan(a);
    HumidityStatusIsScan(b);
    StatusNamesBand(HumidityCascade, a, b);
  }

  /** Before any ingest the store reads as the darkest, coldest and driest band. */
  lemma InitialReadingBands()
    ensures GetLightStatus(InitialReading.light) == "มืดมากๆ 🕳️"
    ensures GetTempStatus(InitialReading.temp) == "อุณหูมิเย็น ❄️"
    ensures GetHumidityStatus(InitialReading.humidity) == "อากาศแห้งมาก 🏜️"
    ensures Band(LightCascade, InitialReading.light) == 0
    ensures Band(TempCascade, InitialReading.temp) == 0
    ensures Band(HumidityCascade, InitialReading.humidity) == 0
  {
  }
}
