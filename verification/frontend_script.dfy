/** The dashboard's reading labels (frontend/script.js, inside `fetchSensorData`):
    a nine-band light cascade, a five-band temperature cascade, a five-band
    humidity cascade and the rain-forecast rule. */
module FrontendScript {
  import opened Bands
  import SensorHelper

  // ----- light -----

  const LightCascade :=
    Check(Above(65535.0), "แสงจ้ามากๆ 🌞",
    Check(Above(20000.0), "แสงจ้า 🌞",
    Check(Above(5000.0), "แสงสว่างมาก ☀️",
    Check(Above(1000.0), "แสงปานกลาง 🌤",
    Check(Above(50.0), "แสงน้อย ⛅",
    Check(Above(20.0), "แสงมืด 🌑",
    Check(Above(10.0), "มืดมาก 🌑",
    Check(Above(5.0), "มืดมากๆ 🌑",
    Otherwise("มืดสนิท")))))))))

  const LightStatuses := Statuses(LightCascade)

  /** The `lightStatus` cascade: always one of the nine light labels. */
  function LightStatus(light: real): (status: string)
    ensures status in LightStatuses
  {
    if light > 65535.0 then "แสงจ้ามากๆ 🌞"
    else if light > 20000.0 then "แสงจ้า 🌞"
    else if light > 5000.0 then "แสงสว่างมาก ☀️"
    else if light > 1000.0 then "แสงปานกลาง 🌤"
    else if light > 50.0 then "แสงน้อย ⛅"
    else if light > 20.0 then "แสงมืด 🌑"
    else if light > 10.0 then "มืดมาก 🌑"
    else if light > 5.0 then "มืดมากๆ 🌑"
    else "มืดสนิท"
  }

  lemma LightStatusesDistinct()
    ensures |LightStatuses| == 9 && Distinct(LightStatuses)
  {
  }

  /** The light labels are the first-match scan of the light cascade. */
  lemma LightStatusIsScan(light: real)
    ensures LightStatus(light) == Classify(LightCascade, light)
  {
    var c2 := LightCascade.rest.rest;
    var c4 := c2.rest.rest;
    var c6 := c4.rest.rest;
    var c8 := c6.rest.rest;
    assert Classify(LightCascade, light) ==
      if light > 65535.0 then "แสงจ้ามากๆ 🌞"
      else if light > 20000.0 then "แสงจ้า 🌞"
      else Classify(c2, light);
    assert Classify(c2, light) ==
      if light > 5000.0 then "แสงสว่างมาก ☀️"
      else if light > 1000.0 then "แสงปานกลาง 🌤"
      else Classify(c4, light);
    assert Classify(c4, light) ==
      if light > 50.0 then "แสงน้อย ⛅"
      else if light > 20.0 then "แสงมืด 🌑"
      else Classify(c6, light);
    assert Classify(c6, light) ==
      if light > 10.0 then "มืดมาก 🌑"
      else if light > 5.0 then "มืดมากๆ 🌑"
      else Classify(c8, light);
  }

  /** Strict `>` everywhere: 65535 is in the second band, 5 and below is
      complete darkness. */
  lemma LightStatusBoundaries(light: real)
    ensures light > 65535.0 ==> LightStatus(light) == "แสงจ้ามากๆ 🌞"
    ensures light <= 5.0 <==> LightStatus(light) == "มืดสนิท"
    ensures LightStatus(65535.0) == "แสงจ้า 🌞"
    ensures LightStatus(5.0) == "มืดสนิท"
  {
  }

  /** A brighter reading never gets a darker label. */
  lemma LightStatusMonotone(a: real, b: real)
    requires a <= b
    ensures Band(LightCascade, a) <= Band(LightCascade, b)
    ensures LightStatus(a) == LightStatuses[Depth(LightCascade) - Band(LightCascade, a)]
  {
    BandMonotone(LightCascade, a, b);
    LightStatusIsScan(a);
  }

  // ----- temperature -----

  const TempCascade :=
    Check(Above(35.0), "อุณหภูมิสูงมาก ⚠️",
    Check(AtLeast(30.0), "อุณหภูมิร้อน 🔥",
    Check(AtLeast(25.0), "อุณหภูมิอุ่นๆ 🌞",
    Check(AtLeast(20.0), "อุณหภูมิพอดี 🌤",
    Otherwise("อุณหูมิเย็น ❄️")))))

  const TempStatuses := Statuses(TempCascade)

  /** The `tempStatus` cascade: always one of the five temperature labels. */
  function TempStatus(temp: real): (status: string)
    ensures status in TempStatuses
  {
    if temp > 35.0 then "อุณหภูมิสูงมาก ⚠️"
    else if temp >= 30.0 then "อุณหภูมิร้อน 🔥"
    else if temp >= 25.0 then "อุณหภูมิอุ่นๆ 🌞"
    else if temp >= 20.0 then "อุณหภูมิพอดี 🌤"
    else "อุณหูมิเย็น ❄️"
  }

  lemma TempStatusesDistinct()
    ensures |TempStatuses| == 5 && Distinct(TempStatuses)
  {
  }

  /** The temperature labels are the first-match scan of the temperature cascade. */
  lemma TempStatusIsScan(temp: real)
    ensures TempStatus(temp) == Classify(TempCascade, temp)
  {
    var c2 := TempCascade.rest.rest;
    assert Classify(TempCascade, temp) ==
      if temp > 35.0 then "อุณหภูมิสูงมาก ⚠️"
      else if temp >= 30.0 then "อุณหภูมิร้อน 🔥"
      else Classify(c2, temp);
    assert Classify(c2, temp) ==
      if temp >= 25.0 then "อุณหภูมิอุ่นๆ 🌞"
      else if temp >= 20.0 then "อุณหภูมิพอดี 🌤"
      else "อุณหูมิเย็น ❄️";
  }

  /** The dashboard and the backend cut the temperature scale at the same
      places (35 strict; 30, 25 and 20 inclusive), so every reading falls in
      the same band in both; only the label of the top band differs. */
  lemma TempAgreesWithBackend(temp: real)
    ensures Band(TempCascade, temp) == Band(SensorHelper.TempCascade, temp)
    ensures temp > 35.0 ==>
      TempStatus(temp) == "อุณหภูมิสูงมาก ⚠️" && SensorHelper.GetTempStatus(temp) == "อุณหภูมิร้อนมาก ⚠️"
    ensures temp <= 35.0 ==> TempStatus(temp) == SensorHelper.GetTempStatus(temp)
  {
    assert Bounds(TempCascade) == Bounds(SensorHelper.TempCascade);
    SameBoundsSameBand(TempCascade, SensorHelper.TempCascade, temp);
  }

  lemma TempStatusMonotone(a: real, b: real)
    requires a <= b
    ensures Band(TempCascade, a) <= Band(TempCascade, b)
    ensures TempStatus(a) == TempStatuses[Depth(TempCascade) - Band(TempCascade, a)]
  {
    BandMonotone(TempCascade, a, b);
    TempStatusIsScan(a);
  }

  // ----- humidity -----

  const HumidityCascade :=
    Check(Above(80.0), "ความชื้นสูงมาก 💦",
    Check(Above(60.0), "ความชื้นสูง 🌧️",
    Check(Above(30.0), "ความชื้นปกติ 🌤️",
    Check(Above(20.0), "ความชื้นต่ำ 🌵",
    Otherwise("อากาศแห้งมาก 🏜️")))))

  const HumidityStatuses := Statuses(HumidityCascade)

  /** The `humidityStatus` cascade: always one of the five humidity labels. */
  function HumidityStatus(humidity: real): (status: string)
    ensures status in HumidityStatuses
  {
    if humidity > 80.0 then "ความชื้นสูงมาก 💦"
    else if humidity > 60.0 then "ความชื้นสูง 🌧️"
    else if humidity > 30.0 then "ความชื้นปกติ 🌤️"
    else if humidity > 20.0 then "ความชื้นต่ำ 🌵"
    else "อากาศแห้งมาก 🏜️"
  }

  lemma HumidityStatusesDistinct()
    ensures |HumidityStatuses| == 5 && Distinct(HumidityStatuses)
  {
  }

  /** The humidity labels are the first-match scan of the humidity cascade. */
  lemma HumidityStatusIsScan(humidity: real)
    ensures HumidityStatus(humidity) == Classify(HumidityCascade, humidity)
  {
    var c2 := HumidityCascade.rest.rest;
    assert Classify(HumidityCascade, humidity) ==
      if humidity > 80.0 then "ความชื้นสูงมาก 💦"
      else if humidity > 60.0 then "ความชื้นสูง 🌧️"
      else Classify(c2, humidity);
    assert Classify(c2, humidity) ==
      if humidity > 30.0 then "ความชื้นปกติ 🌤️"
      else if humidity > 20.0 then "ความชื้นต่ำ 🌵"
      else "อากาศแห้งมาก 🏜️";
  }

  /** Strict `>` everywhere: 80 is in the second band, 20 and below is the
      driest. */
  lemma HumidityStatusBoundaries(humidity: real)
    ensures humidity > 80.0 <==> HumidityStatus(humidity) == "ความชื้นสูงมาก 💦"
    ensures humidity <= 20.0 <==> HumidityStatus(humidity) == "อากาศแห้งมาก 🏜️"
    ensures HumidityStatus(80.0) == "ความชื้นสูง 🌧️"
  {
  }

  lemma HumidityStatusMonotone(a: real, b: real)
    requires a <= b
    ensures Band(HumidityCascade, a) <= Band(HumidityCascade, b)
    ensures HumidityStatus(a) == HumidityStatuses[Depth(HumidityCascade) - Band(HumidityCascade, a)]
  {
    BandMonotone(HumidityCascade, a, b);
    HumidityStatusIsScan(a);
  }

  // ----- rain forecast -----

  const RainLikely := "🌧️ มีโอกาสฝนตก"
  const NoRain := "☀️ ไม่มีแนวโน้มฝนตก"

  /** The `rainForecastStatus` rule: one of two texts. */
  function RainForecast(humidity: real, temp: real): (forecast: string)
    ensures forecast == RainLikely || forecast == NoRain
  {
    if humidity >= 80.0 && temp >= 24.0 && temp <= 32.0 then RainLikely else NoRain
  }

  /** Rain is forecast exactly for humidity of at least 80 and a temperature
      from 24 to 32, both ends included. */
  lemma RainForecastExactly(humidity: real, temp: real)
    ensures RainForecast(humidity, temp) == RainLikely <==> humidity >= 80.0 && 24.0 <= temp <= 32.0
    ensures RainForecast(humidity, temp) == NoRain <==> !(humidity >= 80.0 && 24.0 <= temp <= 32.0)
  {
  }

  /** A rain forecast always comes with one of the two wettest humidity labels
      and a temperature label between "พอดี" and "ร้อน". */
  lemma RainForecastLabels(humidity: real, temp: real)
    requires RainForecast(humidity, temp) == RainLikely
    ensures HumidityStatus(humidity) in {"ความชื้นสูงมาก 💦", "ความชื้นสูง 🌧️"}
    ensures TempStatus(temp) in {"อุณหภูมิพอดี 🌤", "อุณหภูมิอุ่นๆ 🌞", "อุณหภูมิร้อน 🔥"}
  {
  }

  /** More humidity never withdraws a rain forecast. */
  lemma RainForecastMonotoneInHumidity(h1: real, h2: real, temp: real)
    requires h1 <= h2 && RainForecast(h1, temp) == RainLikely
    ensures RainForecast(h2, temp) == RainLikely
  {
  }
}
