/** The compiled earlier backend (backend/dist/index.js): `POST /sensor-data`
    forwards every complete reading to a LINE group as an alert text built by
    `sendLineNotification`, which grades each value as high, low or normal. */
module DistIndex {
  import opened Js
  import opened Bands
  import SensorHelper
  import SensorRoute

  // ----- the three gradings, in the source's order: high, then low, then normal -----

  const LightHigh := "แสงสูง ☀️"
  const LightLow := "แสงต่ำ 🌑"
  const LightNormal := "แสงปกติ 🌤"

  /** The same grading as a descending scan: above 5000, from 1000 up, below. */
  const LightCascade := Check(Above(5000.0), LightHigh, Check(AtLeast(1000.0), LightNormal, Otherwise(LightLow)))

  /** The `lightStatus` grading. */
  function LightStatus(light: real): (status: string)
    ensures status in Statuses(LightCascade)
  {
    if light > 5000.0 then LightHigh
    else if light < 1000.0 then LightLow
    else LightNormal
  }

  const TempHigh := "อุณหภูมิสูง (อากาศร้อน) 🔥"
  const TempLow := "อุณหภูมิต่ำ ❄️"
  const TempNormal := "อุณหภูมิปกติ 🌡"

  const TempCascade := Check(Above(35.0), TempHigh, Check(AtLeast(20.0), TempNormal, Otherwise(TempLow)))

  /** The `tempStatus` grading. */
  function TempStatus(temp: real): (status: string)
    ensures status in Statuses(TempCascade)
  {
    if temp > 35.0 then TempHigh
    else if temp < 20.0 then TempLow
    else TempNormal
  }

  const HumidityHigh := "ความชื้นสูง อาจมีฝนตก 🌧"
  const HumidityLow := "ความชื้นต่ำ 💨"
  const HumidityNormal := "ความชื้นปกติ 💧"

  const HumidityCascade := Check(Above(80.0), HumidityHigh, Check(AtLeast(30.0), HumidityNormal, Otherwise(HumidityLow)))

  /** The `humidityStatus` grading. */
  function HumidityStatus(humidity: real): (status: string)
    ensures status in Statuses(HumidityCascade)
  {
    if humidity > 80.0 then HumidityHigh
    else if humidity < 30.0 then HumidityLow
    else HumidityNormal
  }

  /** Testing "high", then "low", then falling back to "normal" grades exactly
      like a descending scan, so each grading is a three-band cascade. */
  lemma GradingsAreScans(light: real, temp: real, humidity: real)
    ensures LightStatus(light) == Classify(LightCascade, light)
    ensures TempStatus(temp) == Classify(TempCascade, temp)
    ensures HumidityStatus(humidity) == Classify(HumidityCascade, humidity)
  {
  }

  /** The "normal" band is closed at both ends. */
  lemma NormalBandsClosed(light: real, temp: real, humidity: real)
    ensures LightStatus(light) == LightNormal <==> 1000.0 <= light <= 5000.0
    ensures TempStatus(temp) == TempNormal <==> 20.0 <= temp <= 35.0
    ensures HumidityStatus(humidity) == HumidityNormal <==> 30.0 <= humidity <= 80.0
  {
  }

  /** The three grades of each quantity are different texts, so a grade names
      its band. */
  lemma GradesDistinct()
    ensures Distinct(Statuses(LightCascade))
    ensures Distinct(Statuses(TempCascade))
    ensures Distinct(Statuses(HumidityCascade))
  {
  }

  /** A larger value never gets a lower grade. */
  lemma GradingsMonotone(a: real, b: real)
    requires a <= b
    ensures Band(LightCascade, a) <= Band(LightCascade, b)
    ensures Band(TempCascade, a) <= Band(TempCascade, b)
    ensures Band(HumidityCascade, a) <= Band(HumidityCascade, b)
  {
    BandMonotone(LightCascade, a, b);
    BandMonotone(TempCascade, a, b);
    BandMonotone(HumidityCascade, a, b);
  }

  /** The earlier backend's temperature grades coarsen the current backend's
      five bands: "low" is the cold band, "high" the top band, "normal" the
      three between. */
  lemma TempGradeCoarsensBackend(temp: real)
    ensures TempStatus(temp) == TempLow <==> Band(SensorHelper.TempCascade, temp) == 0
    ensures TempStatus(temp) == TempHigh <==> Band(SensorHelper.TempCascade, temp) == 4
    ensures TempStatus(temp) == TempNormal <==> 1 <= Band(SensorHelper.TempCascade, temp) <= 3
  {
    var c1 := SensorHelper.TempCascade.rest;
    var c3 := c1.rest.rest;
    assert Band(SensorHelper.TempCascade, temp) == if temp > 35.0 then 4 else Band(c1, temp);
    assert Band(c1, temp) == if temp >= 30.0 then 3 else if temp >= 25.0 then 2 else Band(c3, temp);
    assert Band(c3, temp) == if temp >= 20.0 then 1 else 0;
  }

  // ----- the alert text -----

  const AlertHeader := "⚠ แจ้งเตือน! ⚠"

  /** "<value> lux (<grade>)", and likewise for the other two quantities. */
  function LightReport(light: real, show: Show): string
  {
    show(light) + " lux (" + LightStatus(light) + ")"
  }

  function TempReport(temp: real, show: Show): string
  {
    show(temp) + "°C (" + TempStatus(temp) + ")"
  }

  function HumidityReport(humidity: real, show: Show): string
  {
    show(humidity) + "% (" + HumidityStatus(humidity) + ")"
  }

  /** The five lines of the alert; `now` is the local date-time text. The
      header comes first, then one line each for the date-time, light,
      temperature and humidity. */
  function AlertLines(light: real, temp: real, humidity: real, now: string, show: Show): (lines: seq<string>)
    ensures |lines| == 5 && lines[0] == AlertHeader
    ensures Includes(lines[1], now)
    ensures Includes(lines[2], LightReport(light, show))
    ensures Includes(lines[3], TempReport(temp, show))
    ensures Includes(lines[4], HumidityReport(humidity, show))
  {
    IncludesInfix("📅 วันที่: ", now, " น.");
    LabelledIncludes("☀ แสงแดด: ", LightReport(light, show));
    LabelledIncludes("🌡 อุณหภูมิ: ", TempReport(temp, show));
    LabelledIncludes("💧 ความชื้น: ", HumidityReport(humidity, show));
    [ AlertHeader,
      "📅 วันที่: " + now + " น.",
      "☀ แสงแดด: " + LightReport(light, show),
      "🌡 อุณหภูมิ: " + TempReport(temp, show),
      "💧 ความชื้น: " + HumidityReport(humidity, show) ]
  }

  /** The alert message: its lines joined into one multi-line text, each of
      which it contains. */
  function AlertText(light: real, temp: real, humidity: real, now: string, show: Show): (text: string)
    ensures forall k :: 0 <= k < 5 ==> Includes(text, AlertLines(light, temp, humidity, now, show)[k])
  {
    JoinLinesIncludesAll(AlertLines(light, temp, humidity, now, show));
    JoinLines(AlertLines(light, temp, humidity, now, show))
  }

  /** The alert carries its header, the date-time and each value with its unit
      and grade. */
  lemma AlertReportsReading(light: real, temp: real, humidity: real, now: string, show: Show)
    ensures var text := AlertText(light, temp, humidity, now, show);
      && Includes(text, AlertHeader)
      && Includes(text, now)
      && Includes(text, LightReport(light, show))
      && Includes(text, TempReport(temp, show))
      && Includes(text, HumidityReport(humidity, show))
  {
    var lines := AlertLines(light, temp, humidity, now, show);
    var text := AlertText(light, temp, humidity, now, show);
    assert Includes(text, lines[0]);
    IncludesTrans(text, lines[1], now);
    IncludesTrans(text, lines[2], LightReport(light, show));
    IncludesTrans(text, lines[3], TempReport(temp, show));
    IncludesTrans(text, lines[4], HumidityReport(humidity, show));
  }

  // ----- the server -----

  const Forwarded := SensorRoute.Response(200, "✅ ข้อมูลถูกส่งไปยังไลน์แล้ว!")
  const Incomplete := SensorRoute.Response(400, "❌ ข้อมูลไม่ครบถ้วน")

  /** The running server: `pushed` is every alert it has sent to the LINE push
      endpoint, in order. */
  class NotifyServer {
    const show: Show
    var pushed: seq<string>

    constructor (show: Show)
      ensures this.show == show && pushed == []
    {
      this.show := show;
      pushed := [];
    }

    /** `sendLineNotification`: grades the three values, builds the alert and
        pushes it once. A failed push is caught and only logged, so it is
        recorded like any other. */
    method SendLineNotification(light: real, temp: real, humidity: real, now: string)
      modifies this
      ensures pushed == old(pushed) + [AlertText(light, temp, humidity, now, show)]
    {
      var lightStatus := "";
      var tempStatus := "";
      var humidityStatus := "";
      if light > 5000.0 {
        lightStatus := LightHigh;
      } else if light < 1000.0 {
        lightStatus := LightLow;
      } else {
        lightStatus := LightNormal;
      }
      if temp > 35.0 {
        tempStatus := TempHigh;
      } else if temp < 20.0 {
        tempStatus := TempLow;
      } else {
        tempStatus := TempNormal;
      }
      if humidity > 80.0 {
        humidityStatus := HumidityHigh;
      } else if humidity < 30.0 {
        humidityStatus := HumidityLow;
      } else {
        humidityStatus := HumidityNormal;
      }
      var message := JoinLines([
        AlertHeader,
        "📅 วันที่: " + now + " น.",
        "☀ แสงแดด: " + (show(light) + " lux (" + lightStatus + ")"),
        "🌡 อุณหภูมิ: " + (show(temp) + "°C (" + tempStatus + ")"),
        "💧 ความชื้น: " + (show(humidity) + "% (" + humidityStatus + ")")]);
      pushed := pushed + [message];
    }

    /** `POST /sensor-data`: a complete body is forwarded as exactly one alert
        and acknowledged; a body with a missing field gets a 400 and nothing
        is sent. Nothing is stored either way. */
    method PostSensorData(body: SensorRoute.Payload, now: string) returns (res: SensorRoute.Response)
      modifies this
      ensures SensorRoute.Complete(body) ==>
        res == Forwarded &&
        pushed == old(pushed) + [AlertText(body.light.value, body.temp.value, body.humidity.value, now, show)]
      ensures !SensorRoute.Complete(body) ==> res == Incomplete && pushed == old(pushed)
    {
      if body.light.Some? && body.temp.Some? && body.humidity.Some? {
        SendLineNotification(body.light.value, body.temp.value, body.humidity.value, now);
        res := Forwarded;
      } else {
        res := Incomplete;
      }
    }
  }
}
