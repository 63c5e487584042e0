# IoT weather relay: a Dafny model of its decision logic

The system relays readings from an ESP32 weather sensor (light in lux,
temperature in °C, humidity in %) to people in a LINE chat. The device
posts readings to an Express backend, which keeps the latest one in memory.
LINE users who write to the bot get a summary, possibly with an answer from
a local AI model. A browser dashboard labels the same readings. An earlier
compiled backend pushed an alert to a LINE group for every reading instead.

The model covers the parts of this with stated behaviour:

- **Threshold cascades.** Three families turn a number into a Thai status
  label by first-match range checks:
  - the current backend's `getLightStatus` / `getTempStatus` /
    `getHumidityStatus` (8, 5 and 7 bands);
  - the dashboard's 9/5/5-band cascades and its rain-forecast rule;
  - the earlier backend's 3-band high/low/normal gradings.

  `Bands` gives them all one reference definition: a descending first-match
  scan over `>` / `>=` checks, with a band index.
- **The reading store and the device route.** `lastSensorData` is one
  object that starts at `{0, 0, 0}`. It is overwritten field by field when a
  post carries all three values, and left alone otherwise (`SensorData`,
  `PostSensorData`).
- **The LINE webhook.** For each event in array order the handler:
  - skips an event without a user id or reply token;
  - otherwise saves the user;
  - picks one reply template from the message type and the trimmed text,
    asks the AI when that template needs an answer, and replies once to the
    event's token.

  It then answers 200. The user table is a set. The replies sent and the AI
  questions asked are append-only logs in `WebhookHandler`.
- **The earlier backend's `/sensor-data`.** A complete reading is turned
  into a five-line alert and pushed once (`NotifyServer.pushed` is the push
  log). An incomplete one gets a 400 and nothing is pushed.

The model takes these as parameters:

- the AI answer (`askOllama`), as a function of the question and the reading;
- the way a number is written into a template (`${light}`);
- the clock text (`new Date().toLocaleString()`).

Strings are sequences of code points, so label texts are compared exactly,
emoji variation selectors included. `Js` models the JavaScript built-ins the
routes use: `trim` with ECMAScript's white-space set, `includes`, and
multi-line template literals.

Three facts about the code shape the model:

- The store starts as the reading `{0, 0, 0}` and is never absent. Because
  of this, the webhook's "no sensor data yet" reply can never be chosen
  (`NoSensorDataUnreachable`).
- The cascades mix `>` and `>=` comparisons. The temperature cascades open
  three bands with `>=` under a top band closed by `>`. The model keeps each
  comparison as written.
- Replies are not de-duplicated by reply token. The handler keeps no table
  of tokens it has answered, so a batch delivered twice is answered twice;
  only the user save is idempotent.

## Model

| member | source | states |
|---|---|---|
| Bands.Classify | backend/src/utils/sensor.helper.ts:7-34 | a first-match scan always yields one of the cascade's own statuses |
| Bands.Band | backend/src/utils/sensor.helper.ts:7-34 | the band index lies between the catch-all (0) and the top band, and the scan's status is exactly the status listed for that band |
| Bands.BandMonotone | backend/src/utils/sensor.helper.ts:7-34 | for any cascade, a larger reading never falls in a lower band |
| Bands.StatusNamesBand | backend/src/utils/sensor.helper.ts:7-34 | when a cascade's statuses are pairwise different, two readings get the same status if and only if they fall in the same band |
| Bands.SameBoundsSameBand | frontend/script.js:38-43 | two cascades with the same comparisons put every reading in the same band, whatever their labels |
| Js.Trim | backend/src/routes/webhook.route.ts:17 | the trimmed text neither starts nor ends with ECMAScript white space |
| Js.TrimKeepsMiddle | backend/src/routes/webhook.route.ts:17 | trimming keeps one contiguous block of the text and cuts only white space on either side of it |
| Js.TrimIdempotent | backend/src/routes/webhook.route.ts:17 | trimming a trimmed text changes nothing |
| Js.TrimIncluded | backend/src/routes/webhook.route.ts:17 | the trimmed text occurs inside the original |
| Js.IncludesIffOccurs | backend/src/routes/webhook.route.ts:33 | the `includes` scan holds exactly when the substring occurs at some position |
| Js.NotIncludes | backend/src/routes/webhook.route.ts:33 | a text lacking one code point of a word does not include the word |
| Js.JoinLinesIncludes | backend/src/routes/webhook.route.ts:34-37 | every line of a multi-line template occurs in its text |
| SensorHelper.SensorData.constructor | backend/src/utils/sensor.helper.ts:1-5 | the store starts as the reading {0, 0, 0} |
| SensorHelper.SensorData.Latest | backend/src/routes/webhook.route.ts:23 | the value the `!lastSensorData` test looks at is always present and is the current reading |
| SensorHelper.GetLightStatus | backend/src/utils/sensor.helper.ts:7-16 | the light status is always one of the eight light labels |
| SensorHelper.LightStatusesDistinct | backend/src/utils/sensor.helper.ts:7-16 | there are exactly eight light labels and they are pairwise different |
| SensorHelper.LightStatusIsScan | backend/src/utils/sensor.helper.ts:7-16 | `getLightStatus` equals the first-match scan of its cascade on every reading |
| SensorHelper.LightStatusBoundaries | backend/src/utils/sensor.helper.ts:8-15 | above 50000 gives "แดดจ้า ☀️"; at or below 10 gives "มืดมากๆ 🕳️"; 50000 is in the second band and 1000 in "ออฟฟิศ หรือร้านค้า 💡" |
| SensorHelper.GetTempStatus | backend/src/utils/sensor.helper.ts:18-24 | the temperature status is always one of the five temperature labels |
| SensorHelper.TempStatusesDistinct | backend/src/utils/sensor.helper.ts:18-24 | exactly five pairwise different temperature labels |
| SensorHelper.TempStatusIsScan | backend/src/utils/sensor.helper.ts:18-24 | `getTempStatus` equals the scan of a cascade with one `>` check and three `>=` checks |
| SensorHelper.TempStatusBoundaries | backend/src/utils/sensor.helper.ts:19-23 | 35 is "อุณหภูมิร้อน 🔥" because of the strict `>`; 30, 25 and 20 fall in the band they open; below 20 exactly is cold; above 35 is the top label |
| SensorHelper.GetHumidityStatus | backend/src/utils/sensor.helper.ts:26-34 | the humidity status is always one of the seven humidity labels |
| SensorHelper.HumidityStatusesDistinct | backend/src/utils/sensor.helper.ts:26-34 | exactly seven pairwise different humidity labels |
| SensorHelper.HumidityStatusIsScan | backend/src/utils/sensor.helper.ts:26-34 | `getHumidityStatus` equals the first-match scan of its cascade |
| SensorHelper.HumidityStatusBoundaries | backend/src/utils/sensor.helper.ts:27-33 | 85 is "อากาศชื้น เหนียวตัว 💦"; a reading gets "อากาศแห้งมาก 🏜️" exactly when it is at most 20 |
| SensorHelper.LightStatusMonotone | backend/src/utils/sensor.helper.ts:7-16 | a larger light reading never gets a lower band, and the label is the one listed for the band |
| SensorHelper.TempStatusMonotone | backend/src/utils/sensor.helper.ts:18-24 | the same for temperature |
| SensorHelper.HumidityStatusMonotone | backend/src/utils/sensor.helper.ts:26-34 | the same for humidity |
| SensorHelper.LightStatusNamesBand | backend/src/utils/sensor.helper.ts:7-16 | two light readings get the same status if and only if they fall in the same band |
| SensorHelper.TempStatusNamesBand | backend/src/utils/sensor.helper.ts:18-24 | two temperatures get the same status if and only if they fall in the same band |
| SensorHelper.HumidityStatusNamesBand | backend/src/utils/sensor.helper.ts:26-34 | two humidity readings get the same status if and only if they fall in the same band |
| SensorHelper.InitialReadingBands | backend/src/utils/sensor.helper.ts:1-5 | the initial store reads as the darkest, cold and driest bands (band 0 of each cascade) |
| SensorRoute.Ingest | backend/src/routes/sensor.route.ts:8-15 | a post is refused with 400 exactly when a field is missing, and then the reading is unchanged; a complete post stores the three posted values and is acknowledged |
| SensorRoute.IngestForgetsPrevious | backend/src/routes/sensor.route.ts:9-11 | after a complete post the stored reading does not depend on the one before |
| SensorRoute.IngestIdempotent | backend/src/routes/sensor.route.ts:9-11 | posting the same body twice leaves the same reading and answer as posting it once |
| SensorRoute.IngestAllKeepsLastComplete | backend/src/routes/sensor.route.ts:6-15 | after any series of posts the store holds the last complete body's values, or the earlier reading when no post was complete; readings are never merged |
| SensorRoute.PostSensorData | backend/src/routes/sensor.route.ts:6-15 | the handler assigns the three fields in place on a complete body and answers "✅ รับข้อมูลแล้ว"; otherwise it answers 400 "❌ ข้อมูลไม่ครบ" and leaves the store unchanged; its effect is `Ingest` |
| WebhookRoute.MessageText | backend/src/routes/webhook.route.ts:17 | a missing message or text gives ""; otherwise the text is trimmed (no white space at either end) and occurs in what the user sent |
| WebhookRoute.MessageType | backend/src/routes/webhook.route.ts:18 | the message type is missing when the event has no message, and is the message's own `type` otherwise |
| WebhookRoute.Handled | backend/src/routes/webhook.route.ts:15-20 | a processed event has a user id and a reply token; a missing or empty id or token makes the event skipped |
| WebhookRoute.ChooseReply | backend/src/routes/webhook.route.ts:23-64 | the "no data" template is chosen exactly when there is no reading; the AI is consulted exactly for text messages that do not contain "สวัสดี" when a reading exists |
| WebhookRoute.ReplyLines | backend/src/routes/webhook.route.ts:23-63 | the no-data reply is its one line; the summary templates start with the header and the light, temperature and humidity lines; the laundry template has its header and the light line; a template that consults the AI ends with the answer, behind "🤖 AI: " except in the default case |
| WebhookRoute.ReplyCarriesAnswer | backend/src/routes/webhook.route.ts:45-63 | every reply that consults the AI contains the AI's answer |
| WebhookRoute.EventReply | backend/src/routes/webhook.route.ts:17-66 | a processed event's one reply goes to its own reply token, and when the AI is consulted it contains the AI's answer to the event's trimmed text |
| WebhookRoute.HandledEvents | backend/src/routes/webhook.route.ts:14-20 | the processed events are exactly the events with a user id and a reply token, kept in order |
| WebhookRoute.WebhookHandler.constructor | backend/src/routes/webhook.route.ts:8-9 | the handler starts with the given user table and empty reply and AI logs |
| WebhookRoute.WebhookHandler.HandleEvent | backend/src/routes/webhook.route.ts:15-66 | a skipped event changes nothing; a processed one adds its user, logs one AI request when its template needs an answer, and appends its one reply |
| WebhookRoute.WebhookHandler.HandleWebhook | backend/src/routes/webhook.route.ts:11-70 | after all events are processed in array order the status is 200; the user table gains exactly the saved users; the logs gain the batch's replies and AI requests in event order |
| WebhookRoute.GatherFollowsHandled | backend/src/routes/webhook.route.ts:14-67 | when each processed event yields one item and each skipped event none, the k-th item comes from the k-th processed event |
| WebhookRoute.SkippedEventHasNoEffect | backend/src/routes/webhook.route.ts:15-20 | an event missing its user id or reply token saves no user, gets no reply and asks the AI nothing |
| WebhookRoute.HandledEventRepliesOnce | backend/src/routes/webhook.route.ts:20-66 | a processed event saves its user id and gets exactly one reply, to its own reply token |
| WebhookRoute.SavedUsersIdempotent | backend/src/routes/webhook.route.ts:21 | saving the users of a batch again, or of the batch delivered twice, adds nobody |
| WebhookRoute.RepliesFollowHandledEvents | backend/src/routes/webhook.route.ts:14-67 | a batch gets one reply per processed event, and the k-th reply answers the k-th processed event |
| WebhookRoute.NoSensorDataUnreachable | backend/src/routes/webhook.route.ts:23-26 | since the store is an object, the "no sensor data" reply is never chosen |
| WebhookRoute.GreetingGetsSummary | backend/src/routes/webhook.route.ts:33-40 | a non-text message or a text containing "สวัสดี" gets the weather summary and makes no AI request |
| WebhookRoute.WeatherQuestionRouted | backend/src/routes/webhook.route.ts:44-50 | the weather question gets the summary followed by the AI line |
| WebhookRoute.LaundryQuestionRouted | backend/src/routes/webhook.route.ts:51-55 | the laundry question gets the laundry template |
| WebhookRoute.UmbrellaQuestionRouted | backend/src/routes/webhook.route.ts:56-60 | the umbrella question gets the "🤖 AI: " answer |
| WebhookRoute.LightQuestionRouted | backend/src/routes/webhook.route.ts:56-60 | the light question gets the "🤖 AI: " answer |
| WebhookRoute.HumidityQuestionRouted | backend/src/routes/webhook.route.ts:56-60 | the humidity question gets the "🤖 AI: " answer |
| WebhookRoute.NonGreetingAsksAi | backend/src/routes/webhook.route.ts:42-63 | a text message that does not contain "สวัสดี" makes exactly one AI request, with its trimmed text and the current reading |
| WebhookRoute.TaggedAnswerForm | backend/src/routes/webhook.route.ts:56-60 | the umbrella, light and humidity questions are answered with "🤖 AI: " followed by the AI's answer |
| WebhookRoute.BareAnswerForm | backend/src/routes/webhook.route.ts:61-63 | any other non-greeting text is answered with the AI's answer alone |
| WebhookRoute.LaundryReplyShape | backend/src/routes/webhook.route.ts:51-54 | the laundry reply has the light line and the AI line but no temperature or humidity line |
| WebhookRoute.WeatherReplyIncludesAll | backend/src/routes/webhook.route.ts:44-49 | the weather reply contains the light, temperature, humidity and AI lines |
| FrontendScript.LightStatus | frontend/script.js:26-35 | the dashboard's light label is always one of its nine light labels |
| FrontendScript.LightStatusesDistinct | frontend/script.js:26-35 | there are exactly nine pairwise different dashboard light labels |
| FrontendScript.LightStatusIsScan | frontend/script.js:26-35 | the light cascade equals the first-match scan of eight strict checks |
| FrontendScript.LightStatusBoundaries | frontend/script.js:27-35 | above 65535 gives "แสงจ้ามากๆ 🌞"; "มืดสนิท" is given exactly at or below 5; 65535 is in the second band |
| FrontendScript.LightStatusMonotone | frontend/script.js:26-35 | brighter never gets a darker band, and the label is the band's |
| FrontendScript.TempStatus | frontend/script.js:38-43 | the dashboard's temperature label is always one of its five labels |
| FrontendScript.TempStatusesDistinct | frontend/script.js:38-43 | exactly five pairwise different dashboard temperature labels |
| FrontendScript.TempStatusIsScan | frontend/script.js:38-43 | the temperature cascade equals the scan of one `>` and three `>=` checks |
| FrontendScript.TempAgreesWithBackend | frontend/script.js:38-43 | every temperature falls in the same band on the dashboard as in `getTempStatus`; the labels agree except the top one |
| FrontendScript.TempStatusMonotone | frontend/script.js:38-43 | warmer never gets a colder band |
| FrontendScript.HumidityStatus | frontend/script.js:46-51 | the dashboard's humidity label is always one of its five labels |
| FrontendScript.HumidityStatusesDistinct | frontend/script.js:46-51 | exactly five pairwise different dashboard humidity labels |
| FrontendScript.HumidityStatusIsScan | frontend/script.js:46-51 | the humidity cascade equals the first-match scan of four strict checks |
| FrontendScript.HumidityStatusBoundaries | frontend/script.js:47-51 | "ความชื้นสูงมาก 💦" is given exactly above 80 and "อากาศแห้งมาก 🏜️" exactly at or below 20; 80 is "ความชื้นสูง 🌧️" |
| FrontendScript.HumidityStatusMonotone | frontend/script.js:46-51 | more humid never gets a drier band |
| FrontendScript.RainForecast | frontend/script.js:54-59 | the forecast is one of the two forecast texts |
| FrontendScript.RainForecastExactly | frontend/script.js:55-58 | rain is forecast exactly when humidity is at least 80 and the temperature is from 24 to 32 inclusive, and "no rain" exactly otherwise |
| FrontendScript.RainForecastLabels | frontend/script.js:38-59 | a rain forecast comes with one of the two wettest humidity labels and a temperature label from "พอดี" to "ร้อน" |
| FrontendScript.RainForecastMonotoneInHumidity | frontend/script.js:55 | more humidity never withdraws a rain forecast |
| DistIndex.LightStatus | backend/dist/index.js:34-42 | the light grade is one of the three light grades |
| DistIndex.TempStatus | backend/dist/index.js:44-52 | the temperature grade is one of the three temperature grades |
| DistIndex.HumidityStatus | backend/dist/index.js:54-62 | the humidity grade is one of the three humidity grades |
| DistIndex.GradingsAreScans | backend/dist/index.js:34-62 | testing high, then low, then falling back to normal grades exactly like a descending three-band scan |
| DistIndex.NormalBandsClosed | backend/dist/index.js:34-62 | "normal" is given exactly on the closed ranges [1000, 5000] lux, [20, 35] °C and [30, 80] % |
| DistIndex.GradesDistinct | backend/dist/index.js:34-62 | the three grades of each quantity are different texts, so they are mutually exclusive and name the band |
| DistIndex.GradingsMonotone | backend/dist/index.js:34-62 | a larger value never gets a lower grade |
| DistIndex.TempGradeCoarsensBackend | backend/dist/index.js:44-52 | "low" is exactly the current backend's cold band, "high" its top band and "normal" its three middle bands |
| DistIndex.AlertLines | backend/dist/index.js:63-67 | the alert has five lines: the header, then lines holding the date-time and the light, temperature and humidity reports |
| DistIndex.AlertText | backend/dist/index.js:63-67 | the alert message contains each of its five lines |
| DistIndex.AlertReportsReading | backend/dist/index.js:63-67 | the alert contains its header, the date-time, and each raw value followed by its unit and grade |
| DistIndex.NotifyServer.constructor | backend/dist/index.js:19-25 | the server starts with no pushed alerts |
| DistIndex.NotifyServer.SendLineNotification | backend/dist/index.js:27-80 | one alert is pushed, and its text is the alert built from the three values |
| DistIndex.NotifyServer.PostSensorData | backend/dist/index.js:82-91 | a complete body is pushed as exactly one alert and then answered "✅ ข้อมูลถูกส่งไปยังไลน์แล้ว!"; any missing field gets 400 "❌ ข้อมูลไม่ครบถ้วน" and nothing is pushed |

## Left out

- Express routing, server start-up and the compiled module shims (`backend/src/index.ts`, `app.listen`, `__awaiter`). They are framework plumbing.
- The network. The LINE reply and push APIs become the reply and push logs. Failed pushes are caught and only logged in the source, so a push is recorded whether or not it succeeded. The Ollama AI service is a parameter.
- Prisma persistence of users: `saveUserIfNotExists` is an insert into a set.
- WebhookRoute.WebhookHandler.HandleEvent: assumes the user save succeeds. In the source `saveUserIfNotExists` has no `try`/`catch`, so a rejected Prisma call aborts the loop: that event and every later one get no reply.
- WebhookRoute.WebhookHandler.HandleWebhook: assumes the batch is well formed and every user save succeeds, so it always answers 200. In the source a rejected user save, a `req.body.events` that is not iterable, or a message `text` that is not a string throws out of the loop; the remaining events get no reply and no 200 is sent.
- Timers: the auto-report job and the dashboard's polling.
- React UI and DOM writes. `Intl` / `toLocaleString` date formatting is taken as the parameter `now`. `getThaiDateParts` is not part of this model.
- JavaScript number semantics. `Number()` coercion, NaN and floating point are left out; readings are real numbers. How a number prints in a template is a parameter.
- The earlier backend compares and prints the raw body values without `Number()`. The model treats them as numbers.
- `askai.route.ts` is not part of this model: a presence check in front of the AI call.
- WebhookRoute.WebhookHandler.HandleWebhook: other requests that run between the `await`s of one batch are not modelled. Within a batch the reading is the same for every event, whereas in the source a device post that lands between two events would change the reading for the later ones.
