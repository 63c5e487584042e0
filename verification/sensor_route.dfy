/** `POST /sensor-data` of the current backend (backend/src/routes/sensor.route.ts):
    the device posts a reading and the handler overwrites `lastSensorData`. */
module SensorRoute {
  import opened Js
  import opened SensorHelper

  /** The JSON body posted by the device; a field it left out is `None`.
      `None` stands for `undefined` only: the presence test is `!== undefined`,
      so a field sent as `null` counts as present and is stored as
      `Number(null)`, which is 0. */
  datatype Payload = Payload(light: Option<real>, temp: Option<real>, humidity: Option<real>)

  /** The HTTP status of the answer and the `message` of its JSON body. */
  datatype Response = Response(status: int, message: string)

  /** The presence check: every field is there (not `undefined`). */
  predicate Complete(body: Payload)
  {
    body.light.Some? && body.temp.Some? && body.humidity.Some?
  }

  const Received := Response(200, "✅ รับข้อมูลแล้ว")
  const Incomplete := Response(400, "❌ ข้อมูลไม่ครบ")

  /** The reading after one post, and the answer to it. */
  datatype Outcome = Outcome(reading: Reading, response: Response)

  /** One post, as a function of the stored reading: a complete body replaces
      all three fields and is acknowledged; any missing field gets a 400 and
      leaves the reading as it was. */
  function Ingest(prev: Reading, body: Payload): (out: Outcome)
    ensures out.response.status == 400 <==> !Complete(body)
    ensures !Complete(body) ==> out == Outcome(prev, Incomplete)
    ensures Complete(body) ==>
      && out.response == Received
      && out.reading.light == body.light.value
      && out.reading.temp == body.temp.value
      && out.reading.humidity == body.humidity.value
  {
    if body.light.Some? && body.temp.Some? && body.humidity.Some? then
      Outcome(Reading(body.light.value, body.temp.value, body.humidity.value), Received)
    else
      Outcome(prev, Incomplete)
  }

  /** An accepted post overwrites every field, so what was stored before does
      not matter. */
  lemma IngestForgetsPrevious(p1: Reading, p2: Reading, body: Payload)
    requires Complete(body)
    ensures Ingest(p1, body) == Ingest(p2, body)
  {
  }

  /** Posting the same body twice leaves the same reading and answer as posting it once. */
  lemma IngestIdempotent(prev: Reading, body: Payload)
    ensures Ingest(Ingest(prev, body).reading, body) == Ingest(prev, body)
  {
  }

  /** The reading after a series of posts, applied in order. */
  function IngestAll(prev: Reading, bodies: seq<Payload>): Reading
  {
    if bodies == [] then prev
    else Ingest(IngestAll(prev, bodies[..|bodies| - 1]), bodies[|bodies| - 1]).reading
  }

  /** The last complete body of a series, if any. */
  function LastComplete(bodies: seq<Payload>): (last: Option<Payload>)
    ensures last.Some? ==> Complete(last.value) && last.value in bodies
  {
    if bodies == [] then None
    else if Complete(bodies[|bodies| - 1]) then Some(bodies[|bodies| - 1])
    else LastComplete(bodies[..|bodies| - 1])
  }

  /** After any series of posts the store holds the last complete body, or the
      earlier reading when none was complete: readings are never merged. */
  lemma {:induction false} IngestAllKeepsLastComplete(prev: Reading, bodies: seq<Payload>)
    ensures LastComplete(bodies).None? ==> IngestAll(prev, bodies) == prev
    ensures LastComplete(bodies).Some? ==>
      var b := LastComplete(bodies).value;
      IngestAll(prev, bodies) == Reading(b.light.value, b.temp.value, b.humidity.value)
  {
    if bodies != [] {
      IngestAllKeepsLastComplete(prev, bodies[..|bodies| - 1]);
    }
  }

  /** The route handler: on a complete body it assigns the three fields of the
      shared object in place and acknowledges; otherwise it answers 400 and
      touches nothing. */
  method PostSensorData(store: SensorData, body: Payload) returns (res: Response)
    modifies store
    ensures Complete(body) ==>
      && res == Received
      && store.light == body.light.value
      && store.temp == body.temp.value
      && store.humidity == body.humidity.value
    ensures !Complete(body) ==> res == Incomplete && unchanged(store)
    ensures Outcome(store.Current(), res) == Ingest(old(store.Current()), body)
  {
    if body.light.Some? && body.temp.Some? && body.humidity.Some? {
      store.light := body.light.value;
      store.temp := body.temp.value;
      store.humidity := body.humidity.value;
      res := Received;
    } else {
      res := Incomplete;
    }
  }
}
