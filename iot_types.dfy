/**
  Shapes of the sensor API's data, after src/types/iot.ts.
  An ISO timestamp is abstracted to an integer instant (larger is newer).
 */
module IotTypes {

  /** A sensor record: `_id`, `date` and a payload (`value: number` or `status: boolean`). */
  datatype Record<P> = Record(id: string, date: int, payload: P)

  /** `ValueRecord`: temperatures, humidities, water levels and light intensity. */
  type ValueRecord = Record<real>

  /** `StatusRecord`: the diode (alarm) status. */
  type StatusRecord = Record<bool>

  /** The body of a reply: the envelope carries `data.data.data`, or that path is missing. */
  datatype Payload<T> = Records(items: seq<T>) | MissingRecords

  /** Outcome of one HTTP GET: a delivered body, or a rejected request (network or HTTP error). */
  datatype Reply<T> = Delivered(payload: Payload<T>) | Failed

  /** How a promise settles: with a value, or by throwing. */
  datatype Settled<T> = Fulfilled(value: T) | Rejected
}
