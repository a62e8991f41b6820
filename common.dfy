/** Optional values and outcomes shared by the other modules. */
module Options {

  /** A value that may be absent: a nullable column, a lookup that can miss. */
  datatype Option<T> = None | Some(value: T)

  /** The outcome of an operation that can fail with an error of type E. */
  datatype Result<T, E> = Ok(value: T) | Err(error: E)
}

/** The sensor readings a client submits for one seed type. */
module Sensors {

  /**
   * One observation: the seed type and the four environmental readings.
   * Temperature is in degrees Celsius; soil humidity, air humidity and the
   * light level are percentages (the light level of a full 14-hour day is 100).
   */
  datatype Reading = Reading(
    seedType: string,
    temperature: real,
    soilHumidity: real,
    airHumidity: real,
    lightLevel: real)
}
