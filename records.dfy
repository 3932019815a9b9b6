/**
 * The rows of the two tables of `tracking.db` and the telemetry payload a
 * landing page posts back. Every column is TEXT; a column a client did not
 * send holds NULL, modelled as `None`.
 */
module Records {
  import opened Wrappers

  /** A row of `links`: `id` is the primary key and always equals `shortCode`. */
  datatype Link = Link(id: string, originalUrl: string, shortCode: string, createdAt: string)

  /**
   * A row of `tracking_data`: `id` is the primary key; `ip` and `timestamp`
   * are stamped by the server, every other column is copied from the client.
   */
  datatype TrackingEvent = TrackingEvent(
    id: string,
    ip: Option<string>,
    userAgent: Option<string>,
    screenResolution: Option<string>,
    language: Option<string>,
    os: Option<string>,
    browser: Option<string>,
    location: Option<string>,
    timestamp: string,
    fingerprint: Option<string>,
    referrer: Option<string>)

  /** The JSON body of `POST /api/track`; each field is `data.get(key)`. */
  datatype Payload = Payload(
    userAgent: Option<string>,
    screenResolution: Option<string>,
    language: Option<string>,
    os: Option<string>,
    browser: Option<string>,
    location: Option<string>,
    fingerprint: Option<string>,
    referrer: Option<string>,
    originalUrl: Option<string>)
}
