/**
 * Messages and their headers, as the middleware and the routes see them.
 * A message is identified by its type name; its normalised (loggable) form is
 * a flat string-keyed array standing for the normaliser's result, since the
 * normaliser is not part of this model.
 */
module Messages {

  /** A scalar header value. */
  datatype Scalar = Null | Str(s: string) | Int(i: int) | Bool(b: bool)

  /** The headers of one dispatch: keys to scalar values. */
  type Headers = map<string, Scalar>

  /** Header keys read by the logging middleware. */
  const MESSAGE_ID: string := "messageId"
  const MESSAGE_TYPE_NAME: string := "messageTypeName"
  const MESSAGE_TYPE: string := "messageType"
  const CAUSATION_ID: string := "causationId"
  const CORRELATION_ID: string := "correlationId"

  /**
   * A message: its type name (the value of its static getTypeName) and the
   * form the logging middleware's normaliser would produce for it.
   */
  datatype Message = Message(typeName: string, normalized: map<string, Scalar>)

  /**
   * Headers lookup with a default. MessageHeaders is not part of this model:
   * its get is taken to give the header's value when the key is present and
   * the default otherwise.
   */
  function HeaderGet(headers: Headers, key: string, default: Scalar): Scalar
  {
    if key in headers then headers[key] else default
  }

}
