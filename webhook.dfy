/** The value every webhook handler returns to the serverless platform. */
module Webhook {

  /** The `{'statusCode': ..., 'body': ...}` dictionary a handler returns. */
  datatype Envelope = Envelope(statusCode: int, body: string)

  /** The one envelope both handlers return, whatever happened inside them. */
  const FuncResponse: Envelope := Envelope(200, "")
}
