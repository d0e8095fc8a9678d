/**
 * The one request/response exchange with the chat-completions service that
 * both the screen analysis and the daily summary perform. The HTTP transport
 * and the JSON decoding are outside the model: what the exchange returned is
 * an input, in the three shapes the callers tell apart.
 */
module ChatApi {

  /** What the body of a success response yielded for `choices[0].message.content`. */
  datatype Payload =
    | Unparsable(cause: string)   // the body was not JSON
    | ContentMissing              // the JSON had no string at that path
    | Content(text: string)

  datatype Reply =
    | SendFailed(cause: string)                // `send()` failed
    | Rejected(status: string, body: string)   // a non-success status, as displayed, and the body text
    | Accepted(payload: Payload)               // a success status

  const ChatCompletionsPath := "/chat/completions"
  const BearerPrefix := "Bearer "

  function SendFailedMessage(cause: string): string {
    "API request failed: " + cause
  }

  function ApiErrorMessage(status: string, body: string): string {
    "API error (" + status + "): " + body
  }

  function UnparsableMessage(cause: string): string {
    "Failed to parse response: " + cause
  }

  const NoContentMessage := "No content in response"
}
