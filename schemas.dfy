/**
 * The request/response records of app/models/schemas.py and the exception
 * hierarchy of app/utils/exceptions.py, as plain values. An exception is
 * represented by its class and its `str()` text.
 */
module Schemas {
  import opened Wrappers
  import opened PyStr

  datatype LlmRequest = LlmRequest(text: string, conversationId: Option<string>)

  datatype LlmResponse = LlmResponse(text: string, conversationId: Option<string>)

  datatype TtsRequest = TtsRequest(text: string)

  datatype AudioResponse = AudioResponse(audio: Bytes, format: string)

  /** The default `format` of an AudioResponse. */
  const Mp3 := "mp3"

  datatype Error =
    | LlmServiceError(message: string)
    | TtsServiceError(message: string)
    | InvalidInputError(message: string)
    | WebSocketError(message: string)
      /** Python's AttributeError, raised when a frame is JSON but not an object. */
    | AttributeError(message: string)
}
