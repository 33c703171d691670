/**
 * The JSON messages the backend sends to its websocket client, as values.
 * Durations are kept as byte counts of 16 kHz int16 audio; the backend
 * reports them divided by `BytesPerSecond`.
 */
module Messages {

  const BytesPerSecond: nat := 32000

  /** `{"type": "status", "status": ...}` with its extra keys. */
  datatype Status =
    | Speaking(bufferBytes: nat)       // "speaking", buffer_duration
    | Transcribing(audioBytes: nat)    // "transcribing", audio_duration
    | Recording                        // "recording"
    | Stopped                          // "stopped"

  datatype Message =
    | StatusMessage(status: Status)
      /** `{"type": "vad", "is_speech", "confidence", "buffer_duration"}` */
    | VadReport(isSpeech: bool, confidence: real, bufferBytes: nat)
      /** `{"type": "transcription", "text", "is_final"}` */
    | Transcription(text: string, isFinal: bool)
}
