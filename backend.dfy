/** The three backend endpoints the chat calls, seen only through what is sent and what comes back.
    The HTTP exchange itself is not modelled: a reply is either the parsed JSON body or an
    exception thrown by `fetch` or by `response.json()`. */
module Backend {
  import opened Recording

  /** The filename the audio upload is labelled with, whatever the blob's own type. */
  const UploadFilename: string := "audio.mp3"

  /** What an awaited call produces: the parsed body, or a thrown error. */
  datatype Reply<T> = Ok(body: T) | Threw

  /** A validation body: `success` truthy with its payload, or falsy with a `message`. */
  datatype Verdict<T> = Accepted(data: T) | Rejected(message: string)

  /** The payload of a successful audio validation. */
  datatype AudioTexts = AudioTexts(transcribedText: string, simplifiedText: string)

  /** One request the component issues, by endpoint and body. */
  datatype Request =
    | ValidateText(text: string)                   // POST validate-process-text, `{ text }`
    | GenerateText(prompt: string)                 // POST generate-text, `{ prompt }`
    | ValidateAudio(audio: Blob, filename: string) // POST validate-process-audio, form field `audio_file`

  /** The backend as the component sees it: what each endpoint answers to a given body.
      `generateText` answers with the body's `generated_text`. */
  datatype Server = Server(
    validateText: string -> Reply<Verdict<string>>,
    generateText: string -> Reply<string>,
    validateAudio: Blob -> Reply<Verdict<AudioTexts>>)
}
