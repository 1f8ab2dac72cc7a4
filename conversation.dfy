/** The transcript entries of the chat and, for each of its two paths, what one run of the path
    appends to the transcript and which requests it issues, for every backend outcome. */
module Conversation {
  import opened Recording
  import opened Backend

  /** The `tipo` of a message: 'texto', 'bot', 'transcripcion' or 'voz'. */
  datatype Tipo = Texto | Bot | Transcripcion | Voz

  /** The `contenido` of a message: text, or for a voice message the object URL of the recording,
      modelled as the blob it refers to. */
  datatype Contenido = Text(text: string) | AudioUrl(audio: Blob)

  /** The `id` and `timestamp` of a message. Both come from the clock and a random source, so the
      model takes them as given and assumes nothing about them, uniqueness included. */
  datatype Stamp = Stamp(id: string, timestamp: string)

  datatype Message = Message(stamp: Stamp, tipo: Tipo, contenido: Contenido)

  /** What one run of a path adds: the messages appended and the requests issued, each in order. */
  datatype Turn = Turn(appended: seq<Message>, sent: seq<Request>)

  function Tipos(ms: seq<Message>): (ts: seq<Tipo>)
    ensures |ts| == |ms|
    ensures forall i :: 0 <= i < |ms| ==> ts[i] == ms[i].tipo
  {
    if ms == [] then [] else [ms[0].tipo] + Tipos(ms[1..])
  }

  /** Text path once the send is accepted: the user's message, then validation, then (only if
      validation succeeds) generation on the validated text and the bot's message with what it
      generated. A rejection or a thrown error adds nothing after the user's message. */
  function TextTurn(userText: string, userStamp: Stamp, botStamp: Stamp, srv: Server): (t: Turn)
    ensures 1 <= |t.appended| <= |t.sent| <= 2
    ensures t.appended[0] == Message(userStamp, Texto, Text(userText))
    ensures t.sent[0] == ValidateText(userText)
    ensures Tipos(t.appended) <= [Texto, Bot]
    ensures var v := srv.validateText(userText);
      |t.sent| == 2 <==> v.Ok? && v.body.Accepted?
    ensures |t.sent| == 2 ==> t.sent[1] == GenerateText(srv.validateText(userText).body.data)
    ensures var v := srv.validateText(userText);
      |t.appended| == 2 <==> v.Ok? && v.body.Accepted? && srv.generateText(v.body.data).Ok?
    ensures |t.appended| == 2 ==>
      var prompt := srv.validateText(userText).body.data;
      t.appended[1] == Message(botStamp, Bot, Text(srv.generateText(prompt).body))
  {
    var user := Message(userStamp, Texto, Text(userText));
    match srv.validateText(userText)
    case Ok(Accepted(validated)) =>
      var sent := [ValidateText(userText), GenerateText(validated)];
      (match srv.generateText(validated)
       case Ok(generated) => Turn([user, Message(botStamp, Bot, Text(generated))], sent)
       case Threw => Turn([user], sent))
    case Ok(Rejected(_)) => Turn([user], [ValidateText(userText)])
    case Threw => Turn([user], [ValidateText(userText)])
  }

  /** Voice path for one recorded blob: nothing for an empty blob; otherwise the voice message,
      then audio validation, then (only if it succeeds) the transcription message and generation
      on the simplified text, then (only if that does not throw) the bot's message. */
  function VoiceTurn(audio: Blob, voiceStamp: Stamp, transcriptionStamp: Stamp, botStamp: Stamp,
                     srv: Server): (t: Turn)
    ensures |t.appended| <= 3 && |t.sent| <= 2
    ensures t.appended == [] <==> audio.size == 0
    ensures t.sent == [] <==> audio.size == 0
    ensures t.appended != [] ==>
      t.appended[0] == Message(voiceStamp, Voz, AudioUrl(audio)) &&
      t.sent[0] == ValidateAudio(audio, UploadFilename)
    ensures Tipos(t.appended) <= [Voz, Transcripcion, Bot]
    ensures var v := srv.validateAudio(audio);
      |t.appended| >= 2 <==> audio.size > 0 && v.Ok? && v.body.Accepted?
    ensures |t.appended| >= 2 ==>
      var texts := srv.validateAudio(audio).body.data;
      t.appended[1] == Message(transcriptionStamp, Transcripcion, Text(texts.transcribedText)) &&
      t.sent == [ValidateAudio(audio, UploadFilename), GenerateText(texts.simplifiedText)]
    ensures |t.appended| < 2 ==> |t.sent| == |t.appended|
    ensures var v := srv.validateAudio(audio);
      |t.appended| == 3 <==>
        audio.size > 0 && v.Ok? && v.body.Accepted? && srv.generateText(v.body.data.simplifiedText).Ok?
    ensures |t.appended| == 3 ==>
      var prompt := srv.validateAudio(audio).body.data.simplifiedText;
      t.appended[2] == Message(botStamp, Bot, Text(srv.generateText(prompt).body))
  {
    if audio.size == 0 then
      Turn([], [])
    else
      var voice := Message(voiceStamp, Voz, AudioUrl(audio));
      var upload := ValidateAudio(audio, UploadFilename);
      match srv.validateAudio(audio)
      case Ok(Accepted(texts)) =>
        var transcription := Message(transcriptionStamp, Transcripcion, Text(texts.transcribedText));
        var sent := [upload, GenerateText(texts.simplifiedText)];
        (match srv.generateText(texts.simplifiedText)
         case Ok(generated) => Turn([voice, transcription, Message(botStamp, Bot, Text(generated))], sent)
         case Threw => Turn([voice, transcription], sent))
      case Ok(Rejected(_)) => Turn([voice], [upload])
      case Threw => Turn([voice], [upload])
  }
}
