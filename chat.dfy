/** The `Chat` component: its state and its event handlers. Each handler runs as one atomic step
    from its first statement to the end of its `finally` block, with the backend's answers taken
    from a `Server` value and the message stamps passed in. */
module ChatComponent {
  import opened JsText
  import opened Recording
  import opened Backend
  import opened Conversation

  /** The `audioBlob` state: no blob, or a finished recording waiting to be processed. */
  datatype PendingAudio = NoAudio | Pending(blob: Blob)

  /** The send guard shared by the send button and `handleSendText`: the trimmed input must be
      non-empty and no request may be in flight. */
  function AcceptsSend(inputText: string, isLoading: bool): (ok: bool)
    ensures ok <==> !AllWhitespace(inputText) && !isLoading
    ensures ok ==> Trim(inputText) != [] && !IsJsWhitespace(Trim(inputText)[0])
  {
    Trim(inputText) != [] && !isLoading
  }

  class Chat {
    /** The transcript, oldest first. */
    var messages: seq<Message>
    var inputText: string
    var isLoading: bool
    var isRecording: bool
    var mediaRecorder: Recorder?
    var audioBlob: PendingAudio

    /** A recorder is held exactly while recording, and the held recorder keeps only non-empty
        chunks. */
    ghost predicate Valid()
      reads this, mediaRecorder
    {
      (isRecording <==> mediaRecorder != null) &&
      (mediaRecorder != null ==> mediaRecorder.Valid())
    }

    /** The initial state of every `useState` hook. */
    constructor ()
      ensures Valid()
      ensures messages == [] && inputText == [] && !isLoading
      ensures !isRecording && mediaRecorder == null && audioBlob == NoAudio
    {
      messages := [];
      inputText := [];
      isLoading := false;
      isRecording := false;
      mediaRecorder := null;
      audioBlob := NoAudio;
    }

    /** The text area's `onChange`: the input becomes what was typed; nothing else changes. */
    method SetInputText(text: string)
      requires Valid()
      modifies this
      ensures Valid()
      ensures inputText == text
      ensures messages == old(messages) && isLoading == old(isLoading)
      ensures isRecording == old(isRecording) && mediaRecorder == old(mediaRecorder)
      ensures audioBlob == old(audioBlob)
    {
      inputText := text;
    }

    /** `handleSendText`. A blocked send changes nothing. An accepted one clears the input, appends
        the user's trimmed text and whatever the text path adds after it, and always ends with
        `isLoading` released. The recording state is never touched. */
    method HandleSendText(userStamp: Stamp, botStamp: Stamp, srv: Server) returns (sent: seq<Request>)
      requires Valid()
      modifies this
      ensures Valid()
      ensures !AcceptsSend(old(inputText), old(isLoading)) ==> unchanged(this) && sent == []
      ensures AcceptsSend(old(inputText), old(isLoading)) ==>
        var turn := TextTurn(Trim(old(inputText)), userStamp, botStamp, srv);
        messages == old(messages) + turn.appended && sent == turn.sent &&
        inputText == [] && !isLoading
      ensures isRecording == old(isRecording) && mediaRecorder == old(mediaRecorder)
      ensures audioBlob == old(audioBlob)
    {
      var userText := Trim(inputText);
      if userText == [] || isLoading {
        return [];
      }
      ghost var turn := TextTurn(userText, userStamp, botStamp, srv);
      inputText := [];
      isLoading := true;

      var userMessage := Message(userStamp, Texto, Text(userText));
      messages := messages + [userMessage];
      // the state every backend call of this send observes
      assert isLoading && messages == old(messages) + [userMessage];

      sent := [ValidateText(userText)];
      var validation := srv.validateText(userText);
      match validation {
        case Ok(Accepted(validated)) =>
          sent := sent + [GenerateText(validated)];
          var generation := srv.generateText(validated);
          if generation.Ok? {
            var botMessage := Message(botStamp, Bot, Text(generation.body));
            messages := messages + [botMessage];
            assert turn == Turn([userMessage, botMessage], sent);
            assert messages == old(messages) + [userMessage, botMessage];
          } else {
            assert turn == Turn([userMessage], sent);
          }
        case Ok(Rejected(_)) =>
          // alert(`Error: ${message}`)
          assert turn == Turn([userMessage], sent);
        case Threw =>
          // alert of the generic failure
          assert turn == Turn([userMessage], sent);
      }
      // finally
      isLoading := false;
    }

    /** `handleKeyPress`: Enter without Shift sends, unless a request is in flight. */
    method HandleKeyPress(key: string, shiftKey: bool, userStamp: Stamp, botStamp: Stamp, srv: Server)
      returns (sent: seq<Request>)
      requires Valid()
      modifies this
      ensures Valid()
      ensures !(key == "Enter" && !shiftKey && !old(isLoading)) ==> unchanged(this) && sent == []
      ensures key == "Enter" && Trim(old(inputText)) == [] ==> unchanged(this) && sent == []
      ensures key == "Enter" && !shiftKey && AcceptsSend(old(inputText), old(isLoading)) ==>
        var turn := TextTurn(Trim(old(inputText)), userStamp, botStamp, srv);
        messages == old(messages) + turn.appended && sent == turn.sent &&
        inputText == [] && !isLoading
      ensures old(messages) <= messages
      ensures isRecording == old(isRecording) && mediaRecorder == old(mediaRecorder)
      ensures audioBlob == old(audioBlob)
    {
      if key == "Enter" && !shiftKey && !isLoading {
        sent := HandleSendText(userStamp, botStamp, srv);
      } else {
        sent := [];
      }
    }

    /** `handleStartRecording`. Blocked while a request is in flight or a recording runs; when the
        microphone is refused it only alerts. Otherwise a fresh recorder with no chunks is held and
        recording starts. The transcript and the loading flag are never touched. */
    method HandleStartRecording(micGranted: bool) returns (recorder: Recorder?)
      requires Valid()
      modifies this
      ensures Valid()
      ensures old(isLoading) || old(isRecording) || !micGranted ==> unchanged(this) && recorder == null
      ensures !old(isLoading) && !old(isRecording) && micGranted ==>
        recorder != null && fresh(recorder) && recorder.Valid() &&
        recorder.chunks == [] && recorder.recording &&
        mediaRecorder == recorder && isRecording
      ensures messages == old(messages) && isLoading == old(isLoading)
      ensures inputText == old(inputText) && audioBlob == old(audioBlob)
    {
      if isLoading || isRecording {
        return null;
      }
      if !micGranted {
        // getUserMedia rejected: alert about microphone permissions
        return null;
      }
      recorder := new Recorder();
      mediaRecorder := recorder;
      isRecording := true;
    }

    /** `handleStopRecording`: a no-op unless a recorder is held and recording runs; otherwise the
        recorder is stopped, its chunks are kept, and the component lets go of it. */
    method HandleStopRecording()
      requires Valid()
      modifies this, mediaRecorder
      ensures Valid()
      ensures old(mediaRecorder) == null || !old(isRecording) ==> unchanged(this)
      ensures old(mediaRecorder) != null && old(isRecording) ==>
        !isRecording && mediaRecorder == null &&
        !old(mediaRecorder).recording && old(mediaRecorder).chunks == old(mediaRecorder.chunks)
      ensures messages == old(messages) && isLoading == old(isLoading)
      ensures inputText == old(inputText) && audioBlob == old(audioBlob)
    {
      if mediaRecorder == null || !isRecording {
        return;
      }
      mediaRecorder.Stop();
      isRecording := false;
      mediaRecorder := null;
    }

    /** `recorder.onstop`: the kept chunks become the pending blob. */
    method OnRecorderStop(recorder: Recorder)
      requires Valid() && recorder.Valid()
      modifies this
      ensures Valid()
      ensures audioBlob == Pending(BlobOf(recorder.chunks))
      ensures messages == old(messages) && isLoading == old(isLoading) && inputText == old(inputText)
      ensures isRecording == old(isRecording) && mediaRecorder == old(mediaRecorder)
    {
      audioBlob := Pending(BlobOf(recorder.chunks));
    }

    /** `processRecordedAudio`. An empty blob only clears `isLoading`. Otherwise the voice path
        appends its messages; on every path `isLoading` ends false and the recording state and the
        input are untouched. */
    method ProcessRecordedAudio(audio: Blob, voiceStamp: Stamp, transcriptionStamp: Stamp,
                                botStamp: Stamp, srv: Server) returns (sent: seq<Request>)
      requires Valid()
      modifies this
      ensures Valid()
      ensures var turn := VoiceTurn(audio, voiceStamp, transcriptionStamp, botStamp, srv);
        messages == old(messages) + turn.appended && sent == turn.sent
      ensures !isLoading
      ensures inputText == old(inputText) && audioBlob == old(audioBlob)
      ensures isRecording == old(isRecording) && mediaRecorder == old(mediaRecorder)
    {
      if audio.size == 0 {
        isLoading := false;
        return [];
      }
      isLoading := true;

      messages := messages + [Message(voiceStamp, Voz, AudioUrl(audio))];
      assert isLoading && messages == old(messages) + [Message(voiceStamp, Voz, AudioUrl(audio))];

      sent := [ValidateAudio(audio, UploadFilename)];
      var validation := srv.validateAudio(audio);
      match validation {
        case Ok(Accepted(texts)) =>
          messages := messages + [Message(transcriptionStamp, Transcripcion, Text(texts.transcribedText))];
          sent := sent + [GenerateText(texts.simplifiedText)];
          var generation := srv.generateText(texts.simplifiedText);
          if generation.Ok? {
            messages := messages + [Message(botStamp, Bot, Text(generation.body))];
          }
        case Ok(Rejected(_)) =>
          // alert(`Error: ${message}`)
        case Threw =>
          // alert of the generic failure
      }
      // finally
      isLoading := false;
    }

    /** The effect on `[audioBlob, isRecording]`: a pending blob is processed, and then cleared,
        only once recording has stopped; otherwise nothing happens. */
    method RunAudioEffect(voiceStamp: Stamp, transcriptionStamp: Stamp, botStamp: Stamp, srv: Server)
      returns (sent: seq<Request>)
      requires Valid()
      modifies this
      ensures Valid()
      ensures !(old(audioBlob).Pending? && !old(isRecording)) ==> unchanged(this) && sent == []
      ensures old(audioBlob).Pending? && !old(isRecording) ==>
        var turn := VoiceTurn(old(audioBlob).blob, voiceStamp, transcriptionStamp, botStamp, srv);
        messages == old(messages) + turn.appended && sent == turn.sent &&
        audioBlob == NoAudio && !isLoading
      ensures inputText == old(inputText)
      ensures isRecording == old(isRecording) && mediaRecorder == old(mediaRecorder)
    {
      if audioBlob.Pending? && !isRecording {
        sent := ProcessRecordedAudio(audioBlob.blob, voiceStamp, transcriptionStamp, botStamp, srv);
        audioBlob := NoAudio;
      } else {
        sent := [];
      }
    }
  }

  /** One voice message from a fresh component: start recording with the microphone granted, let
      the recorder deliver data events of the given sizes, stop, let the recorder's stop handler
      run, then the effect. The transcript is what the voice path appends for a blob holding every
      delivered byte; when no event carried data it stays empty. */
  method VoiceSession(eventSizes: seq<nat>, voiceStamp: Stamp, transcriptionStamp: Stamp,
                      botStamp: Stamp, srv: Server) returns (transcript: seq<Message>, sent: seq<Request>)
    ensures var audio := Blob(Sum(eventSizes), RecordedType);
      var turn := VoiceTurn(audio, voiceStamp, transcriptionStamp, botStamp, srv);
      transcript == turn.appended && sent == turn.sent
    ensures transcript == [] <==> forall i :: 0 <= i < |eventSizes| ==> eventSizes[i] == 0
  {
    var chat := new Chat();
    var recorder := chat.HandleStartRecording(true);
    recorder.DeliverAll(eventSizes);
    assert [] + Kept(eventSizes) == Kept(eventSizes);
    chat.HandleStopRecording();
    chat.OnRecorderStop(recorder);
    RecordingBlob(eventSizes);
    sent := chat.RunAudioEffect(voiceStamp, transcriptionStamp, botStamp, srv);
    transcript := chat.messages;
  }
}
