/**
 * The pure parts of the message handlers of index.js: the local limits, the errors a handler can
 * see, the upstream exchange a cache miss performs, and the choice of the reply sent on failure.
 */
module Pipeline {
  import opened Common
  import opened JsStrings

  /** `MAX_FILE_SIZE`: 20 MiB. */
  const MAX_FILE_SIZE: int := 20 * 1024 * 1024
  /** The text handler's limit on `message.length`. */
  const MAX_TEXT_LENGTH: nat := 4000

  /** `fileSize > MAX_FILE_SIZE`; an absent `file_size` is `undefined`, which compares false. */
  predicate VoiceTooLarge(fileSize: Option<int>)
  {
    fileSize.Some? && fileSize.value > MAX_FILE_SIZE
  }

  /** `message.length > 4000`, where `length` counts UTF-16 code units. */
  predicate TextTooLong(message: string)
  {
    Utf16Length(message) > MAX_TEXT_LENGTH
  }

  /** A text of at most 2000 characters is never too long, and one of more than 4000 always is. */
  lemma TextLengthBounds(message: string)
    ensures |message| <= MAX_TEXT_LENGTH / 2 ==> !TextTooLong(message)
    ensures |message| > MAX_TEXT_LENGTH ==> TextTooLong(message)
  {
  }

  /** The errors `processVoiceMessage` and `processTextMessage` throw. */
  datatype Thrown =
    | TooLarge
    | DownloadFailed(status: nat)
    | EmptyTranscription
    | Foreign(message: string)  // anything the transport or the AI service throws

  /** `error.message`. */
  function Message(e: Thrown): string
  {
    match e
    case TooLarge => "Voice message too large"
    case DownloadFailed(status) => "Failed to download voice file: " + Decimal(status)
    case EmptyTranscription => "Empty transcription"
    case Foreign(m) => m
  }

  /** The fixed replies the bot can send instead of an answer. */
  datatype Notice = Wait | VoiceTooLargeNotice | VoiceUnrecognized | VoiceFailed | TextTooLongNotice | TextFailed

  /** The wording of each notice. */
  function NoticeText(n: Notice): string
  {
    match n
    case Wait => "Пожалуйста, подождите немного перед следующим запросом."
    case VoiceTooLargeNotice => "Голосовое сообщение слишком большое. Максимальный размер: 20MB."
    case VoiceUnrecognized => "Не удалось распознать речь в голосовом сообщении."
    case VoiceFailed => "Не удалось обработать голосовое сообщение. Попробуйте позже."
    case TextTooLongNotice => "Сообщение слишком длинное. Максимальная длина: 4000 символов."
    case TextFailed => "Произошла ошибка при обращении к OpenAI. Попробуйте позже."
  }

  /** The voice handler's choice of reply, made by inspecting the error's message text. */
  function VoiceErrorNotice(e: Thrown): Notice
  {
    var m := Message(e);
    if Includes(m, "too large") then VoiceTooLargeNotice
    else if Includes(m, "Empty transcription") then VoiceUnrecognized
    else VoiceFailed
  }

  lemma NotIncludedWithout(s: string, sub: string, c: char)
    requires c in sub && c !in s
    ensures !Includes(s, sub)
  {
    if Includes(s, sub) {
      IncludesChars(s, sub, c);
    }
  }

  /** Each error the voice path throws itself gets its own reply. */
  lemma VoiceNoticeForEachKind(e: Thrown)
    ensures e == TooLarge ==> VoiceErrorNotice(e) == VoiceTooLargeNotice
    ensures e == EmptyTranscription ==> VoiceErrorNotice(e) == VoiceUnrecognized
    ensures e.DownloadFailed? ==> VoiceErrorNotice(e) == VoiceFailed
  {
    var m := Message(e);
    match e
    case TooLarge =>
      assert OccursAt(m, "too large", 14);
    case EmptyTranscription =>
      assert 'g' !in m;
      NotIncludedWithout(m, "too large", 'g');
      assert OccursAt(m, "Empty transcription", 0);
    case DownloadFailed(status) =>
      var digits := Decimal(status);
      assert forall i :: 0 <= i < |m| ==> m[i] != 'g' && m[i] != 'E' by {
        forall i | 0 <= i < |m| ensures m[i] != 'g' && m[i] != 'E' {
          if i >= 31 { assert m[i] == digits[i - 31]; }
        }
      }
      NotIncludedWithout(m, "too large", 'g');
      NotIncludedWithout(m, "Empty transcription", 'E');
    case Foreign(_) =>
  }

  /** Errors from outside are classified by their text: one that mentions "too large" gets the size reply. */
  lemma ForeignErrorClassifiedByText(m: string)
    ensures Includes(m, "too large") ==> VoiceErrorNotice(Foreign(m)) == VoiceTooLargeNotice
    ensures !Includes(m, "too large") && Includes(m, "Empty transcription")
            ==> VoiceErrorNotice(Foreign(m)) == VoiceUnrecognized
    ensures !Includes(m, "too large") && !Includes(m, "Empty transcription")
            ==> VoiceErrorNotice(Foreign(m)) == VoiceFailed
  {
  }

  /** The outcome of a call to the AI service: its text, or the message of what it threw. */
  datatype Outcome = Completed(text: string) | Failed(message: string)

  /** The outcome of `getFileLink` and `fetch`: a response with its status, or the message of what they threw. */
  datatype Download = Fetched(status: nat) | FetchThrew(message: string)

  /** `response.ok`. */
  predicate Ok(d: Download)
  {
    d.Fetched? && 200 <= d.status <= 299
  }

  /** The calls a message makes outside the process. */
  datatype Call = FetchFile(fileId: string) | Transcribe(fileId: string) | Complete(prompt: string)

  /** What the upstream part of a cache miss returns, with the calls it made in order. */
  datatype Exchange = Exchange(result: Result<string, Thrown>, calls: seq<Call>)

  /**
   * The voice path after a cache miss: download, transcription, the blank check, completion; the
   * first failure ends it. Each outcome parameter is used only when its call is made.
   */
  function VoiceExchange(fileId: string, download: Download, transcription: Outcome, completion: Outcome): Exchange
  {
    match download
    case FetchThrew(m) => Exchange(Failure(Foreign(m)), [FetchFile(fileId)])
    case Fetched(status) =>
      if !Ok(download) then Exchange(Failure(DownloadFailed(status)), [FetchFile(fileId)])
      else
        match transcription
        case Failed(m) => Exchange(Failure(Foreign(m)), [FetchFile(fileId), Transcribe(fileId)])
        case Completed(text) =>
          if Trim(text) == [] then Exchange(Failure(EmptyTranscription), [FetchFile(fileId), Transcribe(fileId)])
          else
            var asked := [FetchFile(fileId), Transcribe(fileId), Complete(text)];
            match completion
            case Failed(m) => Exchange(Failure(Foreign(m)), asked)
            case Completed(reply) => Exchange(Success(Trim(reply)), asked)
  }

  /**
   * The calls of the voice path, in order: the download always; the transcription exactly when
   * the download succeeded; the completion, with the transcript as prompt, exactly when the
   * transcript is not blank after trimming.
   */
  lemma VoiceCallsInOrder(fileId: string, download: Download, transcription: Outcome, completion: Outcome)
    ensures var x := VoiceExchange(fileId, download, transcription, completion);
      && 1 <= |x.calls| <= 3 && x.calls[0] == FetchFile(fileId)
      && (|x.calls| >= 2 <==> Ok(download))
      && (|x.calls| >= 2 ==> x.calls[1] == Transcribe(fileId))
      && (|x.calls| == 3 <==> Ok(download) && transcription.Completed? && Trim(transcription.text) != [])
      && (|x.calls| == 3 ==> x.calls[2] == Complete(transcription.text))
  {
  }

  /**
   * The voice path succeeds exactly when all three calls were made and the completion returned,
   * and then answers with the trimmed completion; it never fails with the size error.
   */
  lemma VoiceResultFromLastCall(fileId: string, download: Download, transcription: Outcome, completion: Outcome)
    ensures var x := VoiceExchange(fileId, download, transcription, completion);
      && (x.result.Success? <==> |x.calls| == 3 && completion.Completed?)
      && (x.result.Success? ==> x.result.value == Trim(completion.text))
      && (x.result.Failure? ==> x.result.error != TooLarge)
  {
    var x := VoiceExchange(fileId, download, transcription, completion);
    if !Ok(download) || transcription.Failed? {
      assert |x.calls| < 3 && x.result.Failure?;
    } else if Trim(transcription.text) == [] {
      assert x.result == Failure(EmptyTranscription);
    } else {
      assert |x.calls| == 3;
    }
  }

  /** A blank transcription is never sent on: the completion call is made only for one that has a non-white-space character. */
  lemma CompletionOnlyForSpeech(fileId: string, download: Download, transcription: Outcome, completion: Outcome)
    requires |VoiceExchange(fileId, download, transcription, completion).calls| == 3
    ensures transcription.Completed? && !AllWhiteSpace(transcription.text)
  {
    VoiceCallsInOrder(fileId, download, transcription, completion);
    TrimEmptyIffBlank(transcription.text);
  }

  /** The empty-transcription error arises exactly when the transcript has no non-white-space character. */
  lemma EmptyTranscriptionIffBlank(fileId: string, download: Download, transcription: Outcome, completion: Outcome)
    ensures VoiceExchange(fileId, download, transcription, completion).result == Failure(EmptyTranscription)
            <==> Ok(download) && transcription.Completed? && AllWhiteSpace(transcription.text)
  {
    if transcription.Completed? {
      TrimEmptyIffBlank(transcription.text);
    }
  }

  /** The text path after a cache miss: a single completion call with the raw message. */
  function TextExchange(message: string, completion: Outcome): (x: Exchange)
    ensures x.calls == [Complete(message)]
    ensures x.result.Success? <==> completion.Completed?
    ensures x.result.Success? ==> x.result.value == Trim(completion.text)
  {
    match completion
    case Failed(m) => Exchange(Failure(Foreign(m)), [Complete(message)])
    case Completed(reply) => Exchange(Success(Trim(reply)), [Complete(message)])
  }
}
