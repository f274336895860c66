/**
 * The chat controller around the decoder: the send guard, the request it
 * sends, the attachments list and what ends up in the transcript. The
 * network is a parameter: an `Exchange` says how `fetch` and the reads of
 * the response body turned out.
 */
module Client {
  import opened Wrappers
  import opened JsString
  import opened Records
  import opened Messages
  import opened Decoder

  /** The body of `POST /api/chat`; `None` is an `undefined` image, sent as `null`. */
  datatype ChatRequest = ChatRequest(model: string, prompt: string, images: seq<Option<string>>)

  /** The outcome of the request. */
  datatype Exchange =
    | Rejected(reason: string)
      // `fetch` rejected with this message
    | Answered(ok: bool, statusText: string, chunks: seq<string>, readFailure: Option<string>)
      // a response arrived; if `ok`, `chunks` were read from its body, after
      // which it ended, or a read rejected with `readFailure`

  /** The guard of `handleSend`: a trimmed prompt and a model are both non-empty. */
  predicate CanSend(promptValue: string, model: string) {
    Trim(promptValue) != "" && model != ""
  }

  /** A prompt is refused exactly when it is all white space, or no model is chosen. */
  lemma SendGuard(promptValue: string, model: string)
    ensures CanSend(promptValue, model) <==> !AllSpace(promptValue) && model != ""
  {
    TrimEmpty(promptValue);
  }

  /** The message of the error thrown for a non-2xx status. */
  function StatusMessage(statusText: string): string {
    "Erro na API: " + statusText
  }

  /** The decoder's state after one exchange, from `st`. */
  function Outcome(parse: string -> Json, st: State, ex: Exchange): State {
    match ex
    case Rejected(reason) => Failed(st, reason)
    case Answered(ok, statusText, chunks, readFailure) =>
      if !ok then Failed(st, StatusMessage(statusText))
      else
        var streamed := StepChunks(parse, st, chunks);
        if readFailure.Some? then Failed(streamed, readFailure.value) else streamed
  }

  /** The decoder's final state for one exchange, from the empty placeholder. */
  function Reply(parse: string -> Json, ex: Exchange): State {
    Outcome(parse, Start(""), ex)
  }

  /** The `try` block of `handleSend` after the placeholder exists, with its `catch`. */
  method Converse(session: StreamSession, ex: Exchange)
    modifies session, session.entry
    ensures session.Current() == Outcome(session.parse, old(session.Current()), ex)
  {
    match ex {
      case Rejected(reason) =>
        session.Fail(reason);
      case Answered(ok, statusText, chunks, readFailure) =>
        if !ok {
          session.Fail(StatusMessage(statusText));
        } else {
          session.ReadStream(chunks);
          if readFailure.Some? {
            session.Fail(readFailure.value);
          }
        }
    }
  }

  /**
   * What the model's entry finally shows. A rejected request or a bad status
   * shows `Erro: <message>`; a read failure shows `Erro: <message>` and
   * discards everything streamed before it; a stream that ends shows the
   * concatenated display texts of its parsed lines. The console gets the
   * stream's diagnostics, then the failure if there was one.
   */
  lemma ReplyMeaning(parse: string -> Json, ex: Exchange)
    ensures ex.Rejected? ==>
      Reply(parse, ex).text == "Erro: " + ex.reason && Reply(parse, ex).log == [SendFailed(ex.reason)]
    ensures ex.Answered? && !ex.ok ==>
      Reply(parse, ex).text == "Erro: Erro na API: " + ex.statusText &&
      Reply(parse, ex).log == [SendFailed(StatusMessage(ex.statusText))]
    ensures ex.Answered? && ex.ok && ex.readFailure.Some? ==>
      Reply(parse, ex).text == "Erro: " + ex.readFailure.value &&
      Reply(parse, ex).log == Diagnostics(parse, Lines(ex.chunks)) + [SendFailed(ex.readFailure.value)]
    ensures ex.Answered? && ex.ok && ex.readFailure.None? ==>
      Reply(parse, ex).text == Concat(Fragments(parse, Lines(ex.chunks))) &&
      Reply(parse, ex).log == Diagnostics(parse, Lines(ex.chunks))
  {
    if ex.Answered? && ex.ok {
      DecodeMeaning(parse, "", ex.chunks);
    }
  }

  /** `dataUrl.split(',')[1]`: the payload of a data URL, `None` (undefined) without a comma. */
  function ImagePayload(dataUrl: string): (r: Option<string>)
    ensures r.None? <==> ',' !in dataUrl
    ensures r.Some? ==> ',' !in r.value
  {
    var parts := Split(dataUrl, ",");
    SplitSingle(dataUrl, ",");
    ContainsChar(dataUrl, ',');
    SplitPiecesFree(dataUrl, ",");
    if |parts| >= 2 then
      ContainsChar(parts[1], ',');
      Some(parts[1])
    else None
  }

  /** For a data URL `<header>,<data>` the payload is the data. */
  lemma ImagePayloadOfDataUrl(header: string, data: string)
    requires ',' !in header && ',' !in data
    ensures ImagePayload(header + "," + data) == Some(data)
  {
    SplitAtChar(header, ',', data);
    ContainsChar(data, ',');
    SplitSingle(data, ",");
  }

  /** The page's state that `handleSend` and the file input touch. */
  class ChatClient {
    const parse: string -> Json
    var promptValue: string
    var selectedModel: string
    var uploadedImages: seq<Option<string>>
    var transcript: seq<Message>
    var log: seq<Diagnostic>

    constructor (parse: string -> Json, selectedModel: string)
      ensures this.parse == parse && this.selectedModel == selectedModel
      ensures promptValue == "" && uploadedImages == [] && transcript == [] && log == []
    {
      this.parse := parse;
      this.selectedModel := selectedModel;
      promptValue := "";
      uploadedImages := [];
      transcript := [];
      log := [];
    }

    /**
     * `handleSend`. A refused send changes nothing and sends nothing.
     * Otherwise the trimmed prompt is sent with the model and the pending
     * images, the input is cleared, the prompt is rendered as a user
     * message, and a model message follows whose single span holds the
     * reply. The images are dropped once `fetch` resolves, and kept if it
     * rejects.
     */
    method HandleSend(ex: Exchange) returns (request: Option<ChatRequest>)
      modifies this
      ensures !CanSend(old(promptValue), old(selectedModel)) ==>
        request.None? && promptValue == old(promptValue) && uploadedImages == old(uploadedImages) &&
        transcript == old(transcript) && log == old(log)
      ensures CanSend(old(promptValue), old(selectedModel)) ==>
        var prompt := Trim(old(promptValue));
        request == Some(ChatRequest(selectedModel, prompt, old(uploadedImages))) &&
        promptValue == "" &&
        uploadedImages == (if ex.Rejected? then old(uploadedImages) else []) &&
        transcript == old(transcript) +
          [Message(User, Segments(prompt)), Message(Model, [Segment(Text, Reply(parse, ex).text)])] &&
        log == old(log) + Reply(parse, ex).log
      ensures selectedModel == old(selectedModel)
    {
      var prompt := Trim(promptValue);
      if prompt == "" || selectedModel == "" {
        return None;
      }
      request := Dispatch(prompt, ex);
    }

    /** The part of `handleSend` after the guard, for the trimmed prompt. */
    method Dispatch(prompt: string, ex: Exchange) returns (request: Option<ChatRequest>)
      modifies this
      ensures request == Some(ChatRequest(selectedModel, prompt, old(uploadedImages)))
      ensures promptValue == "" && selectedModel == old(selectedModel)
      ensures uploadedImages == (if ex.Rejected? then old(uploadedImages) else [])
      ensures transcript == old(transcript) +
        [Message(User, Segments(prompt)), Message(Model, [Segment(Text, Reply(parse, ex).text)])]
      ensures log == old(log) + Reply(parse, ex).log
    {
      transcript := transcript + [Message(User, Segments(prompt))];
      promptValue := "";
      // addMessage('', 'model') renders one empty span, the entry the stream writes into
      var reply := new Entry("");
      var session := new StreamSession(reply, parse);
      request := Some(ChatRequest(selectedModel, prompt, uploadedImages));
      if !ex.Rejected? {
        uploadedImages := [];
      }
      Converse(session, ex);
      transcript := transcript + [Message(Model, [Segment(Text, reply.text)])];
      log := log + session.log;
    }

    /** Choosing files: the previews and the pending images are reset. */
    method ClearAttachments()
      modifies this
      ensures uploadedImages == []
      ensures promptValue == old(promptValue) && selectedModel == old(selectedModel)
      ensures transcript == old(transcript) && log == old(log)
    {
      uploadedImages := [];
    }

    /** A file finished loading as a data URL: its payload is queued. */
    method AttachImage(dataUrl: string)
      modifies this
      ensures uploadedImages == old(uploadedImages) + [ImagePayload(dataUrl)]
      ensures promptValue == old(promptValue) && selectedModel == old(selectedModel)
      ensures transcript == old(transcript) && log == old(log)
    {
      uploadedImages := uploadedImages + [ImagePayload(dataUrl)];
    }
  }
}
