/**
 * The submit controller of the chat page (handleSubmit in app/page.tsx):
 * validate the typed message, append the user turn, ask the AI service,
 * append the reply (or the error as a reply), and always clear the loading
 * flag at the end.
 */
module Page {
  import opened Wrappers
  import opened Validation
  import opened AIService
  import opened ChatStorage

  const INVALID_MESSAGE_ERROR := "Invalid message"
  const APOLOGY := "Sorry, an error occurred while processing your request. Please try again."

  /** How the awaited `aiService.generateResponse` call settled. */
  datatype ServiceCall = Returned(response: AIResponse) | Rejected

  /** The page's state at one moment: `(chatHistory, isLoading, error, message)`. */
  datatype Snapshot = Snapshot(history: seq<Entry>, isLoading: bool, error: Option<string>, message: string)

  /** JavaScript truthiness of an optional string: present and non-empty. */
  predicate Truthy(s: Option<string>) {
    s.Some? && s.value != ""
  }

  /** `validation.error || "Invalid message"`: never empty. */
  function ValidationErrorText(validation: ValidationResult): (text: string)
    ensures text != ""
    ensures Truthy(validation.error) ==> text == validation.error.value
    ensures !Truthy(validation.error) ==> text == INVALID_MESSAGE_ERROR
  {
    if Truthy(validation.error) then validation.error.value else INVALID_MESSAGE_ERROR
  }

  /** A rejected message always shows its own validation error; the fallback is never used. */
  lemma RejectedMessageShowsItsError(message: string)
    requires !ValidateMessage(message).isValid
    ensures ValidationErrorText(ValidateMessage(message)) == ValidateMessage(message).error.value
    ensures ValidationErrorText(ValidateMessage(message)) != INVALID_MESSAGE_ERROR
  {
    ReachableMessageErrors(message);
  }

  /**
   * The content of the assistant turn: the response text only when the call
   * succeeded with non-empty content; otherwise the response error, or the
   * apology when there is none (a success with empty content included); the
   * apology also when the call threw.
   */
  function ReplyContent(call: ServiceCall): (content: string)
    ensures content != ""
    ensures call.Returned? && call.response.success && Truthy(call.response.content) ==>
      content == call.response.content.value
    ensures call.Returned? && !(call.response.success && Truthy(call.response.content)) ==>
      content == if Truthy(call.response.error) then call.response.error.value else APOLOGY
    ensures call.Rejected? ==> content == APOLOGY
  {
    match call
    case Rejected => APOLOGY
    case Returned(response) =>
      if response.success && Truthy(response.content) then response.content.value
      else if Truthy(response.error) then response.error.value
      else APOLOGY
  }

  /**
   * The reply that ends up in the transcript for every remote behaviour:
   * the remote text when it is non-empty, the apology for an empty success,
   * and otherwise the service's own error message.
   */
  lemma {:induction false} ReplyForRemote(initialized: bool, outcome: RemoteOutcome)
    ensures ReplyContent(Returned(Response(initialized, outcome))) ==
      if !initialized then NOT_INITIALIZED_ERROR
      else if outcome.Ok? then (if outcome.text != "" then outcome.text else APOLOGY)
      else ErrorMessage(Classify(outcome.thrown))
  {
    if initialized && outcome.Fail? {
      var k := Classify(outcome.thrown);
      assert ErrorMessage(k) != "" by {
        match k
        case InvalidApiKey =>
        case QuotaExceeded =>
        case GenerationFailed =>
      }
    }
  }

  /** A quota failure reported by the remote side becomes the quota message in the transcript. */
  lemma QuotaFailureReply()
    ensures ReplyContent(Returned(Response(true, Fail(Thrown(true, "QUOTA"))))) == QUOTA_ERROR
  {
    assert OccursAt("QUOTA", "QUOTA", 0);
    assert !Contains("QUOTA", "API_KEY");
    ReplyForRemote(true, Fail(Thrown(true, "QUOTA")));
  }

  lemma AppendTwo<T>(s: seq<T>, x: T, y: T)
    ensures s + [x] + [y] == s + [x, y]
  {
  }

  /** The page component's state, with the hook's store and the service it talks to. */
  class Home {
    var message: string
    var isLoading: bool
    var error: Option<string>
    const store: ChatStorage
    const service: AIService

    /** First render: empty input, not loading, no error. */
    constructor (store: ChatStorage, service: AIService)
      ensures this.store == store && this.service == service
      ensures message == "" && !isLoading && error == None
    {
      this.store := store;
      this.service := service;
      message := "";
      isLoading := false;
      error := None;
    }

    function State(): Snapshot
      reads this, store
    {
      Snapshot(store.history, isLoading, error, message)
    }

    /**
     * handleSubmit, with what the remote model does as `remote` and the two
     * clock readings for the turns' timestamps. `sent` lists the texts the
     * service handed to the remote model; `atCall` is the page's state when
     * generateResponse was called.
     */
    method HandleSubmit(remote: RemoteOutcome, userTime: nat, replyTime: nat)
      returns (sent: seq<string>, ghost atCall: Option<Snapshot>)
      modifies this, store
      ensures store.slot == old(store.slot)
      ensures var validation := ValidateMessage(old(message));
        !validation.isValid ==>
          && error == Some(ValidationErrorText(validation))
          && store.history == old(store.history)
          && isLoading == old(isLoading)
          && message == old(message)
          && sent == [] && atCall == None
      ensures var validation := ValidateMessage(old(message));
        var user := Turn(User, old(message), userTime);
        validation.isValid ==>
          && atCall == Some(Snapshot(old(store.history) + [user], true, None, ""))
          && sent == (if service.IsInitialized() then [old(message)] else [])
          && store.history == old(store.history) + [user,
               Turn(Assistant, ReplyContent(Returned(Response(service.IsInitialized(), remote))), replyTime)]
          && error == None && message == "" && !isLoading
    {
      var validation := ValidateMessage(message);
      if !validation.isValid {
        error := Some(ValidationErrorText(validation));
        return [], None;
      }
      sent, atCall := Exchange(message, remote, userTime, replyTime);
    }

    /**
     * The part of handleSubmit after a message passed validation: `text` is
     * the message the submit handler saw, which is what is sent even though
     * the input is cleared first. The loading flag is set for the call and
     * cleared at the end whatever the response was.
     */
    method Exchange(text: string, remote: RemoteOutcome, userTime: nat, replyTime: nat)
      returns (sent: seq<string>, ghost atCall: Option<Snapshot>)
      modifies this, store
      ensures store.slot == old(store.slot)
      ensures atCall == Some(Snapshot(old(store.history) + [Turn(User, text, userTime)], true, None, ""))
      ensures sent == if service.IsInitialized() then [text] else []
      ensures store.history == old(store.history) + [Turn(User, text, userTime),
        Turn(Assistant, ReplyContent(Returned(Response(service.IsInitialized(), remote))), replyTime)]
      ensures error == None && message == "" && !isLoading
    {
      error := None;
      ghost var before := store.history;
      store.AddMessage(User, text, userTime);
      message := "";
      isLoading := true;

      atCall := Some(State());
      var response;
      response, sent := service.GenerateResponse(text, remote);
      var reply := ReplyContent(Returned(response));
      store.AddMessage(Assistant, reply, replyTime);
      isLoading := false;
      AppendTwo(before, Turn(User, text, userTime), Turn(Assistant, reply, replyTime));
    }
  }

  /** A short message that starts with a visible character passes validation. */
  lemma AcceptedGreeting(word: string)
    requires 0 < |word| <= MAX_MESSAGE_LENGTH && !IsWhitespace(word[0])
    ensures ValidateMessage(word).isValid
  {
    TooLongIff(word);
  }

  /**
   * Two successful submissions in a row leave the turns in order: user,
   * assistant, user, assistant.
   */
  method TwoSubmissionsInOrder() returns (transcript: seq<Entry>)
    ensures transcript == [Turn(User, "Hello", 1), Turn(Assistant, "Hi", 2),
                           Turn(User, "Again", 3), Turn(Assistant, "There", 4)]
  {
    var store := new ChatStorage(None);
    var service := new AIService(Some("0123456789"));
    var home := new Home(store, service);
    assert service.IsInitialized();
    VisibleAsciiIsNotWhitespace('H');
    VisibleAsciiIsNotWhitespace('A');
    AcceptedGreeting("Hello");
    AcceptedGreeting("Again");
    ReplyForRemote(true, Ok("Hi"));
    ReplyForRemote(true, Ok("There"));

    home.message := "Hello";
    var _, _ := home.HandleSubmit(Ok("Hi"), 1, 2);
    assert store.history == [Turn(User, "Hello", 1), Turn(Assistant, "Hi", 2)];
    home.message := "Again";
    var _, _ := home.HandleSubmit(Ok("There"), 3, 4);
    assert store.history == [Turn(User, "Hello", 1), Turn(Assistant, "Hi", 2)] +
                            [Turn(User, "Again", 3), Turn(Assistant, "There", 4)];
    transcript := store.history;
  }
}
