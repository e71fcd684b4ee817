/**
 * The response client (app/services/aiService.ts): an AIService object that
 * is initialised from the configured API key and turns one remote generation
 * call, batch or streaming, into uniform result records.
 *
 * The generative-language SDK is not modelled: what the remote side does is
 * an input. A batch call either returns text or throws; a streaming call
 * delivers some chunks and then either completes or throws.
 */
module AIService {
  import opened Wrappers
  import opened Validation

  const MODEL_NAME := "gemini-pro"

  const NOT_INITIALIZED_ERROR :=
    "AI service not initialized. Please check your API key configuration."
  const INVALID_KEY_ERROR := "Invalid API key. Please check your configuration."
  const QUOTA_ERROR := "API quota exceeded. Please try again later."
  const GENERIC_ERROR := "Failed to generate response. Please try again."

  /** A thrown value: whether it is an `Error` instance, and its `message`. */
  datatype Thrown = Thrown(isError: bool, message: string)

  /** What the remote batch call does: resolve with the response text, or throw. */
  datatype RemoteOutcome = Ok(text: string) | Fail(thrown: Thrown)

  /** How a remote stream ends after its chunks have been delivered. */
  datatype StreamEnd = Completed | Failed(thrown: Thrown)

  /** What the remote streaming call does: the chunk texts in arrival order, then the end. */
  datatype StreamOutcome = StreamOutcome(chunks: seq<string>, end: StreamEnd)

  /** The SDK client built from a key, and the model handle obtained from it. */
  datatype Client = Client(apiKey: string)
  datatype GenerativeModel = GenerativeModel(client: Client, name: string)

  /** `AIResponse`: `{success, content?, error?}` */
  datatype AIResponse = AIResponse(success: bool, content: Option<string>, error: Option<string>)

  /** `StreamingResponse`: `{success, content?, error?, isComplete?}` */
  datatype StreamingResponse =
    StreamingResponse(success: bool, content: Option<string>, error: Option<string>, isComplete: Option<bool>)

  /** The failure categories, in the order they are tested. */
  datatype ErrorKind = InvalidApiKey | QuotaExceeded | GenerationFailed

  /** `sub` occurs in `s` starting at index `i`. */
  ghost predicate OccursAt(s: string, sub: string, i: int) {
    0 <= i && i + |sub| <= |s| && s[i..i + |sub|] == sub
  }

  ghost predicate Contains(s: string, sub: string) {
    exists i :: OccursAt(s, sub, i)
  }

  /** `s.includes(sub)`: a left-to-right search for `sub`. */
  function Includes(s: string, sub: string): (b: bool)
    ensures b <==> Contains(s, sub)
    decreases |s|
  {
    if |sub| > |s| then
      false
    else if s[..|sub|] == sub then
      assert OccursAt(s, sub, 0);
      true
    else
      var b := Includes(s[1..], sub);
      assert b ==> exists i :: OccursAt(s[1..], sub, i) && OccursAt(s, sub, i + 1);
      assert (exists i :: OccursAt(s, sub, i)) ==> exists i :: OccursAt(s, sub, i) && i >= 1 && OccursAt(s[1..], sub, i - 1);
      b
  }

  /**
   * The error classification of both catch blocks: a key error wins over a
   * quota error, and anything that is not an `Error` instance is generic.
   */
  function Classify(t: Thrown): (k: ErrorKind)
    ensures k == InvalidApiKey <==> t.isError && Contains(t.message, "API_KEY")
    ensures k == QuotaExceeded <==>
      t.isError && !Contains(t.message, "API_KEY") && Contains(t.message, "QUOTA")
  {
    if t.isError && Includes(t.message, "API_KEY") then InvalidApiKey
    else if t.isError && Includes(t.message, "QUOTA") then QuotaExceeded
    else GenerationFailed
  }

  function ErrorMessage(k: ErrorKind): string {
    match k
    case InvalidApiKey => INVALID_KEY_ERROR
    case QuotaExceeded => QUOTA_ERROR
    case GenerationFailed => GENERIC_ERROR
  }

  /** Either shape the uniform result may take: success with content, or failure with an error. */
  predicate WellFormed(r: AIResponse) {
    if r.success then r.content.Some? && r.error.None? else r.content.None? && r.error.Some?
  }

  /**
   * The result of generateResponse for a service that is (or is not)
   * initialised, given what the remote call does. Every remote failure is
   * caught and classified; no exception reaches the caller.
   */
  function Response(initialized: bool, outcome: RemoteOutcome): (r: AIResponse)
    ensures WellFormed(r)
    ensures r.success <==> initialized && outcome.Ok?
    ensures !initialized ==> r.error == Some(NOT_INITIALIZED_ERROR)
    ensures initialized && outcome.Ok? ==> r.content == Some(outcome.text)
    ensures initialized && outcome.Fail? ==> r.error == Some(ErrorMessage(Classify(outcome.thrown)))
  {
    if !initialized then
      AIResponse(false, None, Some(NOT_INITIALIZED_ERROR))
    else
      match outcome
      case Ok(text) => AIResponse(true, Some(text), None)
      case Fail(t) => AIResponse(false, None, Some(ErrorMessage(Classify(t))))
  }

  /** An `Error` whose message mentions both API_KEY and QUOTA is reported as a key error. */
  lemma {:induction false} KeyErrorWinsOverQuota(message: string)
    requires exists i :: OccursAt(message, "API_KEY", i)
    ensures Response(true, Fail(Thrown(true, message))).error == Some(INVALID_KEY_ERROR)
  {
  }

  /** A thrown value that is not an `Error` instance gets the generic message, whatever it says. */
  lemma NonErrorIsGeneric(message: string)
    ensures Response(true, Fail(Thrown(false, message))).error == Some(GENERIC_ERROR)
  {
  }

  // ---- streaming ----

  /** All chunk texts joined in order: the running `fullText` after those chunks. */
  function Concat(chunks: seq<string>): string {
    if chunks == [] then "" else Concat(chunks[..|chunks| - 1]) + chunks[|chunks| - 1]
  }

  lemma {:induction false} ConcatAppend(a: seq<string>, b: seq<string>)
    ensures Concat(a + b) == Concat(a) + Concat(b)
    decreases |b|
  {
    if b == [] {
      assert a + b == a;
    } else {
      var b' := b[..|b| - 1];
      assert (a + b)[..|a + b| - 1] == a + b';
      ConcatAppend(a, b');
    }
  }

  /** Chunk `i` sits in the final text right after the text of the chunks before it. */
  lemma ChunkInFinalText(chunks: seq<string>, i: nat)
    requires i < |chunks|
    ensures Concat(chunks) == Concat(chunks[..i]) + chunks[i] + Concat(chunks[i + 1..])
    ensures |Concat(chunks[..i])| + |chunks[i]| <= |Concat(chunks)|
  {
    assert chunks == chunks[..i] + [chunks[i]] + chunks[i + 1..];
    ConcatAppend(chunks[..i] + [chunks[i]], chunks[i + 1..]);
    ConcatAppend(chunks[..i], [chunks[i]]);
    assert Concat([chunks[i]]) == chunks[i] by {
      assert [chunks[i]][..0] == [];
    }
  }

  function Partial(chunkText: string): StreamingResponse {
    StreamingResponse(true, Some(chunkText), None, Some(false))
  }

  function Final(fullText: string): StreamingResponse {
    StreamingResponse(true, Some(fullText), None, Some(true))
  }

  /** One intermediate result per chunk, in order. */
  function Partials(chunks: seq<string>): (rs: seq<StreamingResponse>) {
    seq(|chunks|, i requires 0 <= i < |chunks| => Partial(chunks[i]))
  }

  /**
   * The catch block of the stream: an `Error` yields one classified result,
   * anything else yields nothing.
   */
  function StreamFailure(t: Thrown): (r: seq<StreamingResponse>)
    ensures |r| <= 1
    ensures t.isError <==> |r| == 1
  {
    if t.isError then [StreamingResponse(false, None, Some(ErrorMessage(Classify(t))), None)] else []
  }

  /** Everything generateStreamingResponse yields, in order. */
  function StreamResults(initialized: bool, stream: StreamOutcome): seq<StreamingResponse> {
    if !initialized then
      [StreamingResponse(false, None, Some(NOT_INITIALIZED_ERROR), None)]
    else
      Partials(stream.chunks) +
      match stream.end
      case Completed => [Final(Concat(stream.chunks))]
      case Failed(t) => StreamFailure(t)
  }

  /** An uninitialised service yields exactly one failure and stops. */
  lemma StreamUninitialized(stream: StreamOutcome)
    ensures var rs := StreamResults(false, stream);
      |rs| == 1 && !rs[0].success && rs[0].error == Some(NOT_INITIALIZED_ERROR)
  {
  }

  /**
   * A stream of n chunks that completes yields n + 1 successful results: one
   * per chunk carrying that chunk and not complete, then one complete result
   * carrying all chunks joined.
   */
  lemma StreamCompleted(chunks: seq<string>)
    ensures var rs := StreamResults(true, StreamOutcome(chunks, Completed));
      && |rs| == |chunks| + 1
      && (forall i :: 0 <= i < |rs| ==> rs[i].success)
      && (forall i :: 0 <= i < |chunks| ==>
            rs[i].content == Some(chunks[i]) && rs[i].isComplete == Some(false))
      && rs[|chunks|].content == Some(Concat(chunks))
      && rs[|chunks|].isComplete == Some(true)
  {
  }

  /**
   * A stream that fails after k chunks yields the k intermediate results,
   * never a complete one, and then at most one error, classified exactly as
   * the batch call would classify the same thrown value; a thrown value that
   * is not an `Error` yields no error result at all.
   */
  lemma StreamFailedAfterChunks(chunks: seq<string>, t: Thrown)
    ensures var rs := StreamResults(true, StreamOutcome(chunks, Failed(t)));
      && rs[..|chunks|] == Partials(chunks)
      && (forall i :: 0 <= i < |rs| ==> rs[i].isComplete != Some(true))
      && |rs| == |chunks| + (if t.isError then 1 else 0)
      && (t.isError ==> !rs[|chunks|].success &&
                         rs[|chunks|].error == Response(true, Fail(t)).error)
  {
  }

  /** Chunks "A" and "B" followed by completion: two partial results, then "AB" complete. */
  lemma StreamOfTwoChunks()
    ensures StreamResults(true, StreamOutcome(["A", "B"], Completed)) ==
      [Partial("A"), Partial("B"), Final("AB")]
  {
    var chunks := ["A", "B"];
    assert chunks[..1] == ["A"];
    assert ["A"][..0] == [];
    assert Concat(chunks) == "AB";
    assert Partials(chunks) == [Partial("A"), Partial("B")];
  }

  /** Whatever the remote side does, at most the last result is marked complete. */
  lemma OnlyLastIsComplete(initialized: bool, stream: StreamOutcome, i: nat)
    requires i < |StreamResults(initialized, stream)|
    requires StreamResults(initialized, stream)[i].isComplete == Some(true)
    ensures i == |StreamResults(initialized, stream)| - 1
    ensures initialized && stream.end.Completed?
  {
  }

  /**
   * The service object. `genAI` and `model` stay `None` until an
   * initialisation with a valid key builds them.
   */
  class AIService {
    var genAI: Option<Client>
    var model: Option<GenerativeModel>

    /** A model is only ever built together with the client it came from. */
    ghost predicate Valid()
      reads this
    {
      model.Some? ==> genAI.Some? && model.value == GenerativeModel(genAI.value, MODEL_NAME)
    }

    /** `!!this.model` */
    predicate IsInitialized()
      reads this
    {
      model.Some?
    }

    /**
     * `new AIService()` with the environment's key as `env`: initialised
     * exactly when the key is valid; an invalid key does not throw.
     */
    constructor (env: Option<string>)
      ensures Valid()
      ensures IsInitialized() <==> ValidateApiKey(env).isValid
      ensures IsInitialized() ==> genAI == Some(Client(env.value))
    {
      genAI := None;
      model := None;
      new;
      InitializeAI(env);
    }

    /**
     * initializeAI: with a valid key, builds a fresh client and model from
     * it; with an invalid key the validation error is thrown and caught
     * before any field is assigned, so both fields keep their values.
     */
    method InitializeAI(env: Option<string>)
      requires Valid()
      modifies this
      ensures Valid()
      ensures ValidateApiKey(env).isValid ==>
        genAI == Some(Client(env.value)) && model == Some(GenerativeModel(Client(env.value), MODEL_NAME))
      ensures !ValidateApiKey(env).isValid ==> genAI == old(genAI) && model == old(model)
    {
      var validation := ValidateApiKey(env);
      if !validation.isValid {
        return;
      }
      var client := Client(env.value);
      genAI := Some(client);
      model := Some(GenerativeModel(client, MODEL_NAME));
    }

    /** reinitialize: re-runs initializeAI against the current key. */
    method Reinitialize(env: Option<string>)
      requires Valid()
      modifies this
      ensures Valid()
      ensures ValidateApiKey(env).isValid ==>
        IsInitialized() && genAI == Some(Client(env.value))
      ensures !ValidateApiKey(env).isValid ==> genAI == old(genAI) && model == old(model)
    {
      InitializeAI(env);
    }

    /**
     * generateResponse: `sent` lists the messages handed to the remote model;
     * an uninitialised service sends nothing.
     */
    method GenerateResponse(message: string, outcome: RemoteOutcome) returns (r: AIResponse, sent: seq<string>)
      ensures sent == if IsInitialized() then [message] else []
      ensures r == Response(IsInitialized(), outcome)
    {
      if model.None? {
        return AIResponse(false, None, Some(NOT_INITIALIZED_ERROR)), [];
      }
      sent := [message];
      match outcome
      case Ok(text) =>
        r := AIResponse(true, Some(text), None);
      case Fail(t) =>
        r := AIResponse(false, None, Some(ErrorMessage(Classify(t))));
    }

    /**
     * generateStreamingResponse: the results it yields, in order, accumulating
     * the chunk texts into `fullText` as they arrive.
     */
    method GenerateStreamingResponse(message: string, stream: StreamOutcome)
      returns (results: seq<StreamingResponse>, sent: seq<string>)
      ensures sent == if IsInitialized() then [message] else []
      ensures results == StreamResults(IsInitialized(), stream)
    {
      if model.None? {
        return [StreamingResponse(false, None, Some(NOT_INITIALIZED_ERROR), None)], [];
      }
      sent := [message];
      var fullText := "";
      results := [];
      var i := 0;
      while i < |stream.chunks|
        invariant 0 <= i <= |stream.chunks|
        invariant fullText == Concat(stream.chunks[..i])
        invariant results == Partials(stream.chunks[..i])
      {
        var chunkText := stream.chunks[i];
        assert stream.chunks[..i + 1][..i] == stream.chunks[..i];
        fullText := fullText + chunkText;
        results := results + [Partial(chunkText)];
        i := i + 1;
      }
      assert stream.chunks[..i] == stream.chunks;
      match stream.end
      case Completed =>
        results := results + [Final(fullText)];
      case Failed(t) =>
        if t.isError {
          results := results + [StreamingResponse(false, None, Some(ErrorMessage(Classify(t))), None)];
        }
    }
  }
}
