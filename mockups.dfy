/**
 * The batch loop of `generateMockups`: one remote request per attempt, up to
 * three attempts per image, exponential backoff after quota and server errors,
 * a batch-wide breaker on quota failures, and one progress report per image.
 *
 * The remote service is a scripted fake `respond(iteration, attempt)`; waits
 * and progress reports are recorded, in order, in an event trace.
 */
module Mockups {
  import opened Wrappers
  import opened Text
  import opened Types
  import opened Normalizer
  import opened Prompt

  // ------------------------------------------------------------------ data

  /** One part of a response candidate's content. */
  datatype ResponsePart =
    | Inline(data: string, mimeType: string)  // an `inlineData` image
    | TextOnly(text: string)                  // any part without `inlineData`

  /** What one call of the remote service gives back. */
  datatype RemoteError = RemoteError(message: string, status: string, code: Option<int>)

  datatype Outcome =
    | Responded(candidates: seq<seq<ResponsePart>>)  // each candidate's content parts
    | Failed(error: RemoteError)                      // the call threw

  /** One part of a request: a pre-processed image or the instruction text. */
  datatype RequestPart = ImageInput(payload: Payload) | PromptInput(text: string)

  datatype Event =
    | Request(iteration: nat, attempt: nat, parts: seq<RequestPart>)
    | Wait(ms: nat)
    | Progress(percent: int)

  /** The loop's mutable state: the images so far, the breaker counter, and the trace. */
  datatype RunState = RunState(images: seq<GeneratedImage>, quota: nat, events: seq<Event>)

  const MaxRetries: nat := 2
  const PacingDelay: nat := 4000
  const BreakerThreshold: nat := 2
  const RateLimitMessage := "RATE_LIMIT_EXCEEDED"
  const NoImagesMessage := "Không thể tạo ảnh." + " Vui lòng thử lại sau."

  // -------------------------------------------------------- classification

  predicate IsQuotaError(e: RemoteError)
  {
    Contains(e.message, "429") || Contains(e.message, "quota") ||
    e.status == "RESOURCE_EXHAUSTED" || e.code == Some(429)
  }

  predicate IsServerError(e: RemoteError)
  {
    e.code == Some(500) || e.status == "UNKNOWN" || e.status == "INTERNAL"
  }

  predicate HasInline(content: seq<ResponsePart>)
  {
    exists p | p in content :: p.Inline?
  }

  /** Delay before retrying after failed attempt `attempt` (numbered from 1). */
  function Backoff(attempt: nat): (r: nat)
    requires attempt >= 1
    ensures attempt == 1 ==> r == 5000
    ensures attempt == 2 ==> r == 10000
  {
    5000 * Pow2(attempt - 1)
  }

  function Pow2(k: nat): nat
  {
    if k == 0 then 1 else 2 * Pow2(k - 1)
  }

  function DataUrl(mimeType: string, data: string): string
  {
    "data:" + mimeType + ";base64," + data
  }

  /** The images pushed for the inline parts of one candidate, in order. */
  function ImagesOf(iteration: nat, content: seq<ResponsePart>): (r: seq<GeneratedImage>)
    ensures |r| <= |content|
  {
    if |content| == 0 then []
    else
      var last := content[|content| - 1];
      ImagesOf(iteration, content[..|content| - 1]) +
      (if last.Inline? then [GeneratedImage(iteration, DataUrl(last.mimeType, last.data))] else [])
  }

  /** The inline parts of a candidate's content, in order. */
  function InlineParts(content: seq<ResponsePart>): (r: seq<ResponsePart>)
    ensures forall p | p in r :: p.Inline? && p in content
  {
    if |content| == 0 then []
    else (if content[0].Inline? then [content[0]] else []) + InlineParts(content[1..])
  }

  lemma {:induction false} InlinePartsSnoc(init: seq<ResponsePart>, last: ResponsePart)
    ensures InlineParts(init + [last]) == InlineParts(init) + (if last.Inline? then [last] else [])
    decreases |init|
  {
    if |init| == 0 {
      assert [last][1..] == [];
    } else {
      assert (init + [last])[1..] == init[1..] + [last];
      InlinePartsSnoc(init[1..], last);
    }
  }

  /** Every inline part of the candidate becomes one image, in order, and nothing else does. */
  lemma {:induction false} ImagesOfParts(iteration: nat, content: seq<ResponsePart>)
    ensures var r := ImagesOf(iteration, content);
      var inline := InlineParts(content);
      |r| == |inline| &&
      forall k | 0 <= k < |r| :: r[k] == GeneratedImage(iteration, DataUrl(inline[k].mimeType, inline[k].data))
    decreases |content|
  {
    if |content| > 0 {
      var init := content[..|content| - 1];
      var last := content[|content| - 1];
      assert content == init + [last];
      ImagesOfParts(iteration, init);
      InlinePartsSnoc(init, last);
    }
  }

  /** Recording a candidate's images resets the breaker, but only if there was one. */
  function Record(s: RunState, iteration: nat, content: seq<ResponsePart>): RunState
  {
    var found := ImagesOf(iteration, content);
    if found == [] then s else s.(images := s.images + found, quota := 0)
  }

  // ------------------------------------------------------------ the loops

  /**
   * The retry loop of one iteration, after `attempts` attempts have been made
   * without success.
   */
  function Attempts(iteration: nat, attempts: nat, parts: seq<RequestPart>,
                    respond: (nat, nat) -> Outcome, s: RunState): RunState
    requires attempts <= MaxRetries + 1
    decreases MaxRetries + 1 - attempts
  {
    if attempts > MaxRetries then s
    else
      var a := attempts + 1;
      var s1 := s.(events := s.events + [Request(iteration, a, parts)]);
      match respond(iteration, a)
      case Responded(candidates) =>
        if |candidates| == 0 then s1
        else if ImagesOf(iteration, candidates[0]) != [] then Record(s1, iteration, candidates[0])
        else Attempts(iteration, a, parts, respond, s1)
      case Failed(e) =>
        var s2 := s1.(quota := if IsQuotaError(e) then s1.quota + 1 else s1.quota);
        if (IsQuotaError(e) || IsServerError(e)) && a <= MaxRetries then
          Attempts(iteration, a, parts, respond, s2.(events := s2.events + [Wait(Backoff(a))]))
        else s2
  }

  /** One iteration of the batch: pacing, the retry loop, then the progress report. */
  function Iteration(i: nat, total: int, inputs: seq<RequestPart>, prompts: nat -> string,
                     respond: (nat, nat) -> Outcome, s: RunState): RunState
    requires i < total
  {
    var s1 := if i > 0 then s.(events := s.events + [Wait(PacingDelay)]) else s;
    var s2 := Attempts(i, 0, inputs + [PromptInput(prompts(i))], respond, s1);
    s2.(events := s2.events + [Progress(RoundRatio(100 * (i + 1), total))])
  }

  /** Iterations `i` onward, stopping early once the breaker reaches its threshold. */
  function RunFrom(i: nat, total: int, inputs: seq<RequestPart>, prompts: nat -> string,
                   respond: (nat, nat) -> Outcome, s: RunState): RunState
    decreases total - i
  {
    if i >= total then s
    else
      var s1 := Iteration(i, total, inputs, prompts, respond, s);
      if s1.quota >= BreakerThreshold then s1 else RunFrom(i + 1, total, inputs, prompts, respond, s1)
  }

  /** The batch's verdict once the loop is over. */
  function Finish(s: RunState): (r: Result<seq<GeneratedImage>, string>)
    ensures r.Ok? <==> |s.images| > 0
    ensures r.Ok? ==> r.value == s.images
    ensures r == Err(RateLimitMessage) <==> |s.images| == 0 && s.quota > 0
    ensures r == Err(NoImagesMessage) <==> |s.images| == 0 && s.quota == 0
  {
    if |s.images| == 0 then
      if s.quota > 0 then Err(RateLimitMessage) else Err(NoImagesMessage)
    else Ok(s.images)
  }

  /** The instruction text of every iteration of a batch. */
  function PromptSchedule(o: GenerationOptions, seed: string, hasCustomModel: bool, draws: nat -> Picks): nat -> string
  {
    (i: nat) => PromptText(o, i, seed, hasCustomModel, draws(i + 1))
  }

  /** The character description drawn once for a consistent batch without a reference model. */
  function BatchSeed(o: GenerationOptions, hasCustomModel: bool, draws: nat -> Picks): (r: string)
    ensures r != "" <==> o.consistentModel && !hasCustomModel && o.displayMode == Model
  {
    if o.consistentModel && !hasCustomModel then CharacterSeed(o, draws(0)) else ""
  }

  datatype Batch = Batch(result: Result<seq<GeneratedImage>, string>, events: seq<Event>)

  predicate UsesCustomModel(o: GenerationOptions, customModel: Option<SourceImage>)
  {
    customModel.Some? && o.displayMode == Model
  }

  /**
   * A whole call: pre-process the inputs, draw the batch's character seed
   * (from `draws(0)`) when one is wanted, run the iterations, and decide.
   */
  function Generate(productImage: SourceImage, o: GenerationOptions, customModel: Option<SourceImage>,
                    respond: (nat, nat) -> Outcome, draws: nat -> Picks): Batch
  {
    var product := Normalize(productImage);
    var hasCustomModel := UsesCustomModel(o, customModel);
    if product.Err? then Batch(Err(product.error), [])
    else if hasCustomModel && Normalize(customModel.value).Err? then
      Batch(Err(Normalize(customModel.value).error), [])
    else
      var inputs := [ImageInput(product.value)] +
                    (if hasCustomModel then [ImageInput(Normalize(customModel.value).value)] else []);
      var seed := BatchSeed(o, hasCustomModel, draws);
      var s := RunFrom(0, o.numImages, inputs, PromptSchedule(o, seed, hasCustomModel, draws), respond,
                       RunState([], 0, []));
      Batch(Finish(s), s.events)
  }

  // ------------------------------------------------------------ the code

  /** The `for` loop of the batch: pacing, the retry loop, progress, and the breaker check. */
  method RunIterations(inputs: seq<RequestPart>, total: int, prompts: nat -> string, respond: (nat, nat) -> Outcome)
    returns (images: seq<GeneratedImage>, quota: nat, events: seq<Event>)
    ensures RunState(images, quota, events) == RunFrom(0, total, inputs, prompts, respond, RunState([], 0, []))
  {
    ghost var goal := RunFrom(0, total, inputs, prompts, respond, RunState([], 0, []));
    images, quota, events := [], 0, [];
    var i: nat := 0;
    while i < total
      invariant RunFrom(i, total, inputs, prompts, respond, RunState(images, quota, events)) == goal
      decreases total - i
    {
      ghost var before := RunState(images, quota, events);
      var prompt := prompts(i);
      if i > 0 {
        events := events + [Wait(PacingDelay)];
      }
      var after := AttemptLoop(i, inputs + [PromptInput(prompt)], respond, RunState(images, quota, events));
      images, quota, events := after.images, after.quota, after.events;
      events := events + [Progress(RoundRatio(100 * (i + 1), total))];
      assert RunState(images, quota, events) == Iteration(i, total, inputs, prompts, respond, before);
      if quota >= BreakerThreshold {
        break;
      }
      i := i + 1;
    }
  }

  /** The `while` retry loop of one iteration, from the state `s` it starts in. */
  method AttemptLoop(i: nat, parts: seq<RequestPart>, respond: (nat, nat) -> Outcome, s: RunState)
    returns (r: RunState)
    ensures r == Attempts(i, 0, parts, respond, s)
  {
    r := s;
    var attempts: nat := 0;
    var success := false;
    while attempts <= MaxRetries && !success
      invariant attempts <= MaxRetries + 1
      invariant (if success then r else Attempts(i, attempts, parts, respond, r)) == Attempts(i, 0, parts, respond, s)
      decreases MaxRetries + 1 - attempts
    {
      attempts := attempts + 1;
      var stop;
      r, success, stop := TryAttempt(i, attempts, parts, respond, r);
      if stop {
        break;
      }
    }
  }

  /**
   * The body of the retry loop for attempt `a`: one call, then either an image
   * (or no candidates at all) that ends the loop, a retry, or a `break`.
   */
  method TryAttempt(i: nat, a: nat, parts: seq<RequestPart>, respond: (nat, nat) -> Outcome, st: RunState)
    returns (next: RunState, success: bool, stop: bool)
    requires 1 <= a <= MaxRetries + 1
    ensures success || stop ==> next == Attempts(i, a - 1, parts, respond, st)
    ensures !success && !stop ==> Attempts(i, a - 1, parts, respond, st) == Attempts(i, a, parts, respond, next)
  {
    var events := st.events + [Request(i, a, parts)];
    var sent := st.(events := events);
    success, stop := false, false;
    match respond(i, a) {
      case Responded(candidates) =>
        if |candidates| > 0 {
          var images, quota;
          images, quota, success := RecordCandidate(i, candidates[0], st.images, st.quota);
          next := RunState(images, quota, events);
          if success {
            assert next == Record(sent, i, candidates[0]);
          } else {
            assert next == sent;
          }
        } else {
          next := sent;
          success := true;
        }
      case Failed(e) =>
        var isQuotaError := IsQuotaError(e);
        var isServerError := IsServerError(e);
        var quota := st.quota;
        stop := true;
        if isQuotaError || isServerError {
          if isQuotaError {
            quota := quota + 1;
          }
          if a <= MaxRetries {
            events := events + [Wait(Backoff(a))];
            stop := false;
          }
        }
        next := RunState(st.images, quota, events);
    }
  }

  /** The walk over a candidate's parts, pushing one image per inline part. */
  method RecordCandidate(i: nat, content: seq<ResponsePart>, images0: seq<GeneratedImage>, quota0: nat)
    returns (images: seq<GeneratedImage>, quota: nat, success: bool)
    ensures success <==> HasInline(content)
    ensures success <==> ImagesOf(i, content) != []
    ensures images == images0 + ImagesOf(i, content)
    ensures quota == if success then 0 else quota0
  {
    images, quota, success := images0, quota0, false;
    for k := 0 to |content|
      invariant images == images0 + ImagesOf(i, content[..k])
      invariant success <==> ImagesOf(i, content[..k]) != []
      invariant quota == if success then 0 else quota0
    {
      assert content[..k + 1][..k] == content[..k];
      if content[k].Inline? {
        images := images + [GeneratedImage(i, DataUrl(content[k].mimeType, content[k].data))];
        success := true;
        quota := 0;
      }
    }
    assert content[..|content|] == content;
    InlineFound(i, content);
  }

  /** Inline parts exist exactly when recording them yields images. */
  lemma {:induction false} InlineFound(iteration: nat, content: seq<ResponsePart>)
    ensures ImagesOf(iteration, content) != [] <==> HasInline(content)
    decreases |content|
  {
    if |content| > 0 {
      var init := content[..|content| - 1];
      InlineFound(iteration, init);
      assert forall p | p in init :: p in content;
      if HasInline(content) && !content[|content| - 1].Inline? {
        var p :| p in content && p.Inline?;
        assert content == init + [content[|content| - 1]];
        assert p in init;
      }
    }
  }

  /** `generateMockups`: pre-processing, the character seed, the loop, and the final verdict. */
  method GenerateMockups(productImage: SourceImage, o: GenerationOptions, customModel: Option<SourceImage>,
                         respond: (nat, nat) -> Outcome, draws: nat -> Picks)
    returns (result: Result<seq<GeneratedImage>, string>, events: seq<Event>)
    ensures Batch(result, events) == Generate(productImage, o, customModel, respond, draws)
  {
    var product := ProcessImage(productImage);
    if product.Err? {
      return Err(product.error), [];
    }
    var inputs := [ImageInput(product.value)];
    var hasCustomModel := customModel.Some? && o.displayMode == Model;
    if hasCustomModel {
      var model := ProcessImage(customModel.value);
      if model.Err? {
        return Err(model.error), [];
      }
      inputs := inputs + [ImageInput(model.value)];
    }
    assert inputs == [ImageInput(product.value)] +
                     (if hasCustomModel then [ImageInput(Normalize(customModel.value).value)] else []);
    var seed := BatchSeed(o, hasCustomModel, draws);
    var images, quota;
    images, quota, events := RunIterations(inputs, o.numImages, PromptSchedule(o, seed, hasCustomModel, draws), respond);
    if |images| == 0 {
      if quota > 0 {
        result := Err(RateLimitMessage);
      } else {
        result := Err(NoImagesMessage);
      }
    } else {
      result := Ok(images);
    }
  }

  // ------------------------------------------------- one iteration's calls

  /** How one attempt's outcome is treated by the retry loop. */
  datatype AttemptKind =
    | Produced       // the first candidate has an inline image
    | Filtered       // no candidates at all
    | NoImage        // candidates, but the first has no inline image
    | QuotaFailure
    | ServerFailure
    | OtherFailure

  function KindOf(outcome: Outcome): AttemptKind
  {
    match outcome
    case Responded(candidates) =>
      if |candidates| == 0 then Filtered else if HasInline(candidates[0]) then Produced else NoImage
    case Failed(e) =>
      if IsQuotaError(e) then QuotaFailure else if IsServerError(e) then ServerFailure else OtherFailure
  }

  /** An outcome after which the retry loop does not call again. */
  predicate EndsIteration(k: AttemptKind)
  {
    k == Produced || k == Filtered || k == OtherFailure
  }

  predicate BacksOff(k: AttemptKind)
  {
    k == QuotaFailure || k == ServerFailure
  }

  /** The last attempt the loop makes, counting from attempt `a`: the first one that ends it, or the third. */
  function LastAttempt(iteration: nat, respond: (nat, nat) -> Outcome, a: nat): (n: nat)
    requires 1 <= a <= MaxRetries + 1
    ensures a <= n <= MaxRetries + 1
    ensures n < MaxRetries + 1 ==> EndsIteration(KindOf(respond(iteration, n)))
    ensures forall b | a <= b < n :: !EndsIteration(KindOf(respond(iteration, b)))
    decreases MaxRetries + 1 - a
  {
    if a == MaxRetries + 1 || EndsIteration(KindOf(respond(iteration, a))) then a
    else LastAttempt(iteration, respond, a + 1)
  }

  /** The calls and backoff waits of attempts `a` to `n`. */
  function AttemptTrace(iteration: nat, parts: seq<RequestPart>, respond: (nat, nat) -> Outcome, a: nat, n: nat): seq<Event>
    requires 1 <= a <= n
    decreases n - a
  {
    [Request(iteration, a, parts)] +
    if a == n then []
    else (if BacksOff(KindOf(respond(iteration, a))) then [Wait(Backoff(a))] else []) +
         AttemptTrace(iteration, parts, respond, a + 1, n)
  }

  /** The quota failures among attempts `a` to `n`. */
  function QuotaFailures(iteration: nat, respond: (nat, nat) -> Outcome, a: nat, n: nat): nat
    decreases n + 1 - a
  {
    if a > n then 0
    else (if KindOf(respond(iteration, a)) == QuotaFailure then 1 else 0) + QuotaFailures(iteration, respond, a + 1, n)
  }

  /** What the retry loop leaves behind: the summary's claim about `Attempts` from attempt `a`. */
  predicate Summarizes(iteration: nat, a: nat, parts: seq<RequestPart>, respond: (nat, nat) -> Outcome,
                       s: RunState, r: RunState)
    requires 1 <= a <= MaxRetries + 1
  {
    var n := LastAttempt(iteration, respond, a);
    var last := respond(iteration, n);
    r.events == s.events + AttemptTrace(iteration, parts, respond, a, n) &&
    r.images == s.images + (if KindOf(last) == Produced then ImagesOf(iteration, last.candidates[0]) else []) &&
    r.quota == (if KindOf(last) == Produced then 0 else s.quota + QuotaFailures(iteration, respond, a, n))
  }

  /**
   * The retry loop, summarized from its last attempt: it calls once per attempt
   * up to the last, waits only after a quota or server failure that is not
   * the last attempt, keeps only the last attempt's images, and leaves the
   * breaker at 0 after an image or raised by every quota failure otherwise.
   */
  lemma {:induction false} AttemptsSummary(iteration: nat, a: nat, parts: seq<RequestPart>,
                                          respond: (nat, nat) -> Outcome, s: RunState)
    requires 1 <= a <= MaxRetries + 1
    ensures Summarizes(iteration, a, parts, respond, s, Attempts(iteration, a - 1, parts, respond, s))
    decreases MaxRetries + 1 - a
  {
    var outcome := respond(iteration, a);
    if outcome.Responded? && |outcome.candidates| > 0 {
      InlineFound(iteration, outcome.candidates[0]);
    }
    if EndsIteration(KindOf(outcome)) || a == MaxRetries + 1 {
      FinalAttempt(iteration, a, parts, respond, s);
    } else {
      var s3 := NextAttemptState(iteration, a, parts, respond, s);
      RetryStep(iteration, a, parts, respond, s);
      AttemptsSummary(iteration, a + 1, parts, respond, s3);
      RetriedAttempt(iteration, a, parts, respond, s, Attempts(iteration, a, parts, respond, s3));
    }
  }

  /** The state a failed, retried attempt `a` hands to the next one. */
  function NextAttemptState(iteration: nat, a: nat, parts: seq<RequestPart>, respond: (nat, nat) -> Outcome,
                            s: RunState): RunState
    requires 1 <= a
  {
    var kind := KindOf(respond(iteration, a));
    var s1 := s.(events := s.events + [Request(iteration, a, parts)],
                 quota := if kind == QuotaFailure then s.quota + 1 else s.quota);
    if BacksOff(kind) then s1.(events := s1.events + [Wait(Backoff(a))]) else s1
  }

  lemma FinalAttempt(iteration: nat, a: nat, parts: seq<RequestPart>, respond: (nat, nat) -> Outcome, s: RunState)
    requires 1 <= a <= MaxRetries + 1
    requires EndsIteration(KindOf(respond(iteration, a))) || a == MaxRetries + 1
    requires var o := respond(iteration, a); o.Responded? && |o.candidates| > 0 ==>
               (ImagesOf(iteration, o.candidates[0]) != [] <==> HasInline(o.candidates[0]))
    ensures Summarizes(iteration, a, parts, respond, s, Attempts(iteration, a - 1, parts, respond, s))
  {
    assert LastAttempt(iteration, respond, a) == a;
    assert AttemptTrace(iteration, parts, respond, a, a) == [Request(iteration, a, parts)];
    assert QuotaFailures(iteration, respond, a + 1, a) == 0;
    var s1 := s.(events := s.events + [Request(iteration, a, parts)]);
    match respond(iteration, a)
    case Responded(candidates) =>
      if |candidates| == 0 {
        assert Attempts(iteration, a - 1, parts, respond, s) == s1;
      } else if HasInline(candidates[0]) {
        assert Attempts(iteration, a - 1, parts, respond, s) == Record(s1, iteration, candidates[0]);
      } else {
        assert Attempts(iteration, a - 1, parts, respond, s) == Attempts(iteration, a, parts, respond, s1) == s1;
      }
    case Failed(e) =>
      assert Attempts(iteration, a - 1, parts, respond, s)
          == s1.(quota := if IsQuotaError(e) then s1.quota + 1 else s1.quota);
  }

  /** Prefixing a retried attempt `a` to a summary from attempt `a + 1` gives the summary from `a`. */
  lemma RetriedAttempt(iteration: nat, a: nat, parts: seq<RequestPart>, respond: (nat, nat) -> Outcome,
                       s: RunState, r: RunState)
    requires 1 <= a <= MaxRetries
    requires !EndsIteration(KindOf(respond(iteration, a)))
    requires Summarizes(iteration, a + 1, parts, respond, NextAttemptState(iteration, a, parts, respond, s), r)
    ensures Summarizes(iteration, a, parts, respond, s, r)
  {
    var s3 := NextAttemptState(iteration, a, parts, respond, s);
    var n := LastAttempt(iteration, respond, a);
    assert n == LastAttempt(iteration, respond, a + 1);
    var wait := if BacksOff(KindOf(respond(iteration, a))) then [Wait(Backoff(a))] else [];
    assert s3.events == s.events + [Request(iteration, a, parts)] + wait;
    assert AttemptTrace(iteration, parts, respond, a, n)
        == [Request(iteration, a, parts)] + (wait + AttemptTrace(iteration, parts, respond, a + 1, n));
    assert QuotaFailures(iteration, respond, a, n)
        == (if KindOf(respond(iteration, a)) == QuotaFailure then 1 else 0) + QuotaFailures(iteration, respond, a + 1, n);
  }

  /** A retried attempt hands `NextAttemptState` to the next one. */
  lemma RetryStep(iteration: nat, a: nat, parts: seq<RequestPart>, respond: (nat, nat) -> Outcome, s: RunState)
    requires 1 <= a <= MaxRetries
    requires !EndsIteration(KindOf(respond(iteration, a)))
    requires var o := respond(iteration, a); o.Responded? && |o.candidates| > 0 ==>
               (ImagesOf(iteration, o.candidates[0]) != [] <==> HasInline(o.candidates[0]))
    ensures Attempts(iteration, a - 1, parts, respond, s)
         == Attempts(iteration, a, parts, respond, NextAttemptState(iteration, a, parts, respond, s))
  {
    var s1 := s.(events := s.events + [Request(iteration, a, parts)]);
    var next := NextAttemptState(iteration, a, parts, respond, s);
    match respond(iteration, a)
    case Responded(candidates) =>
      assert next == s1;
      assert Attempts(iteration, a - 1, parts, respond, s) == Attempts(iteration, a, parts, respond, s1);
    case Failed(e) =>
      var s2 := s1.(quota := if IsQuotaError(e) then s1.quota + 1 else s1.quota);
      assert next == s2.(events := s2.events + [Wait(Backoff(a))]);
      assert Attempts(iteration, a - 1, parts, respond, s) == Attempts(iteration, a, parts, respond, next);
  }

  // ------------------------------------------------------ the whole trace

  /** The progress percentages of a trace, in order. */
  function Progresses(events: seq<Event>): seq<int>
  {
    if |events| == 0 then []
    else
      var last := events[|events| - 1];
      Progresses(events[..|events| - 1]) + (if last.Progress? then [last.percent] else [])
  }

  lemma {:induction false} ProgressesAppend(a: seq<Event>, b: seq<Event>)
    ensures Progresses(a + b) == Progresses(a) + Progresses(b)
    decreases |b|
  {
    if |b| > 0 {
      var init := b[..|b| - 1];
      assert (a + b)[..|a + b| - 1] == a + init;
      ProgressesAppend(a, init);
    } else {
      assert a + b == a;
    }
  }

  /** The retry loop reports no progress. */
  lemma {:induction false} AttemptTraceSilent(iteration: nat, parts: seq<RequestPart>, respond: (nat, nat) -> Outcome,
                                              a: nat, n: nat)
    requires 1 <= a <= n
    ensures Progresses(AttemptTrace(iteration, parts, respond, a, n)) == []
    decreases n - a
  {
    var request := [Request(iteration, a, parts)];
    assert Progresses(request) == Progresses([]) + [];
    if a < n {
      var wait := if BacksOff(KindOf(respond(iteration, a))) then [Wait(Backoff(a))] else [];
      assert Progresses(wait) == [] by {
        if wait != [] {
          assert Progresses(wait) == Progresses([]) + [];
        }
      }
      AttemptTraceSilent(iteration, parts, respond, a + 1, n);
      ProgressesAppend(wait, AttemptTrace(iteration, parts, respond, a + 1, n));
      ProgressesAppend(request, wait + AttemptTrace(iteration, parts, respond, a + 1, n));
    } else {
      ProgressesAppend(request, []);
    }
  }

  /** The reports of iterations `lo` to `hi - 1`: `Math.round((i + 1) / total * 100)` each. */
  function ProgressList(total: nat, lo: nat, hi: nat): (r: seq<int>)
    requires lo <= hi <= total
    ensures |r| == hi - lo
    decreases hi - lo
  {
    if lo == hi then [] else [RoundRatio(100 * (lo + 1), total)] + ProgressList(total, lo + 1, hi)
  }

  /**
   * What every event of a batch's trace looks like: calls for an iteration of
   * the batch, numbered 1 to 3, carrying the images and that iteration's
   * prompt; waits of the pacing or backoff lengths; percentages.
   */
  predicate EventOk(e: Event, inputs: seq<RequestPart>, prompts: nat -> string, total: int)
  {
    match e
    case Request(iteration, attempt, parts) =>
      iteration < total && 1 <= attempt <= MaxRetries + 1 && parts == inputs + [PromptInput(prompts(iteration))]
    case Wait(ms) => ms == PacingDelay || ms == 5000 || ms == 10000
    case Progress(percent) => 0 <= percent <= 100
  }

  predicate TraceOk(events: seq<Event>, inputs: seq<RequestPart>, prompts: nat -> string, total: int)
  {
    forall k | 0 <= k < |events| :: EventOk(events[k], inputs, prompts, total)
  }

  lemma TraceOkAppend(a: seq<Event>, b: seq<Event>, inputs: seq<RequestPart>, prompts: nat -> string, total: int)
    requires TraceOk(a, inputs, prompts, total) && TraceOk(b, inputs, prompts, total)
    ensures TraceOk(a + b, inputs, prompts, total)
  {
    forall k | 0 <= k < |a + b| ensures EventOk((a + b)[k], inputs, prompts, total)
    {
      if k < |a| {
        assert (a + b)[k] == a[k];
      } else {
        assert (a + b)[k] == b[k - |a|];
      }
    }
  }

  lemma {:induction false} AttemptTraceOk(i: nat, inputs: seq<RequestPart>, prompts: nat -> string, total: int,
                                          respond: (nat, nat) -> Outcome, a: nat, n: nat)
    requires 1 <= a <= n <= MaxRetries + 1 && i < total
    ensures TraceOk(AttemptTrace(i, inputs + [PromptInput(prompts(i))], respond, a, n), inputs, prompts, total)
    decreases n - a
  {
    var parts := inputs + [PromptInput(prompts(i))];
    var request := [Request(i, a, parts)];
    assert EventOk(request[0], inputs, prompts, total);
    if a < n {
      var wait := if BacksOff(KindOf(respond(i, a))) then [Wait(Backoff(a))] else [];
      AttemptTraceOk(i, inputs, prompts, total, respond, a + 1, n);
      TraceOkAppend(wait, AttemptTrace(i, parts, respond, a + 1, n), inputs, prompts, total);
      TraceOkAppend(request, wait + AttemptTrace(i, parts, respond, a + 1, n), inputs, prompts, total);
    } else {
      assert AttemptTrace(i, parts, respond, a, n) == request;
    }
  }

  /** Every recorded image is the data URL of an inline part of what the service returned. */
  predicate Carries(outcome: Outcome, url: string)
  {
    outcome.Responded? && |outcome.candidates| > 0 &&
    exists p | p in outcome.candidates[0] :: p.Inline? && url == DataUrl(p.mimeType, p.data)
  }

  predicate ImageOk(img: GeneratedImage, respond: (nat, nat) -> Outcome, total: int)
  {
    img.iteration < total &&
    exists a | 1 <= a <= MaxRetries + 1 :: Carries(respond(img.iteration, a), img.url)
  }

  predicate ImagesOk(images: seq<GeneratedImage>, respond: (nat, nat) -> Outcome, total: int)
  {
    forall k | 0 <= k < |images| :: ImageOk(images[k], respond, total)
  }

  lemma {:induction false} ImagesOfCarried(i: nat, content: seq<ResponsePart>)
    ensures forall img | img in ImagesOf(i, content) ::
      img.iteration == i && exists p | p in content :: p.Inline? && img.url == DataUrl(p.mimeType, p.data)
    decreases |content|
  {
    if |content| > 0 {
      var init := content[..|content| - 1];
      ImagesOfCarried(i, init);
      assert forall p | p in init :: p in content;
      assert content[|content| - 1] in content;
    }
  }

  /** A report never exceeds 100. */
  lemma ProgressBound(i: nat, total: int)
    requires i < total
    ensures 0 <= RoundRatio(100 * (i + 1), total) <= 100
  {
    RoundRatioUnique(100 * total, total, 100);
    RoundRatioMonotone(100 * (i + 1), 100 * total, total);
  }

  lemma ImagesOkAppend(images: seq<GeneratedImage>, found: seq<GeneratedImage>, respond: (nat, nat) -> Outcome, total: int)
    requires ImagesOk(images, respond, total)
    requires forall img | img in found :: ImageOk(img, respond, total)
    ensures ImagesOk(images + found, respond, total)
  {
    forall k | 0 <= k < |images + found| ensures ImageOk((images + found)[k], respond, total)
    {
      if k < |images| {
        assert (images + found)[k] == images[k];
      } else {
        assert (images + found)[k] == found[k - |images|];
        assert found[k - |images|] in found;
      }
    }
  }

  /** The images the retry loop of iteration `i` keeps all come from one of its attempts. */
  lemma KeptImagesOk(i: nat, total: int, respond: (nat, nat) -> Outcome, n: nat)
    requires i < total && 1 <= n <= MaxRetries + 1
    requires KindOf(respond(i, n)) == Produced
    ensures forall img | img in ImagesOf(i, respond(i, n).candidates[0]) :: ImageOk(img, respond, total)
  {
    var content := respond(i, n).candidates[0];
    ImagesOfCarried(i, content);
    forall img | img in ImagesOf(i, content) ensures ImageOk(img, respond, total)
    {
      assert Carries(respond(img.iteration, n), img.url);
    }
  }

  /** The reports of one iteration, from the summary of its retry loop: exactly one, at the end. */
  lemma IterationReports(i: nat, total: int, parts: seq<RequestPart>, respond: (nat, nat) -> Outcome,
                         s: RunState, s1: RunState, s2: RunState)
    requires i < total
    requires s1 == if i > 0 then s.(events := s.events + [Wait(PacingDelay)]) else s
    requires Summarizes(i, 1, parts, respond, s1, s2)
    ensures Progresses(s2.events + [Progress(RoundRatio(100 * (i + 1), total))])
         == Progresses(s.events) + [RoundRatio(100 * (i + 1), total)]
  {
    var n := LastAttempt(i, respond, 1);
    var trace := AttemptTrace(i, parts, respond, 1, n);
    var report := [Progress(RoundRatio(100 * (i + 1), total))];
    if i > 0 {
      ProgressesAppend(s.events, [Wait(PacingDelay)]);
      assert Progresses([Wait(PacingDelay)]) == Progresses([]) + [];
    }
    AttemptTraceSilent(i, parts, respond, 1, n);
    ProgressesAppend(s1.events, trace);
    ProgressesAppend(s2.events, report);
    assert Progresses(report) == Progresses([]) + [RoundRatio(100 * (i + 1), total)];
  }

  /** The events of one iteration, from the summary of its retry loop, are well formed. */
  lemma IterationTraceOk(i: nat, total: int, inputs: seq<RequestPart>, prompts: nat -> string,
                         respond: (nat, nat) -> Outcome, s: RunState, s1: RunState, s2: RunState)
    requires i < total
    requires TraceOk(s.events, inputs, prompts, total)
    requires s1 == if i > 0 then s.(events := s.events + [Wait(PacingDelay)]) else s
    requires Summarizes(i, 1, inputs + [PromptInput(prompts(i))], respond, s1, s2)
    ensures TraceOk(s2.events + [Progress(RoundRatio(100 * (i + 1), total))], inputs, prompts, total)
  {
    var parts := inputs + [PromptInput(prompts(i))];
    var n := LastAttempt(i, respond, 1);
    var report := [Progress(RoundRatio(100 * (i + 1), total))];
    if i > 0 {
      assert EventOk(Wait(PacingDelay), inputs, prompts, total);
      TraceOkAppend(s.events, [Wait(PacingDelay)], inputs, prompts, total);
    }
    AttemptTraceOk(i, inputs, prompts, total, respond, 1, n);
    TraceOkAppend(s1.events, AttemptTrace(i, parts, respond, 1, n), inputs, prompts, total);
    ProgressBound(i, total);
    assert EventOk(report[0], inputs, prompts, total);
    TraceOkAppend(s2.events, report, inputs, prompts, total);
  }

  /** The images of one iteration, from the summary of its retry loop: earlier ones kept, new ones carried. */
  lemma IterationImagesOk(i: nat, total: int, parts: seq<RequestPart>, respond: (nat, nat) -> Outcome,
                          s: RunState, s1: RunState, s2: RunState)
    requires i < total
    requires ImagesOk(s.images, respond, total)
    requires s1.images == s.images
    requires Summarizes(i, 1, parts, respond, s1, s2)
    ensures ImagesOk(s2.images, respond, total)
    ensures |s.images| <= |s2.images| && s2.images[..|s.images|] == s.images
  {
    var n := LastAttempt(i, respond, 1);
    if KindOf(respond(i, n)) == Produced {
      KeptImagesOk(i, total, respond, n);
      ImagesOkAppend(s.images, ImagesOf(i, respond(i, n).candidates[0]), respond, total);
    } else {
      assert s2.images == s.images;
    }
  }

  /** One iteration adds exactly its own report to the progress. */
  lemma IterationProgress(i: nat, total: int, inputs: seq<RequestPart>, prompts: nat -> string,
                          respond: (nat, nat) -> Outcome, s: RunState)
    requires i < total
    ensures var r := Iteration(i, total, inputs, prompts, respond, s);
      Progresses(r.events) == Progresses(s.events) + [RoundRatio(100 * (i + 1), total)]
  {
    var parts := inputs + [PromptInput(prompts(i))];
    var s1 := if i > 0 then s.(events := s.events + [Wait(PacingDelay)]) else s;
    AttemptsSummary(i, 1, parts, respond, s1);
    IterationReports(i, total, parts, respond, s, s1, Attempts(i, 0, parts, respond, s1));
  }

  /** One iteration keeps the trace well formed and the images carried. */
  lemma IterationFacts(i: nat, total: int, inputs: seq<RequestPart>, prompts: nat -> string,
                       respond: (nat, nat) -> Outcome, s: RunState)
    requires i < total
    requires TraceOk(s.events, inputs, prompts, total) && ImagesOk(s.images, respond, total)
    ensures var r := Iteration(i, total, inputs, prompts, respond, s);
      TraceOk(r.events, inputs, prompts, total) && ImagesOk(r.images, respond, total) &&
      |s.images| <= |r.images| && r.images[..|s.images|] == s.images
  {
    var parts := inputs + [PromptInput(prompts(i))];
    var s1 := if i > 0 then s.(events := s.events + [Wait(PacingDelay)]) else s;
    var s2 := Attempts(i, 0, parts, respond, s1);
    AttemptsSummary(i, 1, parts, respond, s1);
    IterationTraceOk(i, total, inputs, prompts, respond, s, s1, s2);
    IterationImagesOk(i, total, parts, respond, s, s1, s2);
  }

  /**
   * `after` extends `before` by the reports of iterations `i` onward, one per
   * iteration run, and stops short of the total only when the breaker has
   * reached its threshold.
   */
  predicate ReportsFrom(i: nat, total: int, before: seq<int>, after: seq<int>, quota: nat)
  {
    var m := |after| - |before|;
    0 <= m && i + m <= total && (i < total ==> m >= 1) &&
    after == before + ProgressList(total, i, i + m) &&
    (i + m < total ==> quota >= BreakerThreshold)
  }

  /** The iterations from `i` on report consecutive percentages, and stop early only on the breaker. */
  lemma {:induction false} RunReports(i: nat, total: int, inputs: seq<RequestPart>, prompts: nat -> string,
                                      respond: (nat, nat) -> Outcome, s: RunState)
    requires i <= total
    ensures var r := RunFrom(i, total, inputs, prompts, respond, s);
      ReportsFrom(i, total, Progresses(s.events), Progresses(r.events), r.quota)
    decreases total - i
  {
    if i < total {
      var s1 := Iteration(i, total, inputs, prompts, respond, s);
      IterationProgress(i, total, inputs, prompts, respond, s);
      if s1.quota >= BreakerThreshold {
        assert ProgressList(total, i, i + 1) == [RoundRatio(100 * (i + 1), total)] + ProgressList(total, i + 1, i + 1);
      } else {
        var r := RunFrom(i + 1, total, inputs, prompts, respond, s1);
        RunReports(i + 1, total, inputs, prompts, respond, s1);
        ReportsStep(Progresses(s.events), Progresses(s1.events), Progresses(r.events), r.quota, total, i);
        assert RunFrom(i, total, inputs, prompts, respond, s) == r;
      }
    } else {
      assert ProgressList(total, i, i) == [];
    }
  }

  /** Prefixing iteration `i`'s report to the reports from `i + 1` on gives the reports from `i` on. */
  lemma ReportsStep(before: seq<int>, middle: seq<int>, after: seq<int>, quota: nat, total: nat, i: nat)
    requires i < total
    requires middle == before + [RoundRatio(100 * (i + 1), total)]
    requires ReportsFrom(i + 1, total, middle, after, quota)
    ensures ReportsFrom(i, total, before, after, quota)
  {
    var m := |after| - |middle|;
    var rest := ProgressList(total, i + 1, i + 1 + m);
    assert after == middle + rest;
    assert ProgressList(total, i, i + 1 + m) == [RoundRatio(100 * (i + 1), total)] + rest;
    assert after == before + ProgressList(total, i, i + (m + 1));
    assert |after| - |before| == m + 1;
  }

  /**
   * The iterations from `i` on keep every event well formed, keep the images
   * found so far, and add only images that come from an attempt of the batch.
   */
  lemma {:induction false} RunKeeps(i: nat, total: int, inputs: seq<RequestPart>, prompts: nat -> string,
                                    respond: (nat, nat) -> Outcome, s: RunState)
    requires i <= total
    requires TraceOk(s.events, inputs, prompts, total) && ImagesOk(s.images, respond, total)
    ensures var r := RunFrom(i, total, inputs, prompts, respond, s);
      TraceOk(r.events, inputs, prompts, total) && ImagesOk(r.images, respond, total) &&
      |s.images| <= |r.images| && r.images[..|s.images|] == s.images
    decreases total - i
  {
    if i < total {
      var s1 := Iteration(i, total, inputs, prompts, respond, s);
      IterationFacts(i, total, inputs, prompts, respond, s);
      if s1.quota < BreakerThreshold {
        RunKeeps(i + 1, total, inputs, prompts, respond, s1);
        var r := RunFrom(i + 1, total, inputs, prompts, respond, s1);
        assert r.images[..|s.images|] == r.images[..|s1.images|][..|s.images|];
      }
    }
  }

  lemma {:induction false} ProgressListAt(total: nat, lo: nat, hi: nat)
    requires lo <= hi <= total
    ensures forall k | 0 <= k < hi - lo :: ProgressList(total, lo, hi)[k] == RoundRatio(100 * (lo + k + 1), total)
    decreases hi - lo
  {
    if lo < hi {
      ProgressListAt(total, lo + 1, hi);
      var tail := ProgressList(total, lo + 1, hi);
      assert ProgressList(total, lo, hi) == [RoundRatio(100 * (lo + 1), total)] + tail;
      forall k | 1 <= k < hi - lo
        ensures ProgressList(total, lo, hi)[k] == RoundRatio(100 * (lo + k + 1), total)
      {
        assert ProgressList(total, lo, hi)[k] == tail[k - 1];
      }
    }
  }

  /** Every report of the first `n` iterations is a percentage. */
  lemma ProgressBounded(total: nat, n: nat)
    requires n <= total
    ensures forall k | 0 <= k < n :: 0 <= ProgressList(total, 0, n)[k] <= 100
  {
    ProgressListAt(total, 0, n);
    forall k | 0 <= k < n ensures 0 <= ProgressList(total, 0, n)[k] <= 100 {
      ProgressBound(k, total);
    }
  }

  /** The reports never go down. */
  lemma ProgressMonotone(total: nat, n: nat)
    requires n <= total
    ensures forall j, k | 0 <= j < k < n :: ProgressList(total, 0, n)[j] <= ProgressList(total, 0, n)[k]
  {
    ProgressListAt(total, 0, n);
    forall j, k | 0 <= j < k < n ensures ProgressList(total, 0, n)[j] <= ProgressList(total, 0, n)[k] {
      RoundRatioMonotone(100 * (j + 1), 100 * (k + 1), total);
    }
  }

  /** In a batch of at most 100 images every report is higher than the one before, and only the last is 100. */
  lemma ProgressStrict(total: nat, n: nat)
    requires n <= total <= 100
    ensures forall j, k | 0 <= j < k < n :: ProgressList(total, 0, n)[j] < ProgressList(total, 0, n)[k]
    ensures forall k | 0 <= k < n && k + 1 < total :: ProgressList(total, 0, n)[k] < 100
  {
    ProgressListAt(total, 0, n);
    forall j, k | 0 <= j < k < n ensures ProgressList(total, 0, n)[j] < ProgressList(total, 0, n)[k] {
      RoundRatioStep(100 * (j + 1), 100 * (k + 1), total);
    }
    forall k | 0 <= k < n && k + 1 < total ensures ProgressList(total, 0, n)[k] < 100 {
      RoundRatioStep(100 * (k + 1), 100 * total, total);
      RoundRatioUnique(100 * total, total, 100);
    }
  }

  /** The report of the batch's last iteration is 100. */
  lemma ProgressCompletes(total: nat)
    requires total > 0
    ensures ProgressList(total, 0, total)[total - 1] == 100
  {
    ProgressListAt(total, 0, total);
    RoundRatioUnique(100 * total, total, 100);
  }

  // ----------------------------------------------------------- the breaker

  /** The state after the first `n` iterations with the breaker ignored. */
  function Uninterrupted(n: nat, total: int, inputs: seq<RequestPart>, prompts: nat -> string,
                         respond: (nat, nat) -> Outcome): RunState
    requires n <= total
  {
    if n == 0 then RunState([], 0, [])
    else Iteration(n - 1, total, inputs, prompts, respond, Uninterrupted(n - 1, total, inputs, prompts, respond))
  }

  /** The breaker trips on iteration `k` (counted from 1): `k` is the last one the loop can run. */
  predicate TripsAt(k: nat, total: int, inputs: seq<RequestPart>, prompts: nat -> string,
                    respond: (nat, nat) -> Outcome)
  {
    0 < k <= total &&
    (k < total ==> Uninterrupted(k, total, inputs, prompts, respond).quota >= BreakerThreshold) &&
    forall j | 0 < j < k :: Uninterrupted(j, total, inputs, prompts, respond).quota < BreakerThreshold
  }

  /** From the state after `i` iterations, the loop runs exactly up to the iteration the breaker trips on. */
  lemma {:induction false} RunStopsAt(i: nat, k: nat, total: int, inputs: seq<RequestPart>, prompts: nat -> string,
                                      respond: (nat, nat) -> Outcome)
    requires i < k <= total
    requires k < total ==> Uninterrupted(k, total, inputs, prompts, respond).quota >= BreakerThreshold
    requires forall j | i < j < k :: Uninterrupted(j, total, inputs, prompts, respond).quota < BreakerThreshold
    ensures RunFrom(i, total, inputs, prompts, respond, Uninterrupted(i, total, inputs, prompts, respond))
         == Uninterrupted(k, total, inputs, prompts, respond)
    decreases k - i
  {
    var s1 := Uninterrupted(i + 1, total, inputs, prompts, respond);
    assert s1 == Iteration(i, total, inputs, prompts, respond, Uninterrupted(i, total, inputs, prompts, respond));
    if i + 1 < k {
      assert s1.quota < BreakerThreshold;
      RunStopsAt(i + 1, k, total, inputs, prompts, respond);
    } else if s1.quota < BreakerThreshold {
      assert RunFrom(i + 1, total, inputs, prompts, respond, s1) == s1;
    }
  }

  /** The reports of the first `n` uninterrupted iterations are the first `n` percentages. */
  lemma {:induction false} UninterruptedReports(n: nat, total: int, inputs: seq<RequestPart>, prompts: nat -> string,
                                                respond: (nat, nat) -> Outcome)
    requires n <= total
    ensures Progresses(Uninterrupted(n, total, inputs, prompts, respond).events) == ProgressList(total, 0, n)
  {
    if n > 0 {
      UninterruptedReports(n - 1, total, inputs, prompts, respond);
      UninterruptedStep(n, total, inputs, prompts, respond);
      ProgressListSnoc(total, 0, n - 1);
    }
  }

  /** The `n`-th uninterrupted iteration adds its own report. */
  lemma UninterruptedStep(n: nat, total: int, inputs: seq<RequestPart>, prompts: nat -> string,
                          respond: (nat, nat) -> Outcome)
    requires 0 < n <= total
    ensures Progresses(Uninterrupted(n, total, inputs, prompts, respond).events)
         == Progresses(Uninterrupted(n - 1, total, inputs, prompts, respond).events) + [RoundRatio(100 * n, total)]
  {
    IterationProgress(n - 1, total, inputs, prompts, respond, Uninterrupted(n - 1, total, inputs, prompts, respond));
  }

  /** A report list grows at the end, one iteration at a time. */
  lemma {:induction false} ProgressListSnoc(total: nat, lo: nat, hi: nat)
    requires lo <= hi < total
    ensures ProgressList(total, lo, hi + 1) == ProgressList(total, lo, hi) + [RoundRatio(100 * (hi + 1), total)]
    decreases hi - lo
  {
    if lo < hi {
      ProgressListSnoc(total, lo + 1, hi);
    }
  }

  /**
   * The breaker, both ways: the loop runs the iterations up to and including
   * the first that leaves the counter at the threshold, or all of them when
   * none does, and it reports once for each of those iterations.
   */
  lemma BreakerHalts(k: nat, total: int, inputs: seq<RequestPart>, prompts: nat -> string,
                     respond: (nat, nat) -> Outcome)
    requires TripsAt(k, total, inputs, prompts, respond)
    ensures var r := RunFrom(0, total, inputs, prompts, respond, RunState([], 0, []));
      r == Uninterrupted(k, total, inputs, prompts, respond) &&
      Progresses(r.events) == ProgressList(total, 0, k)
  {
    RunStopsAt(0, k, total, inputs, prompts, respond);
    UninterruptedReports(k, total, inputs, prompts, respond);
  }

  /** An iteration that leaves the counter at the threshold is the last one the loop runs. */
  lemma BreakerStops(i: nat, total: int, inputs: seq<RequestPart>, prompts: nat -> string,
                     respond: (nat, nat) -> Outcome, s: RunState)
    requires i < total && Iteration(i, total, inputs, prompts, respond, s).quota >= BreakerThreshold
    ensures RunFrom(i, total, inputs, prompts, respond, s) == Iteration(i, total, inputs, prompts, respond, s)
  {
  }

  /** Every batch with iterations has the one iteration its breaker trips on. */
  lemma {:induction false} TripExists(total: int, inputs: seq<RequestPart>, prompts: nat -> string,
                                      respond: (nat, nat) -> Outcome)
    requires total > 0
    ensures exists k :: TripsAt(k, total, inputs, prompts, respond)
  {
    var k: nat := 1;
    while k < total && Uninterrupted(k, total, inputs, prompts, respond).quota < BreakerThreshold
      invariant 1 <= k <= total
      invariant forall j | 0 < j < k :: Uninterrupted(j, total, inputs, prompts, respond).quota < BreakerThreshold
      decreases total - k
    {
      k := k + 1;
    }
    assert TripsAt(k, total, inputs, prompts, respond);
  }

  // ------------------------------------------------------------- the batch

  /** The whole loop, from the empty state. */
  lemma BatchRun(total: int, inputs: seq<RequestPart>, prompts: nat -> string, respond: (nat, nat) -> Outcome)
    ensures var r := RunFrom(0, total, inputs, prompts, respond, RunState([], 0, []));
      (total <= 0 ==> r == RunState([], 0, [])) &&
      (total > 0 ==> ReportsFrom(0, total, [], Progresses(r.events), r.quota)) &&
      TraceOk(r.events, inputs, prompts, total) && ImagesOk(r.images, respond, total)
  {
    if total > 0 {
      var s := RunState([], 0, []);
      RunReports(0, total, inputs, prompts, respond, s);
      RunKeeps(0, total, inputs, prompts, respond, s);
    }
  }

  /** The images the call was given, as sent with every request of a batch. */
  function BatchInputs(product: Payload, o: GenerationOptions, customModel: Option<SourceImage>): seq<RequestPart>
  {
    [ImageInput(product)] +
    if UsesCustomModel(o, customModel) && Normalize(customModel.value).Ok? then
      [ImageInput(Normalize(customModel.value).value)]
    else []
  }

  /**
   * A batch whose images could be pre-processed: every call carries the
   * product image, then the reference model when one is used, then the
   * prompt of its own iteration; every wait is a pacing or backoff delay;
   * every image returned comes from a response of an iteration of the
   * batch.
   */
  lemma GenerateTrace(productImage: SourceImage, o: GenerationOptions, customModel: Option<SourceImage>,
                      respond: (nat, nat) -> Outcome, draws: nat -> Picks)
    requires Normalize(productImage).Ok?
    requires UsesCustomModel(o, customModel) ==> Normalize(customModel.value).Ok?
    ensures var b := Generate(productImage, o, customModel, respond, draws);
      var has := UsesCustomModel(o, customModel);
      var inputs := BatchInputs(Normalize(productImage).value, o, customModel);
      |inputs| == (if has then 2 else 1) &&
      TraceOk(b.events, inputs, PromptSchedule(o, BatchSeed(o, has, draws), has, draws), o.numImages) &&
      (b.result.Ok? ==> ImagesOk(b.result.value, respond, o.numImages))
  {
    var has := UsesCustomModel(o, customModel);
    var inputs := BatchInputs(Normalize(productImage).value, o, customModel);
    BatchRun(o.numImages, inputs, PromptSchedule(o, BatchSeed(o, has, draws), has, draws), respond);
  }

  /**
   * The loop's verdict and reports from the empty state: one report per
   * iteration run, at least one when there is any iteration; it ends before
   * the last iteration only when the breaker has tripped, and then the
   * verdict is never the generic "no image" error. With no iterations the
   * verdict is that error.
   */
  lemma BatchVerdict(total: int, inputs: seq<RequestPart>, prompts: nat -> string, respond: (nat, nat) -> Outcome)
    ensures var r := RunFrom(0, total, inputs, prompts, respond, RunState([], 0, []));
      var reports := Progresses(r.events);
      (total <= 0 ==> Finish(r) == Err(NoImagesMessage) && r.events == []) &&
      (total > 0 ==>
        1 <= |reports| <= total && reports == ProgressList(total, 0, |reports|) &&
        (|reports| < total ==> Finish(r).Ok? || Finish(r) == Err(RateLimitMessage)))
  {
    BatchRun(total, inputs, prompts, respond);
  }

  /** `BatchVerdict` for a whole call whose images could be pre-processed. */
  lemma GenerateReports(productImage: SourceImage, o: GenerationOptions, customModel: Option<SourceImage>,
                        respond: (nat, nat) -> Outcome, draws: nat -> Picks)
    requires Normalize(productImage).Ok?
    requires UsesCustomModel(o, customModel) ==> Normalize(customModel.value).Ok?
    ensures var b := Generate(productImage, o, customModel, respond, draws);
      var reports := Progresses(b.events);
      (o.numImages <= 0 ==> b == Batch(Err(NoImagesMessage), [])) &&
      (o.numImages > 0 ==>
        1 <= |reports| <= o.numImages && reports == ProgressList(o.numImages, 0, |reports|) &&
        (|reports| < o.numImages ==> b.result.Ok? || b.result == Err(RateLimitMessage)))
  {
    var has := UsesCustomModel(o, customModel);
    var inputs := BatchInputs(Normalize(productImage).value, o, customModel);
    BatchVerdict(o.numImages, inputs, PromptSchedule(o, BatchSeed(o, has, draws), has, draws), respond);
  }

  /**
   * The breaker for a whole call whose images could be pre-processed: the
   * call's trace and verdict are those of the iterations up to the one the
   * breaker trips on, with one report each.
   */
  lemma GenerateHalts(productImage: SourceImage, o: GenerationOptions, customModel: Option<SourceImage>,
                      respond: (nat, nat) -> Outcome, draws: nat -> Picks, k: nat)
    requires Normalize(productImage).Ok?
    requires UsesCustomModel(o, customModel) ==> Normalize(customModel.value).Ok?
    requires var has := UsesCustomModel(o, customModel);
      TripsAt(k, o.numImages, BatchInputs(Normalize(productImage).value, o, customModel),
              PromptSchedule(o, BatchSeed(o, has, draws), has, draws), respond)
    ensures var has := UsesCustomModel(o, customModel);
      var u := Uninterrupted(k, o.numImages, BatchInputs(Normalize(productImage).value, o, customModel),
                             PromptSchedule(o, BatchSeed(o, has, draws), has, draws), respond);
      var b := Generate(productImage, o, customModel, respond, draws);
      b == Batch(Finish(u), u.events) && |Progresses(b.events)| == k
  {
    var has := UsesCustomModel(o, customModel);
    var inputs := BatchInputs(Normalize(productImage).value, o, customModel);
    BreakerHalts(k, o.numImages, inputs, PromptSchedule(o, BatchSeed(o, has, draws), has, draws), respond);
  }

  /**
   * The ways a call can fail: an image that does not decode (an error
   * without a message), no drawing surface, or one of the two verdicts of
   * the loop. Only the loop's verdicts come after calls to the service.
   */
  lemma GenerateFailures(productImage: SourceImage, o: GenerationOptions, customModel: Option<SourceImage>,
                         respond: (nat, nat) -> Outcome, draws: nat -> Picks)
    ensures var b := Generate(productImage, o, customModel, respond, draws);
      b.result.Err? ==>
        (b.result.error == "" || b.result.error == CanvasFailedMessage ==> b.events == []) &&
        (b.result.error == "" || b.result.error == CanvasFailedMessage ||
         b.result.error == RateLimitMessage || b.result.error == NoImagesMessage)
  {
    assert CanvasFailedMessage != RateLimitMessage && CanvasFailedMessage != NoImagesMessage;
  }
}
