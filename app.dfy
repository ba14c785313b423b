/**
 * The generate button of the main screen: the guards that keep a batch from
 * starting, the state reset when one starts, the classification of a failed
 * batch into an overload (which starts a one-minute cooldown) and any other
 * failure, and the once-a-second countdown of that cooldown.
 */
module AppState {
  import opened Wrappers
  import opened Text
  import opened Types
  import opened Normalizer
  import opened Prompt
  import opened Mockups

  const MissingImageMessage := "Vui lòng upload ảnh" + " sản phẩm gốc trước."
  const GenericFailureMessage := "Đã có lỗi xảy ra khi" + " tạo mockup. Vui" + " lòng thử lại."
  const OverloadedMessage := "Hệ thống đang quá" + " tải (Limit" + " Exceeded). Vui lòng" + " đợi trong giây lát."
  const CooldownSeconds: nat := 60

  /** A failure message the screen reads as the service being over its quota. */
  predicate IsQuotaMessage(message: string)
  {
    message == RateLimitMessage || Contains(message, "quota") || Contains(message, "429")
  }

  /** What the screen does with a failed batch: the message it shows, and whether the cooldown starts. */
  datatype FailureView = FailureView(shown: string, coolsDown: bool)

  /** A failure without a message (a decode error event) is shown as the generic failure. */
  function ViewFailure(message: string): (r: FailureView)
    ensures r.coolsDown <==> IsQuotaMessage(message)
    ensures r.shown != ""
    ensures r.coolsDown ==> r.shown == OverloadedMessage
    ensures !r.coolsDown ==> r.shown == (if message == "" then GenericFailureMessage else message)
  {
    if IsQuotaMessage(message) then FailureView(OverloadedMessage, true)
    else if message != "" then FailureView(message, false)
    else FailureView(GenericFailureMessage, false)
  }

  /** The state of the main screen that the generate button reads and writes. */
  class App {
    var options: GenerationOptions
    var originalImage: Option<SourceImage>
    var customModelImage: Option<SourceImage>
    var generatedImages: seq<GeneratedImage>
    var isLoading: bool
    var progress: int
    var error: Option<string>
    var cooldown: int

    /** The cooldown, in seconds, is never negative. */
    predicate Valid()
      reads this
    {
      cooldown >= 0
    }

    constructor(initial: GenerationOptions)
      ensures Valid()
      ensures options == initial && originalImage == None && customModelImage == None
      ensures generatedImages == [] && !isLoading && progress == 0 && error == None && cooldown == 0
    {
      options := initial;
      originalImage := None;
      customModelImage := None;
      generatedImages := [];
      isLoading := false;
      progress := 0;
      error := None;
      cooldown := 0;
    }

    /**
     * A click on the generate button. It returns the percentages the
     * progress bar shows while the batch runs.
     */
    method HandleGenerate(respond: (nat, nat) -> Outcome, draws: nat -> Picks) returns (reports: seq<int>)
      requires Valid()
      modifies this
      ensures Valid()
      ensures options == old(options) && originalImage == old(originalImage) &&
              customModelImage == old(customModelImage)
      ensures old(cooldown) > 0 ==>
        reports == [] && generatedImages == old(generatedImages) && isLoading == old(isLoading) &&
        progress == old(progress) && error == old(error) && cooldown == old(cooldown)
      ensures old(cooldown) == 0 && old(originalImage).None? ==>
        reports == [] && error == Some(MissingImageMessage) && generatedImages == old(generatedImages) &&
        isLoading == old(isLoading) && progress == old(progress) && cooldown == 0
      ensures old(cooldown) == 0 && old(originalImage).Some? ==>
        var b := Generate(old(originalImage).value, old(options), old(customModelImage), respond, draws);
        reports == Progresses(b.events) && !isLoading && progress == 0 &&
        generatedImages == (if b.result.Ok? then b.result.value else []) &&
        error == (if b.result.Ok? then None else Some(ViewFailure(b.result.error).shown)) &&
        cooldown == (if b.result.Err? && ViewFailure(b.result.error).coolsDown then CooldownSeconds else 0)
    {
      reports := [];
      if cooldown > 0 {
        return;
      }
      if originalImage.None? {
        error := Some(MissingImageMessage);
        return;
      }
      Start();
      var result, events := GenerateMockups(originalImage.value, options, customModelImage, respond, draws);
      reports := Progresses(events);
      Settle(result);
    }

    /** The state while a batch runs: loading, no progress yet, no error and no earlier results. */
    method Start()
      requires Valid()
      modifies this
      ensures Valid()
      ensures isLoading && progress == 0 && error == None && generatedImages == []
      ensures options == old(options) && originalImage == old(originalImage) &&
              customModelImage == old(customModelImage) && cooldown == old(cooldown)
    {
      isLoading := true;
      progress := 0;
      error := None;
      generatedImages := [];
    }

    /** The end of a started batch: its images or its failure, then loading is over. */
    method Settle(result: Result<seq<GeneratedImage>, string>)
      requires Valid() && cooldown == 0
      modifies this
      ensures Valid()
      ensures options == old(options) && originalImage == old(originalImage) &&
              customModelImage == old(customModelImage)
      ensures !isLoading && progress == 0
      ensures generatedImages == (if result.Ok? then result.value else old(generatedImages))
      ensures error == (if result.Ok? then old(error) else Some(ViewFailure(result.error).shown))
      ensures cooldown == (if result.Err? && ViewFailure(result.error).coolsDown then CooldownSeconds else 0)
    {
      if result.Ok? {
        generatedImages := result.value;
      } else {
        var message := GenericFailureMessage;
        var isQuota := result.error == RateLimitMessage ||
                       Contains(result.error, "quota") || Contains(result.error, "429");
        if isQuota {
          message := OverloadedMessage;
          cooldown := CooldownSeconds;
        } else if result.error != "" {
          message := result.error;
        }
        error := Some(message);
      }
      isLoading := false;
      progress := 0;
    }

    /** One second of the cooldown timer: it counts down while positive and stops at 0. */
    method Tick()
      requires Valid()
      modifies this
      ensures Valid()
      ensures cooldown == CooldownAfter(old(cooldown), 1)
      ensures options == old(options) && originalImage == old(originalImage) &&
              customModelImage == old(customModelImage) && generatedImages == old(generatedImages) &&
              isLoading == old(isLoading) && progress == old(progress) && error == old(error)
    {
      if cooldown > 0 {
        cooldown := cooldown - 1;
      }
    }
  }

  /** The cooldown left after `ticks` seconds, decrementing once a second while positive. */
  function CooldownAfter(cooldown: nat, ticks: nat): (r: nat)
    ensures r == if ticks >= cooldown then 0 else cooldown - ticks
    decreases ticks
  {
    if ticks == 0 || cooldown == 0 then cooldown else CooldownAfter(cooldown - 1, ticks - 1)
  }

  /**
   * How the screen treats each way a batch can fail: only the rate-limit
   * verdict counts as an overload; the other verdicts and the canvas failure
   * are shown as they are; a decode failure gets the generic message.
   */
  lemma FailureMessagesShown(e: string)
    requires e == "" || e == CanvasFailedMessage || e == RateLimitMessage || e == NoImagesMessage
    ensures ViewFailure(e).coolsDown <==> e == RateLimitMessage
    ensures e == "" <==> ViewFailure(e).shown == GenericFailureMessage
    ensures e != "" && e != RateLimitMessage ==> ViewFailure(e).shown == e
  {
    if e == RateLimitMessage {
      assert IsQuotaMessage(e);
      assert OverloadedMessage[0] != GenericFailureMessage[0];
    } else {
      NotQuotaMessage(e);
      if e != "" {
        assert e[0] != GenericFailureMessage[0];
      }
    }
  }

  /** None of the failures other than the rate-limit verdict reads as an overload. */
  lemma NotQuotaMessage(e: string)
    requires e == "" || e == CanvasFailedMessage || e == NoImagesMessage
    ensures !IsQuotaMessage(e)
  {
    assert 'q' in "quota" && '4' in "429";
    if e == NoImagesMessage {
      NoImagesNotQuota();
    } else {
      assert 'q' !in e && '4' !in e;
      MissingChar(e, "quota", 'q');
      MissingChar(e, "429", '4');
    }
  }

  lemma NoImagesNotQuota()
    ensures !IsQuotaMessage(NoImagesMessage)
  {
    var head, tail := "Không thể tạo ảnh.", " Vui lòng thử lại sau.";
    assert NoImagesMessage == head + tail;
    assert 'q' !in head && 'q' !in tail && '4' !in head && '4' !in tail;
    assert 'q' in "quota" && '4' in "429";
    MissingChar(NoImagesMessage, "quota", 'q');
    MissingChar(NoImagesMessage, "429", '4');
  }

  lemma BatchFailuresShown(productImage: SourceImage, o: GenerationOptions, customModel: Option<SourceImage>,
                           respond: (nat, nat) -> Outcome, draws: nat -> Picks)
    ensures var b := Generate(productImage, o, customModel, respond, draws);
      b.result.Err? ==>
        (ViewFailure(b.result.error).coolsDown <==> b.result.error == RateLimitMessage) &&
        (b.result.error == "" <==> ViewFailure(b.result.error).shown == GenericFailureMessage) &&
        (b.result.error != "" && b.result.error != RateLimitMessage ==> ViewFailure(b.result.error).shown == b.result.error)
  {
    var b := Generate(productImage, o, customModel, respond, draws);
    if b.result.Err? {
      GenerateFailures(productImage, o, customModel, respond, draws);
      FailureMessagesShown(b.result.error);
    }
  }

  /** After an overload the button refuses for exactly the first 60 ticks of the timer. */
  lemma CooldownBlocksFor(ticks: nat)
    ensures CooldownAfter(CooldownSeconds, ticks) > 0 <==> ticks < CooldownSeconds
  {
  }
}
