/**
 * The handler of src/pages/api/demo/generate.ts: only `POST` is allowed; a
 * review needs a truthy `reviewText` and photos with a truthy length; then the
 * review text is enhanced, the service-level generator is called with the
 * enhanced text and a fixed 15-second duration, and its result is mapped to
 * 200 or 500.
 *
 * The text enhancer and the generator are foreign: their outcomes are
 * parameters, and the handler returns the calls it makes, in order.
 */
module DemoGenerateApi {
  import opened JsCommon
  import ServicesVideoGenerator

  /** The review fields the handler reads; `None` is `undefined`. */
  datatype Review = Review(reviewText: Option<Json>, productName: Option<Json>, rating: Option<Json>, photos: Option<Json>)

  /** `GenerateResponse`: the generator's result fields plus the optional enhanced text. */
  datatype GenerateResponse = GenerateResponse(success: bool, videoUrl: Option<string>, error: Option<string>, enhancedText: Option<string>)

  datatype Response = Response(status: nat, body: GenerateResponse)

  datatype Call =
    | Enhance(review: Json, productName: Option<Json>, rating: Option<Json>)
    | Generate(photos: Json, text: string, duration: real)

  const FixedDuration: real := 15.0
  const UnknownError := "未知錯誤"

  function Failure(status: nat, message: string): Response
  {
    Response(status, GenerateResponse(false, None, Some(message), None))
  }

  /**
   * `review.photos?.length` is truthy: a non-empty array or string, or an
   * object whose `length` property is truthy; `null`, `undefined`, booleans
   * and numbers have no length.
   */
  predicate HasPhotos(photos: Option<Json>)
    ensures HasPhotos(photos) ==> Truthy(photos)
    ensures photos.Some? && photos.value.JArray? ==> (HasPhotos(photos) <==> |photos.value.items| > 0)
    ensures photos.Some? && photos.value.JObject? ==> (HasPhotos(photos) <==> Truthy(photos.value.length))
    ensures photos.None? || photos == Some(JNull) ==> !HasPhotos(photos)
  {
    photos.Some? &&
    match photos.value
    case JArray(items) => |items| > 0
    case JString(s) => |s| > 0
    case JObject(length) => Truthy(length)
    case _ => false
  }

  function WithoutEnhancedText(g: ServicesVideoGenerator.VideoGenerationResult): GenerateResponse
  {
    GenerateResponse(g.success, g.videoUrl, g.error, None)
  }

  /**
   * `handler`: 405 for any method but `POST`; 400 with no collaborator
   * called when the review text or the photos are missing; otherwise the
   * enhancer is called with the raw review, and, when it returns, the
   * generator is called with the enhanced text and 15 seconds. A failed
   * generation is passed through unchanged with 500; a successful one gets
   * the enhanced text added and 200; a thrown error gives 500 with its message.
   */
  function Handler(httpMethod: string, review: Review, enhanced: Outcome<string>, generated: ServicesVideoGenerator.VideoGenerationResult): (r: (Response, seq<Call>))
    ensures httpMethod != "POST" ==> r == (Failure(405, "Method not allowed"), [])
    ensures httpMethod == "POST" && !(Truthy(review.reviewText) && HasPhotos(review.photos)) ==>
      r == (Failure(400, "Missing required fields"), [])
    ensures httpMethod == "POST" && Truthy(review.reviewText) && HasPhotos(review.photos) ==>
      var enhance := Enhance(review.reviewText.value, review.productName, review.rating);
      && (enhanced.Threw? ==> r == (Failure(500, MessageOr(enhanced.error, UnknownError)), [enhance]))
      && (enhanced.Returned? ==>
            && r.1 == [enhance, Generate(review.photos.value, enhanced.value, FixedDuration)]
            && (!generated.success ==> r.0 == Response(500, WithoutEnhancedText(generated)))
            && (generated.success ==> r.0 == Response(200,
                  GenerateResponse(true, generated.videoUrl, generated.error, Some(enhanced.value)))))
    ensures r.0.status == 200 ==> r.0.body.success && r.0.body.enhancedText.Some?
  {
    if httpMethod != "POST" then (Failure(405, "Method not allowed"), [])
    else if !Truthy(review.reviewText) || !HasPhotos(review.photos) then (Failure(400, "Missing required fields"), [])
    else
      var enhance := Enhance(review.reviewText.value, review.productName, review.rating);
      match enhanced
      case Threw(e) => (Failure(500, MessageOr(e, UnknownError)), [enhance])
      case Returned(text) =>
        var calls := [enhance, Generate(review.photos.value, text, FixedDuration)];
        if !generated.success then (Response(500, WithoutEnhancedText(generated)), calls)
        else (Response(200, GenerateResponse(true, generated.videoUrl, generated.error, Some(text))), calls)
  }

  /** The generator never sees the raw review: its text is the enhancer's and its duration is 15. */
  lemma GeneratorGetsEnhancedText(review: Review, text: string, generated: ServicesVideoGenerator.VideoGenerationResult, k: nat)
    requires k < |Handler("POST", review, Returned(text), generated).1|
    requires Handler("POST", review, Returned(text), generated).1[k].Generate?
    ensures Handler("POST", review, Returned(text), generated).1[k].text == text
    ensures Handler("POST", review, Returned(text), generated).1[k].duration == FixedDuration
    ensures k == 1 && Handler("POST", review, Returned(text), generated).1[0].Enhance?
  {
  }

  /**
   * An object with a truthy `length` passes the photo guard: both services are
   * called, the generator with that object, and a failed generation (the
   * generator cannot iterate an object) answers 500.
   */
  lemma ArrayLikePhotosReachGenerator(review: Review, len: Json, text: string, generated: ServicesVideoGenerator.VideoGenerationResult)
    requires Truthy(review.reviewText) && review.photos == Some(JObject(Some(len))) && Truthy(Some(len))
    ensures Handler("POST", review, Returned(text), generated).1 ==
      [Enhance(review.reviewText.value, review.productName, review.rating), Generate(JObject(Some(len)), text, FixedDuration)]
    ensures !generated.success ==> Handler("POST", review, Returned(text), generated).0.status == 500
  {
  }
}
