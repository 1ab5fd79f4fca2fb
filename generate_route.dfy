/**
 * The `POST` handler of src/app/api/generate/route.ts: a guard chain over the
 * parsed JSON body that either answers 400 or calls the URL-based generator,
 * then maps its outcome to 200 or 500.
 *
 * Parsing the body and running the generator are foreign: their outcomes are
 * parameters, and the handler returns the call it makes, if any.
 */
module GenerateRoute {
  import opened JsCommon

  /** The `GenerationResponse` record serialised as the response body. */
  datatype GenerationResponse = GenerationResponse(success: bool, videoUrl: Option<string>, error: Option<string>)

  datatype Response = Response(status: nat, body: GenerationResponse)

  /** The fields the handler destructures from the body; `None` is `undefined`. */
  datatype RequestBody = RequestBody(photos: Option<Json>, text: Option<Json>, duration: Option<Json>)

  /** The options handed to `VideoGenerator.generateVideo`. */
  datatype GenerateCall = GenerateCall(photos: seq<Json>, text: string, duration: Json)

  const PhotosMissing := "請提供至少一張照片"
  const TextMissing := "請提供文字內容"
  const GenerationFailed := "影片生成失敗"
  const SecondsPerPhoto := 5

  function Failure(status: nat, message: string): Response
  {
    Response(status, GenerationResponse(false, None, Some(message)))
  }

  /** `duration || photos.length * 5`: a falsy duration (missing, 0, "", null, false) falls back to five seconds per photo. */
  function DefaultedDuration(duration: Option<Json>, photoCount: nat): (d: Json)
    ensures Truthy(duration) ==> d == duration.value
    ensures !Truthy(duration) ==> d == JNumber((SecondsPerPhoto * photoCount) as real)
  {
    if Truthy(duration) then duration.value else JNumber((SecondsPerPhoto * photoCount) as real)
  }

  /** The text guard `!text || typeof text !== 'string'` fails exactly for a truthy string. */
  predicate IsNonEmptyString(v: Option<Json>)
    ensures IsNonEmptyString(v) <==> Truthy(v) && v.Some? && v.value.JString?
  {
    v.Some? && v.value.JString? && v.value.s != ""
  }

  /**
   * `POST`: a body that cannot be parsed answers 500; photos that are not a
   * non-empty array answer 400 before the text is looked at; a text that is
   * not a non-empty string answers 400; otherwise the generator is called once
   * and its URL answers 200, its error 500. The generator is called only when
   * both guards pass.
   */
  function Post(body: Outcome<RequestBody>, generated: Outcome<string>): (r: (Response, Option<GenerateCall>))
    ensures body.Threw? ==> r == (Failure(500, MessageOr(body.error, GenerationFailed)), None)
    ensures body.Returned? && !IsNonEmptyArray(body.value.photos) ==> r == (Failure(400, PhotosMissing), None)
    ensures body.Returned? && IsNonEmptyArray(body.value.photos) && !IsNonEmptyString(body.value.text) ==>
      r == (Failure(400, TextMissing), None)
    ensures r.1.Some? <==> body.Returned? && IsNonEmptyArray(body.value.photos) && IsNonEmptyString(body.value.text)
    ensures r.1.Some? ==>
      var items := body.value.photos.value.items;
      && r.1.value == GenerateCall(items, body.value.text.value.s, DefaultedDuration(body.value.duration, |items|))
      && (generated.Returned? ==> r.0 == Response(200, GenerationResponse(true, Some(generated.value), None)))
      && (generated.Threw? ==> r.0 == Failure(500, MessageOr(generated.error, GenerationFailed)))
    ensures r.0.status == 200 <==> r.1.Some? && generated.Returned?
  {
    match body
    case Threw(e) => (Failure(500, MessageOr(e, GenerationFailed)), None)
    case Returned(req) =>
      if !IsNonEmptyArray(req.photos) then (Failure(400, PhotosMissing), None)
      else if !IsNonEmptyString(req.text) then (Failure(400, TextMissing), None)
      else
        var items := req.photos.value.items;
        var call := GenerateCall(items, req.text.value.s, DefaultedDuration(req.duration, |items|));
        match generated
        case Returned(url) => (Response(200, GenerationResponse(true, Some(url), None)), Some(call))
        case Threw(e) => (Failure(500, MessageOr(e, GenerationFailed)), Some(call))
  }

  /** A zero duration is treated as missing: the generator gets five seconds per photo. */
  lemma ZeroDurationDefaults(items: seq<Json>, text: string, generated: Outcome<string>)
    requires |items| > 0 && text != ""
    ensures var body := RequestBody(Some(JArray(items)), Some(JString(text)), Some(JNumber(0.0)));
      Post(Returned(body), generated).1 == Some(GenerateCall(items, text, JNumber((5 * |items|) as real)))
  {
  }

  /** Missing photos are reported even when the text is missing too. */
  lemma PhotosCheckedBeforeText(text: Option<Json>, duration: Option<Json>, generated: Outcome<string>)
    ensures Post(Returned(RequestBody(None, text, duration)), generated) == (Failure(400, PhotosMissing), None)
    ensures Post(Returned(RequestBody(Some(JArray([])), text, duration)), generated) == (Failure(400, PhotosMissing), None)
  {
  }
}
