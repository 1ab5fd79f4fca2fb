/**
 * The handler of src/pages/api/memories/video.ts: only `POST` is allowed;
 * `photos`, `text` and `duration` must all be truthy and `photos` a
 * non-empty array; then the URL-based generator is called and its URL (200)
 * or a fixed failure message (500) is returned.
 *
 * The generator is foreign: its outcome is a parameter, and the handler
 * returns the call it makes, if any.
 */
module MemoriesVideoApi {
  import opened JsCommon

  datatype Reply = Message(message: string) | UrlReply(url: string)

  datatype Response = Response(status: nat, body: Reply)

  /** The request method and the body fields; `None` is `undefined`. */
  datatype Request = Request(httpMethod: string, photos: Option<Json>, text: Option<Json>, duration: Option<Json>)

  /** The options handed to `VideoGenerator.generateVideo`, passed on as they came. */
  datatype GenerateCall = GenerateCall(photos: seq<Json>, text: Json, duration: Json)

  const OnlyPost := "只允許 POST 請求"
  const MissingParameters := "缺少必要參數"
  const NeedOnePhoto := "至少需要一張照片"
  const GenerationFailed := "影片生成失敗"

  /**
   * `handler`: 405 for any method but `POST`, before anything else; 400 when
   * a field is falsy (a zero duration included); 400 when photos is not a
   * non-empty array; otherwise one generator call, answered 200 with its URL
   * or 500 with a fixed message whatever was thrown.
   */
  function Handler(req: Request, generated: Outcome<string>): (r: (Response, Option<GenerateCall>))
    ensures req.httpMethod != "POST" ==> r == (Response(405, Message(OnlyPost)), None)
    ensures req.httpMethod == "POST" && !(Truthy(req.photos) && Truthy(req.text) && Truthy(req.duration)) ==>
      r == (Response(400, Message(MissingParameters)), None)
    ensures (req.httpMethod == "POST" && Truthy(req.photos) && Truthy(req.text) && Truthy(req.duration)
             && !IsNonEmptyArray(req.photos)) ==> r == (Response(400, Message(NeedOnePhoto)), None)
    ensures r.1.Some? <==>
      req.httpMethod == "POST" && Truthy(req.text) && Truthy(req.duration) && IsNonEmptyArray(req.photos)
    ensures r.1.Some? ==>
      && r.1.value == GenerateCall(req.photos.value.items, req.text.value, req.duration.value)
      && (generated.Returned? ==> r.0 == Response(200, UrlReply(generated.value)))
      && (generated.Threw? ==> r.0 == Response(500, Message(GenerationFailed)))
  {
    if req.httpMethod != "POST" then (Response(405, Message(OnlyPost)), None)
    else if !Truthy(req.photos) || !Truthy(req.text) || !Truthy(req.duration) then
      (Response(400, Message(MissingParameters)), None)
    else if !IsNonEmptyArray(req.photos) then (Response(400, Message(NeedOnePhoto)), None)
    else
      var call := GenerateCall(req.photos.value.items, req.text.value, req.duration.value);
      match generated
      case Returned(url) => (Response(200, UrlReply(url)), Some(call))
      case Threw(_) => (Response(500, Message(GenerationFailed)), Some(call))
  }

  /** An empty photo array is truthy, so it passes the first guard and is refused by the second. */
  lemma EmptyArrayRefusedBySecondGuard(text: Json, duration: Json, generated: Outcome<string>)
    requires Truthy(Some(text)) && Truthy(Some(duration))
    ensures Handler(Request("POST", Some(JArray([])), Some(text), Some(duration)), generated).0 == Response(400, Message(NeedOnePhoto))
  {
  }
}
