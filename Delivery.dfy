/**
 * The HTTP side of MsTeamsTarget: the request SendMessage would post, and the
 * response-to-error policy of CreateAndSendMessage. The transport itself is not
 * modelled; its response is an input.
 */
module Delivery {
  import opened Optional

  /** The media type SendMessage puts on the message content. */
  const JsonContentType: string := "application/json"

  /** The text in front of the reason phrase in the exception CreateAndSendMessage throws. */
  const FailurePrefix: string := "Rest Call Failed - "

  /** The POST SendMessage issues: target URL, content type and body. */
  datatype Request = Request(url: string, contentType: string, body: string)

  /** What the transport returns; `reasonPhrase` is `None` where .NET's `ReasonPhrase` is null. */
  datatype HttpResponse = HttpResponse(statusCode: int, reasonPhrase: Option<string>)

  /** How a render-and-send step ends: normally, or with an InvalidOperationException and its message. */
  datatype Outcome = Completed | Failed(message: string)

  /** HttpResponseMessage.IsSuccessStatusCode: the status code is in 200..299. */
  function IsSuccessStatusCode(response: HttpResponse): (b: bool)
    ensures b <==> response.statusCode >= 0 && response.statusCode / 100 == 2
  {
    200 <= response.statusCode <= 299
  }

  /** The request SendMessage builds for one message. */
  function PostJson(url: string, logMessage: string): (r: Request)
    ensures r.url == url && r.body == logMessage && r.contentType == JsonContentType
  {
    Request(url, JsonContentType, logMessage)
  }

  /** String interpolation of a possibly null reason phrase: null becomes the empty string. */
  function ReasonText(reasonPhrase: Option<string>): (r: string)
    ensures reasonPhrase.Some? ==> r == reasonPhrase.value
    ensures r == [] <==> reasonPhrase == None || reasonPhrase == Some([])
  {
    match reasonPhrase
    case None => ""
    case Some(text) => text
  }

  /**
   * The check after the POST: a non-success status fails with
   * "Rest Call Failed - " followed by the reason phrase; any other completes.
   */
  function CheckResponse(response: HttpResponse): (o: Outcome)
    ensures o.Completed? <==> 200 <= response.statusCode <= 299
    ensures o.Failed? ==> o.message == "Rest Call Failed - " + ReasonText(response.reasonPhrase)
  {
    if !IsSuccessStatusCode(response) then
      Failed(FailurePrefix + ReasonText(response.reasonPhrase))
    else
      Completed
  }

  /**
   * The failure message carries the reason phrase verbatim: dropping the fixed
   * prefix gives it back, so two failures differ exactly when their reasons do.
   */
  lemma FailureMessageCarriesReason(r1: HttpResponse, r2: HttpResponse)
    requires !IsSuccessStatusCode(r1) && !IsSuccessStatusCode(r2)
    ensures CheckResponse(r1).message[|FailurePrefix|..] == ReasonText(r1.reasonPhrase)
    ensures CheckResponse(r1) == CheckResponse(r2) <==> ReasonText(r1.reasonPhrase) == ReasonText(r2.reasonPhrase)
  {
  }

  /** A 500 "Server Error" response fails with that reason; a 200 completes. */
  lemma ServerErrorExample()
    ensures CheckResponse(HttpResponse(500, Some("Server Error"))) == Failed("Rest Call Failed - Server Error")
    ensures CheckResponse(HttpResponse(200, Some("OK"))) == Completed
  {
  }
}
