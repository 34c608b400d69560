/**
 The `make-call` serverless function: it validates the form submission,
 builds the payload for the call server with its defaults, forwards it, and
 maps the server's answer to its own reply. Every reply carries the same
 cross-origin headers.
 */
module MakeCall {
  import opened Common
  import opened Json

  datatype Request = Request(httpMethod: string, body: Parse)

  const Cors: map<string, string> := map[
    "Access-Control-Allow-Origin" := "*",
    "Access-Control-Allow-Headers" := "Content-Type",
    "Access-Control-Allow-Methods" := "POST, OPTIONS"]

  datatype Response = Response(statusCode: nat, headers: map<string, string>, body: Json)

  /** How the call server answered the forwarded request. */
  datatype Backend =
    | FetchFailed(error: string)
    | NotOk(status: nat)
    | OkUnparseable(error: string)
    | OkJson(result: Json)

  /**
   A reply together with the payload forwarded to the call server, if the
   request got that far; or a throw outside every `try`.
   */
  datatype Outcome = Done(response: Response, forwarded: Option<Json>) | Threw(error: string)

  const EmailMessage := "Email is required when \"Send to email\" is selected"

  /** The metadata sent along: absent or falsy fields take their defaults. */
  function MetadataOf(data: Json, timestamp: string): Json
  {
    JObject(map[
      "email" := Or(Get(data, "email"), JNull),
      "sendToEmail" := Or(Get(data, "sendToEmail"), JBool(false)),
      "knowDates" := Or(Get(data, "knowDates"), JString("no")),
      "travelDetails" := Or(Get(data, "travelDetails"), JNull),
      "source" := JString("netlify-frontend"),
      "timestamp" := JString(timestamp)])
  }

  /** `backendPayload`. `timestamp` is the ISO time of the request. */
  function PayloadOf(data: Json, timestamp: string): Json
    requires Given(Get(data, "phoneNumber"))
  {
    JObject(map[
      "phoneNumber" := Get(data, "phoneNumber").value,
      "language" := Or(Get(data, "language"), JString("en-US")),
      "metadata" := MetadataOf(data, timestamp)])
  }

  /** The reply once the payload has been forwarded. */
  function Answer(backend: Backend): (r: Response)
    ensures r.headers == Cors
  {
    match backend
    case OkJson(result) => Response(200, Cors, result)
    case NotOk(status) =>
      Response(500, Cors, Failure("Failed to forward call request: Server responded with status: " + Decimal(status)))
    case FetchFailed(error) => Response(500, Cors, Failure("Failed to forward call request: " + error))
    case OkUnparseable(error) => Response(500, Cors, Failure("Failed to forward call request: " + error))
  }

  /** The handler: method, body, phone present, email when asked for, then forward. */
  function Handle(req: Request, timestamp: string, backend: Backend): (r: Outcome)
    ensures r.Done? ==> r.response.headers == Cors
  {
    if req.httpMethod != "POST" then Done(Response(405, Cors, Failure("Method Not Allowed")), None)
    else if req.body.Unparseable? then Done(Response(400, Cors, Failure("Invalid request body")), None)
    else
      var data := req.body.value;
      if data == JNull then Threw("TypeError: Cannot destructure 'data' as it is null.")
      else if !Given(Get(data, "phoneNumber")) then
        Done(Response(400, Cors, Failure("Phone number is required")), None)
      else if Given(Get(data, "sendToEmail")) && !Given(Get(data, "email")) then
        Done(Response(400, Cors, Failure(EmailMessage)), None)
      else
        Done(Answer(backend), Some(PayloadOf(data, timestamp)))
  }

  /** A request passes validation: POST, a parsed non-null body, a phone number, and an email whenever one is asked for. */
  predicate Valid(req: Request)
  {
    && req.httpMethod == "POST"
    && req.body.Parsed?
    && req.body.value != JNull
    && Given(Get(req.body.value, "phoneNumber"))
    && (Given(Get(req.body.value, "sendToEmail")) ==> Given(Get(req.body.value, "email")))
  }

  /** A method other than POST gets 405 whatever the body, and nothing is forwarded. */
  lemma MethodCheckedFirst(verb: string, body: Parse, timestamp: string, backend: Backend)
    requires verb != "POST"
    ensures Handle(Request(verb, body), timestamp, backend)
         == Done(Response(405, Cors, Failure("Method Not Allowed")), None)
  {
  }

  /** A body that does not parse gets 400, and nothing is forwarded. */
  lemma UnparseableBodyRefused(timestamp: string, backend: Backend)
    ensures Handle(Request("POST", Unparseable), timestamp, backend)
         == Done(Response(400, Cors, Failure("Invalid request body")), None)
  {
  }

  /** A missing number is reported as such even when an email is also missing: the phone is checked first. */
  lemma PhoneCheckedBeforeEmail(data: Json, timestamp: string, backend: Backend)
    requires data != JNull && !Given(Get(data, "phoneNumber"))
    ensures Handle(Request("POST", Parsed(data)), timestamp, backend)
         == Done(Response(400, Cors, Failure("Phone number is required")), None)
  {
  }

  /** The email refusal happens exactly when a number is given, `sendToEmail` is truthy and the email is not. */
  lemma EmailRequiredIff(data: Json, timestamp: string, backend: Backend)
    requires data != JNull
    ensures var r := Handle(Request("POST", Parsed(data)), timestamp, backend);
      (r == Done(Response(400, Cors, Failure(EmailMessage)), None)) <==>
        (Given(Get(data, "phoneNumber")) && Given(Get(data, "sendToEmail")) && !Given(Get(data, "email")))
  {
    var r := Handle(Request("POST", Parsed(data)), timestamp, backend);
    if !Given(Get(data, "phoneNumber")) {
      assert Failure("Phone number is required") != Failure(EmailMessage) by {
        assert Failure("Phone number is required").fields["message"] != Failure(EmailMessage).fields["message"];
      }
    } else if !(Given(Get(data, "sendToEmail")) && !Given(Get(data, "email"))) {
      assert r.forwarded.Some?;
    }
  }

  /** The call server is contacted exactly for valid requests, and then with the built payload. */
  lemma ForwardedIffValid(req: Request, timestamp: string, backend: Backend)
    ensures var r := Handle(req, timestamp, backend);
      (r.Done? && r.forwarded.Some?) <==> Valid(req)
    ensures var r := Handle(req, timestamp, backend);
      Valid(req) ==> r == Done(Answer(backend), Some(PayloadOf(req.body.value, timestamp)))
  {
  }

  /**
   With only a number in the form, the payload carries the defaults:
   language "en-US", no email, `sendToEmail` false, `knowDates` "no", no
   travel details, and the source "netlify-frontend".
   */
  lemma PayloadDefaults(phone: Json, timestamp: string)
    requires Truthy(phone)
    ensures var p := PayloadOf(JObject(map["phoneNumber" := phone]), timestamp);
      && p.fields["phoneNumber"] == phone
      && p.fields["language"] == JString("en-US")
      && p.fields["metadata"].fields["email"] == JNull
      && p.fields["metadata"].fields["sendToEmail"] == JBool(false)
      && p.fields["metadata"].fields["knowDates"] == JString("no")
      && p.fields["metadata"].fields["travelDetails"] == JNull
      && p.fields["metadata"].fields["source"] == JString("netlify-frontend")
  {
  }

  /** Truthy form fields pass into the payload unchanged. */
  lemma PayloadPassesThrough(data: Json, timestamp: string, key: string)
    requires Given(Get(data, "phoneNumber"))
    requires key in {"email", "sendToEmail", "knowDates", "travelDetails"}
    requires Given(Get(data, key))
    ensures PayloadOf(data, timestamp).fields["metadata"].fields[key] == data.fields[key]
    ensures Given(Get(data, "language")) ==> PayloadOf(data, timestamp).fields["language"] == data.fields["language"]
  {
  }

  /**
   The reply to a forwarded request: the server's JSON, unchanged, with 200
   when it answered ok; otherwise 500 with `success: false`.
   */
  lemma BackendMapping(req: Request, timestamp: string, backend: Backend)
    requires Valid(req)
    ensures var r := Handle(req, timestamp, backend).response;
      && (backend.OkJson? ==> r.statusCode == 200 && r.body == backend.result)
      && (!backend.OkJson? ==> r.statusCode == 500 && r.body.fields["success"] == JBool(false))
  {
    ForwardedIffValid(req, timestamp, backend);
  }

  /** A 200 reply only ever comes from a valid request the call server answered ok. */
  lemma SuccessOnlyWhenForwardedOk(req: Request, timestamp: string, backend: Backend)
    ensures var r := Handle(req, timestamp, backend);
      r.Done? && r.response.statusCode == 200 ==> Valid(req) && backend.OkJson?
  {
  }
}
