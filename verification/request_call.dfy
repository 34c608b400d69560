/**
 The `request-call` serverless function: a validation ladder over the HTTP
 request that ends in a mock success carrying a made-up call identifier.
 */
module RequestCall {
  import opened Common
  import opened Json
  import AllowList

  datatype Request = Request(httpMethod: string, body: Parse)

  /**
   What the handler does: reply with a status code and a `{success, message,
   callSid}` body, or throw (a `TypeError` outside every `try`).
   */
  datatype Outcome =
    | Reply(statusCode: nat, success: bool, message: string, callSid: Option<string>)
    | Threw(error: string)

  const FormatMessage := "Phone number must be in E.164 format (e.g., +1XXXXXXXXXX)"

  /** The number check: a `+` prefix and at least eight characters. */
  predicate WellFormed(phone: string)
  {
    HasPrefix(phone, "+") && JsLength(phone) >= 8
  }

  /**
   The ladder: method, body, phone present, phone format, then success.
   `suffix` stands for the random base-36 digits of the mock identifier.
   */
  function Handle(req: Request, suffix: string): (r: Outcome)
    ensures r.Reply? && r.statusCode == 200 ==> r.success && r.callSid.Some? && HasPrefix(r.callSid.value, "CA")
    ensures r.Reply? && r.statusCode != 200 ==> !r.success && r.callSid.None?
  {
    if req.httpMethod != "POST" then Reply(405, false, "Method Not Allowed", None)
    else if req.body.Unparseable? then Reply(400, false, "Invalid request body", None)
    else
      var data := req.body.value;
      if data == JNull then Threw("TypeError: Cannot destructure 'data' as it is null.")
      else
        var phone := Get(data, "phoneNumber");
        if !Given(phone) then Reply(400, false, "Phone number is required", None)
        else if !phone.value.JString? then Threw("TypeError: phoneNumber.startsWith is not a function")
        else if !WellFormed(phone.value.s) then Reply(400, false, FormatMessage, None)
        else
          var sid := "CA" + suffix;
          assert sid[..2] == "CA";
          Reply(200, true, "Call request received", Some(sid))
  }

  /** A method other than POST is refused with 405 before the body is looked at. */
  lemma MethodCheckedFirst(verb: string, body: Parse, suffix: string)
    requires verb != "POST"
    ensures Handle(Request(verb, body), suffix) == Reply(405, false, "Method Not Allowed", None)
  {
  }

  /** A POST whose body does not parse is refused with 400. */
  lemma UnparseableBodyRefused(suffix: string)
    ensures Handle(Request("POST", Unparseable), suffix) == Reply(400, false, "Invalid request body", None)
  {
  }

  /** A missing or empty number is refused as missing, whatever else the body holds: presence is checked before format. */
  lemma PresenceBeforeFormat(data: Json, suffix: string)
    requires data != JNull
    requires !Given(Get(data, "phoneNumber"))
    ensures Handle(Request("POST", Parsed(data)), suffix) == Reply(400, false, "Phone number is required", None)
  {
  }

  /**
   The request is accepted exactly when it is a POST whose parsed body holds
   a well-formed number string; the reply then carries the identifier.
   */
  lemma AcceptedIff(req: Request, suffix: string)
    ensures var r := Handle(req, suffix);
      (r.Reply? && r.statusCode == 200) <==>
        && req.httpMethod == "POST"
        && req.body.Parsed?
        && req.body.value.JObject?
        && "phoneNumber" in req.body.value.fields
        && req.body.value.fields["phoneNumber"].JString?
        && WellFormed(req.body.value.fields["phoneNumber"].s)
    ensures var r := Handle(req, suffix);
      r.Reply? && r.statusCode == 200 ==> r.callSid == Some("CA" + suffix)
  {
    if req.httpMethod == "POST" && req.body.Parsed? && req.body.value.JObject?
       && "phoneNumber" in req.body.value.fields && req.body.value.fields["phoneNumber"].JString?
       && WellFormed(req.body.value.fields["phoneNumber"].s)
    {
      assert req.body.value.fields["phoneNumber"].s != "";
    }
  }

  /**
   Every number this function accepts would also be allowed by the server's
   allow-list, whatever the list holds and whatever the provider lookups say.
   */
  lemma AcceptedNumbersAreAllowed(req: Request, suffix: string, list: Option<set<string>>,
                                  incoming: AllowList.Lookup, outgoing: AllowList.Lookup)
    requires var r := Handle(req, suffix); r.Reply? && r.statusCode == 200
    ensures var phone := req.body.value.fields["phoneNumber"].s;
      AllowList.Check(list, phone, incoming, outgoing).allowed
  {
    AcceptedIff(req, suffix);
    var phone := req.body.value.fields["phoneNumber"].s;
    assert AllowList.LocalRule(phone);
  }

  /**
   The format check is far weaker than ITU-T Recommendation E.164: eight
   characters behind a `+` pass, digits or not.
   */
  lemma FormatCheckIsLoose()
    ensures WellFormed("+abcdefg")
  {
    assert "+abcdefg"[..1] == "+";
  }
}
