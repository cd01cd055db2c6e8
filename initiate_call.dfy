/** `POST /api/initiate-call`: check the request, the API key and the
    voice platform's list of phone numbers, in that order; then place an
    outbound call from the first listed number to the normalised
    destination.

    The two requests to the voice platform are oracles: the reply to the
    phone-number listing is a value, the reply to the outbound-call request a
    function of the request sent. The API key is the environment variable's
    value, if set. */
module InitiateCall {
  import opened Wrappers
  import opened Text

  const MissingFieldsError := "Phone number and agent ID are required"
  const MissingKeyError := "ElevenLabs API key not configured"
  const ListFailedError := "Failed to fetch phone numbers from ElevenLabs. Make sure you have connected a Twilio number in your ElevenLabs dashboard."
  const NoNumbersError := "No phone numbers found in ElevenLabs. Please connect your Twilio number in the ElevenLabs dashboard first."
  const CallFailedPrefix := "Failed to initiate call: "
  const DefaultError := "Failed to initiate call"
  const DefaultMessagePrefix := "Call initiated to "

  /** The request body's two fields, each possibly missing. */
  datatype CallRequest = CallRequest(phoneNumber: Option<string>, agentId: Option<string>)

  /** One entry of the platform's phone-number list. */
  datatype NumberEntry = NumberEntry(phoneNumberId: string)

  /** The reply to the phone-number listing: the fetch threw, came back
      with a non-success status, or came back with a (possibly null) list. */
  datatype ListReply =
    | ListThrew(error: string)
    | ListNotOk(body: string)
    | Listed(data: Option<seq<NumberEntry>>)

  /** The body of the outbound-call request. */
  datatype OutboundCall = OutboundCall(agentId: string, agentPhoneNumberId: string, toNumber: string)

  datatype CallReply =
    | CallThrew(error: string)
    | CallNotOk(status: nat, body: string)
    | CallOk(conversationId: Option<string>, callSid: Option<string>, message: Option<string>)

  datatype Response =
    | CallStarted(conversationId: Option<string>, callSid: Option<string>, message: string)
    | Failed(status: nat, error: string)

  // ---------------------------------------------------------------------
  // Destination normalisation

  /** Trim; keep a number that starts with '+' as it is; otherwise assume a
      US number: "+1" followed by the ASCII digits only. */
  function FormatNumber(phoneNumber: string): (r: string)
    ensures |r| > 0 && r[0] == '+'
    ensures StartsWith(Trim(phoneNumber), "+") ==> r == Trim(phoneNumber)
    ensures !StartsWith(Trim(phoneNumber), "+") ==>
              && StartsWith(r, "+1") && AllDigits(r[2..])
              && r[2..] == DigitsOnly(Trim(phoneNumber))
  {
    var trimmed := Trim(phoneNumber);
    if StartsWith(trimmed, "+") then trimmed else "+1" + DigitsOnly(trimmed)
  }

  /** Formatting a formatted number changes nothing. */
  lemma FormatNumberIdempotent(phoneNumber: string)
    ensures FormatNumber(FormatNumber(phoneNumber)) == FormatNumber(phoneNumber)
  {
    var r := FormatNumber(phoneNumber);
    var trimmed := Trim(phoneNumber);
    if StartsWith(trimmed, "+") {
      TrimIdempotent(phoneNumber);
    } else {
      assert !IsWhitespace(r[0]);
      assert !IsWhitespace(r[|r| - 1]) by {
        if |r| > 2 {
          assert r[|r| - 1] == r[2..][|r| - 3];
        }
      }
      TrimOfTrimmed(r);
    }
  }

  /** A number of bare digits is taken for a US number and gets "+1". */
  lemma FormatNumberOfDigits(phoneNumber: string)
    requires AllDigits(phoneNumber)
    ensures FormatNumber(phoneNumber) == "+1" + phoneNumber
  {
    if phoneNumber != [] {
      assert !IsWhitespace(phoneNumber[0]) && !IsWhitespace(phoneNumber[|phoneNumber| - 1]);
    }
    TrimOfTrimmed(phoneNumber);
    DigitsOnlyOfDigits(phoneNumber);
  }

  /** Without a leading '+', every non-digit goes, wherever it stands:
      surrounding whitespace, dashes, brackets, inner spaces. */
  lemma FormatNumberDropsNonDigits(phoneNumber: string)
    requires !StartsWith(Trim(phoneNumber), "+")
    ensures FormatNumber(phoneNumber) == "+1" + DigitsOnly(phoneNumber)
  {
    DigitsOnlyOfTrim(phoneNumber);
    var r := FormatNumber(phoneNumber);
    assert r == r[..2] + r[2..];
  }

  /** Trimming removes no digit. */
  lemma DigitsOnlyOfTrim(s: string)
    ensures DigitsOnly(Trim(s)) == DigitsOnly(s)
  {
    var front, back := TrimSplit(s);
    var t := Trim(s);
    DigitsOnlyAppend(front + t, back);
    DigitsOnlyAppend(front, t);
    DigitsOnlyOfWhitespace(front);
    DigitsOnlyOfWhitespace(back);
  }

  lemma {:induction false} DigitsOnlyOfWhitespace(s: string)
    requires AllWhitespace(s)
    ensures DigitsOnly(s) == []
  {
    if s != [] {
      assert !IsDigit(s[0]);
      DigitsOnlyOfWhitespace(s[1..]);
    }
  }

  // ---------------------------------------------------------------------
  // The handler

  /** What the guards decide before the outbound call: a response that
      ends the request, or the call to place. */
  datatype Plan = Reject(response: Response) | Place(call: OutboundCall)

  /** The guards in their order: request fields (400), API key (500), the
      listing's fetch (500, whatever went wrong), an empty or null list
      (400); then the call from the first listed number to the formatted
      destination. */
  function PlanCall(req: CallRequest, apiKey: Option<string>, listing: ListReply): (p: Plan)
    ensures !Truthy(req.phoneNumber) || !Truthy(req.agentId) ==>
              p == Reject(Failed(400, MissingFieldsError))
    ensures Truthy(req.phoneNumber) && Truthy(req.agentId) && !Truthy(apiKey) ==>
              p == Reject(Failed(500, MissingKeyError))
    ensures Truthy(req.phoneNumber) && Truthy(req.agentId) && Truthy(apiKey) && listing.ListThrew? ==>
              p == Reject(Failed(500, OrDefault(listing.error, DefaultError)))
    ensures Truthy(req.phoneNumber) && Truthy(req.agentId) && Truthy(apiKey) && listing.ListNotOk? ==>
              p == Reject(Failed(500, ListFailedError))
    ensures Truthy(req.phoneNumber) && Truthy(req.agentId) && Truthy(apiKey)
            && listing.Listed? && (listing.data.None? || listing.data.value == []) ==>
              p == Reject(Failed(400, NoNumbersError))
    ensures Truthy(req.phoneNumber) && Truthy(req.agentId) && Truthy(apiKey)
            && listing.Listed? && listing.data.Some? && |listing.data.value| > 0 ==>
              p == Place(OutboundCall(req.agentId.value, listing.data.value[0].phoneNumberId,
                                      FormatNumber(req.phoneNumber.value)))
    ensures p.Place? ==>
              && Truthy(req.phoneNumber) && Truthy(req.agentId) && Truthy(apiKey)
              && listing.Listed? && listing.data.Some? && |listing.data.value| > 0
              && p.call == OutboundCall(req.agentId.value, listing.data.value[0].phoneNumberId,
                                        FormatNumber(req.phoneNumber.value))
  {
    if !Truthy(req.phoneNumber) || !Truthy(req.agentId) then Reject(Failed(400, MissingFieldsError))
    else if !Truthy(apiKey) then Reject(Failed(500, MissingKeyError))
    else
      match listing
      case ListThrew(m) => Reject(Failed(500, OrDefault(m, DefaultError)))
      case ListNotOk(_) => Reject(Failed(500, ListFailedError))
      case Listed(data) =>
        if data.None? || |data.value| == 0 then Reject(Failed(400, NoNumbersError))
        else
          Place(OutboundCall(req.agentId.value, data.value[0].phoneNumberId,
                             FormatNumber(req.phoneNumber.value)))
  }

  /** The response to the outbound-call reply for destination `formatted`. */
  function CallOutcome(reply: CallReply, formatted: string): (r: Response)
    ensures reply.CallNotOk? ==> r == Failed(reply.status, CallFailedPrefix + reply.body)
    ensures reply.CallOk? ==>
              && r.CallStarted?
              && r.conversationId == reply.conversationId && r.callSid == reply.callSid
              && r.message == (if Truthy(reply.message) then reply.message.value
                               else DefaultMessagePrefix + formatted)
    ensures reply.CallThrew? ==> r == Failed(500, OrDefault(reply.error, DefaultError))
  {
    match reply
    case CallThrew(m) => Failed(500, OrDefault(m, DefaultError))
    case CallNotOk(status, body) => Failed(status, CallFailedPrefix + body)
    case CallOk(conversationId, callSid, message) =>
      CallStarted(conversationId, callSid,
                  if Truthy(message) then message.value else DefaultMessagePrefix + formatted)
  }

  /** The handler; `place` answers the outbound-call request. */
  function Initiate(req: CallRequest, apiKey: Option<string>, listing: ListReply,
                    place: OutboundCall -> CallReply): Response
  {
    match PlanCall(req, apiKey, listing)
    case Reject(r) => r
    case Place(call) => CallOutcome(place(call), call.toNumber)
  }

  /** Input is validated before the key is read or anything is fetched: a
      request without a phone number or agent id gets the same 400 whatever
      the key, the listing and the call would have been; likewise a missing
      key is a 500 whatever the platform would have said, and a failed or
      empty listing ends the request, with the plan's rejection as the
      answer, before any call is placed. */
  lemma GuardsPrecedeFetches(req: CallRequest, key1: Option<string>, key2: Option<string>,
                             list1: ListReply, list2: ListReply,
                             place1: OutboundCall -> CallReply, place2: OutboundCall -> CallReply)
    ensures !Truthy(req.phoneNumber) || !Truthy(req.agentId) ==>
              Initiate(req, key1, list1, place1) == Initiate(req, key2, list2, place2)
              == Failed(400, MissingFieldsError)
    ensures Truthy(req.phoneNumber) && Truthy(req.agentId) && !Truthy(key1) ==>
              Initiate(req, key1, list1, place1) == Initiate(req, key1, list2, place2)
              == Failed(500, MissingKeyError)
    ensures PlanCall(req, key1, list1).Reject? ==>
              Initiate(req, key1, list1, place1) == Initiate(req, key1, list1, place2)
              == PlanCall(req, key1, list1).response
  {
  }

  /** A call that is placed goes from the first listed number to a
      destination that starts with '+', and its outcome is the platform's. */
  lemma PlacedCall(req: CallRequest, apiKey: Option<string>, listing: ListReply,
                   place: OutboundCall -> CallReply)
    requires PlanCall(req, apiKey, listing).Place?
    ensures var call := PlanCall(req, apiKey, listing).call;
      && call.agentPhoneNumberId == listing.data.value[0].phoneNumberId
      && call.toNumber[0] == '+'
      && Initiate(req, apiKey, listing, place) == CallOutcome(place(call), call.toNumber)
  {
  }
}
