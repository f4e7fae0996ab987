/** The submit decision: the checks run in a fixed order, the contact
    number is rewritten in its formatted form, the payload is the answers
    plus a timestamp, and the response decides the message and whether the
    answers are exported and cleared. */
module Submission {
  import opened FormData
  import opened Export

  /** What sending the payload came back with: an HTTP status, or a
      rejected request (the awaited call threw). */
  datatype Response = Responded(status: int) | NetworkError

  /** `res.ok`: a status in the 200 range. */
  predicate IsOk(r: Response)
  {
    r.Responded? && 200 <= r.status <= 299
  }

  /** The phone-number library, as a parameter: given the raw contact
      number and the selected region, the number in international format
      when it parses and is valid, and nothing otherwise. */
  type PhoneFormatter = (string, Option<string>) -> Option<string>

  const EmailMessage: string := "❗ Please enter a valid email address."
  const PhoneMessage: string := "❗ Please enter a valid phone number in international format, e.g., +254... or +1..."
  const SuccessMessage: string := "✅ Thank you! Your responses have been submitted and emailed."
  const FailureMessage: string := "❌ Submission failed. Please try again."
  const ErrorMessage: string := "⚠️ An error occurred. Please try again later."

  /** The email check: a stored email that contains an '@' (a missing or
      empty email is falsy and fails). */
  predicate EmailValid(e: seq<Entry>)
  {
    match Lookup(e, "email")
    case Some(v) => '@' in v
    case None => false
  }

  /** The email passes exactly when it is stored, non-empty and holds an
      '@'. */
  lemma EmailCheck(e: seq<Entry>)
    ensures EmailValid(e) <==>
              Lookup(e, "email").Some? && Lookup(e, "email").value != "" && '@' in Lookup(e, "email").value
  {
  }

  /** `formData.contact || ''`: the raw number handed to the library. */
  function PhoneInput(e: seq<Entry>): string
  {
    match Lookup(e, "contact")
    case Some(v) => v
    case None => ""
  }

  /** `{ ...formData, timestamp }`. */
  function Payload(e: seq<Entry>, timestamp: string): seq<Entry>
  {
    Put(e, "timestamp", timestamp)
  }

  /** Everything one submit leaves behind: the message shown, the answers
      kept, the payload sent if one was sent, and the document exported if
      one was exported. */
  datatype Outcome = Outcome(message: string, state: seq<Entry>, sent: Option<seq<Entry>>, exported: Option<Document>)

  /** `handleSubmit` on the answers `e`. */
  function Submit(e: seq<Entry>, phone: PhoneFormatter, response: Response, timestamp: string): Outcome
  {
    if !EmailValid(e) then Outcome(EmailMessage, e, None, None)
    else match phone(PhoneInput(e), Lookup(e, "country"))
      case None => Outcome(PhoneMessage, e, None, None)
      case Some(formatted) =>
        var s := Put(e, "contact", formatted);
        if IsOk(response) then Outcome(SuccessMessage, [], Some(Payload(s, timestamp)), Some(Rendered(s)))
        else if response.Responded? then Outcome(FailureMessage, s, Some(Payload(s, timestamp)), None)
        else Outcome(ErrorMessage, s, Some(Payload(s, timestamp)), None)
  }

  /** A missing, empty or '@'-less email stops the submit first: the
      email message is shown, nothing changes, nothing is sent, and the
      outcome depends neither on the phone library nor on the network. */
  lemma EmailFirst(e: seq<Entry>, phone: PhoneFormatter, phone': PhoneFormatter,
                   response: Response, response': Response, timestamp: string, timestamp': string)
    requires !EmailValid(e)
    ensures Submit(e, phone, response, timestamp) == Outcome(EmailMessage, e, None, None)
    ensures Submit(e, phone, response, timestamp) == Submit(e, phone', response', timestamp')
  {
  }

  /** With a valid email, a number the library rejects stops the submit
      with the phone message; the contact number is not rewritten, nothing
      is sent, and the network plays no part. */
  lemma PhoneSecond(e: seq<Entry>, phone: PhoneFormatter, response: Response, response': Response, timestamp: string)
    requires EmailValid(e)
    requires phone(PhoneInput(e), Lookup(e, "country")) == None
    ensures Submit(e, phone, response, timestamp) == Outcome(PhoneMessage, e, None, None)
    ensures Submit(e, phone, response, timestamp) == Submit(e, phone, response', timestamp)
    ensures Lookup(Submit(e, phone, response, timestamp).state, "contact") == Lookup(e, "contact")
  {
  }

  /** Once both checks pass, the payload is sent whatever the response:
      it holds the formatted number under "contact", the timestamp under
      "timestamp" (overriding any field of that name), every other field
      as stored, and the keys in their order with any new key at the
      end. */
  lemma PayloadSent(e: seq<Entry>, phone: PhoneFormatter, response: Response, timestamp: string)
    requires EmailValid(e)
    requires phone(PhoneInput(e), Lookup(e, "country")).Some?
    ensures var f := phone(PhoneInput(e), Lookup(e, "country")).value;
            var o := Submit(e, phone, response, timestamp);
            && o.sent.Some?
            && Lookup(o.sent.value, "timestamp") == Some(timestamp)
            && Lookup(o.sent.value, "contact") == Some(f)
            && (forall k :: k != "timestamp" && k != "contact" ==> Lookup(o.sent.value, k) == Lookup(e, k))
  {
    var f := phone(PhoneInput(e), Lookup(e, "country")).value;
    var s := Put(e, "contact", f);
    var p := Payload(s, timestamp);
    PutLookup(s, "timestamp", timestamp, "timestamp");
    PutLookup(e, "contact", f, "contact");
    PutLookup(s, "timestamp", timestamp, "contact");
    forall k | k != "timestamp" && k != "contact" ensures Lookup(p, k) == Lookup(e, k) {
      PutLookup(s, "timestamp", timestamp, k);
      PutLookup(e, "contact", f, k);
    }
  }

  /** The payload keeps the answers' key order and adds only the keys
      "contact" and "timestamp", each at the end if it was new. */
  lemma PayloadKeys(e: seq<Entry>, formatted: string, timestamp: string)
    ensures var s := Put(e, "contact", formatted);
            var ks := if "contact" in Keys(e) then Keys(e) else Keys(e) + ["contact"];
            Keys(Payload(s, timestamp)) == if "timestamp" in ks then ks else ks + ["timestamp"]
  {
    PutKeys(e, "contact", formatted);
    PutKeys(Put(e, "contact", formatted), "timestamp", timestamp);
  }

  /** An ok response shows the success message, exports the answers with
      the formatted number (and without the timestamp), and clears them. */
  lemma OkOutcome(e: seq<Entry>, phone: PhoneFormatter, response: Response, timestamp: string)
    requires EmailValid(e) && IsOk(response)
    requires phone(PhoneInput(e), Lookup(e, "country")).Some?
    ensures var f := phone(PhoneInput(e), Lookup(e, "country")).value;
            var o := Submit(e, phone, response, timestamp);
            && o.message == SuccessMessage
            && o.state == []
            && o.exported == Some(Rendered(Put(e, "contact", f)))
  {
  }

  /** A response outside the 200 range shows the failure message, exports
      nothing, and keeps the answers, except that the contact number stays
      in the formatted form written before sending. */
  lemma NotOkOutcome(e: seq<Entry>, phone: PhoneFormatter, status: int, timestamp: string)
    requires EmailValid(e) && !(200 <= status <= 299)
    requires phone(PhoneInput(e), Lookup(e, "country")).Some?
    ensures var f := phone(PhoneInput(e), Lookup(e, "country")).value;
            var o := Submit(e, phone, Responded(status), timestamp);
            && o.message == FailureMessage
            && o.exported == None
            && o.state == Put(e, "contact", f)
            && forall k :: k != "contact" ==> Lookup(o.state, k) == Lookup(e, k)
  {
    var f := phone(PhoneInput(e), Lookup(e, "country")).value;
    forall k | k != "contact" ensures Lookup(Put(e, "contact", f), k) == Lookup(e, k) {
      PutLookup(e, "contact", f, k);
    }
  }

  /** A request that throws shows the error message, exports nothing, and
      keeps the answers with the formatted contact number. */
  lemma ErrorOutcome(e: seq<Entry>, phone: PhoneFormatter, timestamp: string)
    requires EmailValid(e)
    requires phone(PhoneInput(e), Lookup(e, "country")).Some?
    ensures var f := phone(PhoneInput(e), Lookup(e, "country")).value;
            var o := Submit(e, phone, NetworkError, timestamp);
            && o.message == ErrorMessage
            && o.exported == None
            && o.state == Put(e, "contact", f)
            && forall k :: k != "contact" ==> Lookup(o.state, k) == Lookup(e, k)
  {
    var f := phone(PhoneInput(e), Lookup(e, "country")).value;
    forall k | k != "contact" ensures Lookup(Put(e, "contact", f), k) == Lookup(e, k) {
      PutLookup(e, "contact", f, k);
    }
  }

  /** A submit never breaks the distinctness of the keys it keeps. */
  lemma SubmitKeepsDistinct(e: seq<Entry>, phone: PhoneFormatter, response: Response, timestamp: string)
    requires DistinctKeys(e)
    ensures DistinctKeys(Submit(e, phone, response, timestamp).state)
  {
    if EmailValid(e) && phone(PhoneInput(e), Lookup(e, "country")).Some? {
      PutDistinct(e, "contact", phone(PhoneInput(e), Lookup(e, "country")).value);
    }
  }
}
