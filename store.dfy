/** The assessment form's state: the answers entered so far and the message
    shown, with the change, export and submit handlers that update them. */
module Store {
  import opened FormData
  import opened Catalog
  import opened Progress
  import opened Export
  import opened Submission

  class FormStore {
    /** The catalog the form is built from. */
    const catalog: seq<Section>
    /** `formData`, in insertion order. */
    var formData: seq<Entry>
    /** `message`: the last status line shown. */
    var message: string

    /** The answers are an object: no key occurs twice. Every handler keeps
        it; it is the hypothesis under which AnsweredAtMost bounds the
        answered count, and so under which AsWrittenNeverFull and
        AsWrittenCompleteForm apply to the store's answers. */
    ghost predicate Valid()
      reads this
    {
      DistinctKeys(formData)
    }

    /** `useState({})` and `useState('')`. */
    constructor (catalog: seq<Section>)
      ensures Valid()
      ensures this.catalog == catalog && formData == [] && message == ""
    {
      this.catalog := catalog;
      formData := [];
      message := "";
    }

    /** The percentage the progress bar shows, against the intended
        denominator: every item of the catalog plus the four required
        contact fields. It is 100 exactly when at least that many fields
        hold a non-empty value. */
    function Progress(): (p: nat)
      reads this
      ensures p <= 100
      ensures p == 100 <==> Answered(formData) >= TotalFields(catalog)
    {
      PercentSpec(Answered(formData), TotalFields(catalog));
      Percent(Answered(formData), TotalFields(catalog))
    }

    /** `handleChange`: a checkbox event ticks or unticks one option of the
        field, any other event overwrites it; nothing else changes. */
    method HandleChange(name: string, value: string, isCheckbox: bool, checked: bool)
      requires Valid()
      modifies this
      ensures Valid()
      ensures formData == Change(old(formData), name, value, isCheckbox, checked)
      ensures message == old(message)
    {
      ChangeDistinct(formData, name, value, isCheckbox, checked);
      formData := Change(formData, name, value, isCheckbox, checked);
    }

    /** `generatePDF`: the export of the answers as they stand. */
    method GeneratePdf() returns (doc: Document)
      ensures doc == Rendered(formData)
      ensures |doc.lines| == |formData| + 1
      ensures forall i :: 0 <= i < |formData| ==>
                doc.lines[i + 1] == Line(formData[i].key + ": " + formData[i].value, 20, 30 + 10 * i)
    {
      doc := Render(formData);
      RenderedLayout(formData);
    }

    /** `handleSubmit`, with the phone library, the response to the request
        and the current time as parameters. Returns the payload sent, if
        any, and the document exported, if any; the message and the answers
        end as Submit says. */
    method HandleSubmit(phone: PhoneFormatter, response: Response, timestamp: string)
      returns (sent: Option<seq<Entry>>, exported: Option<Document>)
      requires Valid()
      modifies this
      ensures Valid()
      ensures Outcome(message, formData, sent, exported) == Submit(old(formData), phone, response, timestamp)
    {
      SubmitKeepsDistinct(formData, phone, response, timestamp);
      sent, exported := None, None;
      if !EmailValid(formData) {
        message := EmailMessage;
        return;
      }
      var phoneNumber := phone(PhoneInput(formData), Lookup(formData, "country"));
      if phoneNumber.None? {
        message := PhoneMessage;
        return;
      }
      formData := Put(formData, "contact", phoneNumber.value);
      var fullData := Payload(formData, timestamp);
      sent := Some(fullData);
      if IsOk(response) {
        message := SuccessMessage;
        var doc := GeneratePdf();
        exported := Some(doc);
        formData := [];
      } else if response.Responded? {
        message := FailureMessage;
      } else {
        message := ErrorMessage;
      }
    }
  }
}
