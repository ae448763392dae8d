/**
 * The contact section: the inquiry form with its spam gate and its reset on success, and the
 * choice of icon and link for each contact item.
 */
module Contact {
  import opened Wrappers
  import opened Js
  import opened SiteContent

  datatype ContactForm = ContactForm(
    name: string, email: string, company: string, message: string,
    /** the hidden honeypot field */
    website: string)

  const EmptyContactForm := ContactForm("", "", "", "", "")

  /** The `name` of the input an edit comes from. */
  datatype ContactField = Name | Email | Company | Message | Website

  function ContactFieldValue(form: ContactForm, field: ContactField): string
  {
    match field
    case Name => form.name
    case Email => form.email
    case Company => form.company
    case Message => form.message
    case Website => form.website
  }

  /** `{ ...formData, [name]: value }` */
  function SetContactField(form: ContactForm, field: ContactField, value: string): (r: ContactForm)
    ensures ContactFieldValue(r, field) == value
    ensures forall g :: g != field ==> ContactFieldValue(r, g) == ContactFieldValue(form, g)
  {
    match field
    case Name => form.(name := value)
    case Email => form.(email := value)
    case Company => form.(company := value)
    case Message => form.(message := value)
    case Website => form.(website := value)
  }

  /** The JSON body posted to the form service. */
  datatype ContactPayload = ContactPayload(
    name: string, email: string, company: string, message: string,
    subject: string, template: string, captcha: string)

  function ContactPayloadOf(form: ContactForm): ContactPayload
  {
    ContactPayload(
      form.name, form.email, OrElse(form.company, "N/A"), form.message,
      "New Contact Inquiry - " + form.name, "table", "false")
  }

  /** The payload copies the visible fields, fills an empty company and names the sender in the subject. */
  lemma ContactPayloadFields(form: ContactForm)
    ensures ContactPayloadOf(form).company == (if form.company == "" then "N/A" else form.company)
    ensures ContactPayloadOf(form).company != ""
    ensures ContactPayloadOf(form).subject[..22] == "New Contact Inquiry - "
    ensures ContactPayloadOf(form).subject[22..] == ContactPayloadOf(form).name == form.name
    ensures ContactPayloadOf(form).template == "table" && ContactPayloadOf(form).captcha == "false"
  {
  }

  const MinFillMs := 3000

  /** The spam gate: the honeypot is empty and at least 3000 ms have passed since the form started. */
  predicate PassesGate(form: ContactForm, elapsedMs: int)
  {
    form.website == "" && elapsedMs >= MinFillMs
  }

  /** How the POST ended. */
  datatype SubmitResponse = ResponseOk | ResponseNotOk | RequestFailed

  const UnableToSubmit := "Unable to submit right now. Please try again."
  const MessageSent := "Thanks. Your message has been sent to info@zenture.in."
  const SubmissionFailed := "Submission failed. Please try again."

  /** The form state of the contact section. */
  class ContactSection {
    var formData: ContactForm
    var formStart: int
    var isSubmitting: bool
    var submitMessage: string
    var isSubmitted: bool

    /** The first render, at time `now`. */
    constructor(now: int)
      ensures formData == EmptyContactForm && formStart == now
      ensures !isSubmitting && submitMessage == "" && !isSubmitted
    {
      formData := EmptyContactForm;
      formStart := now;
      isSubmitting := false;
      submitMessage := "";
      isSubmitted := false;
    }

    /**
     * `handleSubmit` at time `now`; `response` is how the POST ended and `doneAt` the time it
     * settled. Returns the payload posted, if any.
     */
    method HandleSubmit(now: int, response: SubmitResponse, doneAt: int) returns (request: Option<ContactPayload>)
      modifies this
      ensures !PassesGate(old(formData), now - old(formStart)) ==>
        && request.None? && submitMessage == UnableToSubmit
        && formData == old(formData) && formStart == old(formStart)
        && isSubmitting == old(isSubmitting) && isSubmitted == old(isSubmitted)
      ensures PassesGate(old(formData), now - old(formStart)) ==>
        && request == Some(ContactPayloadOf(old(formData)))
        && !isSubmitting
        && (response == ResponseOk ==>
              formData == EmptyContactForm && formStart == doneAt
              && submitMessage == MessageSent && isSubmitted)
        && (response != ResponseOk ==>
              formData == old(formData) && formStart == old(formStart)
              && submitMessage == SubmissionFailed && isSubmitted == old(isSubmitted))
    {
      submitMessage := "";
      var elapsedMs := now - formStart;
      if formData.website != "" || elapsedMs < MinFillMs {
        submitMessage := UnableToSubmit;
        return None;
      }
      isSubmitting := true;
      request := Some(ContactPayloadOf(formData));
      if response == ResponseOk {
        formData := EmptyContactForm;
        formStart := doneAt;
        submitMessage := MessageSent;
        isSubmitted := true;
      } else {
        submitMessage := SubmissionFailed;
      }
      isSubmitting := false;
    }

    /** `handleChange`: only the named field changes. */
    method HandleChange(field: ContactField, value: string)
      modifies this
      ensures formData == SetContactField(old(formData), field, value)
      ensures formStart == old(formStart) && isSubmitting == old(isSubmitting)
      ensures submitMessage == old(submitMessage) && isSubmitted == old(isSubmitted)
    {
      formData := SetContactField(formData, field, value);
    }
  }

  // ---------------------------------------------------------------------------------------------
  // Contact items.

  datatype ContactGlyph = Mail | Phone | MapPin

  /** The icon of an item: email and phone have their own, every other type shows a map pin. */
  function ItemIcon(item: ContactInfoItem): (g: ContactGlyph)
    ensures g == Mail <==> item.kind == "email"
    ensures g == Phone <==> item.kind == "phone"
  {
    if item.kind == "email" then Mail
    else if item.kind == "phone" then Phone
    else MapPin
  }

  /** `item.link && item.type !== 'location'`: the content is rendered as a link. */
  predicate RendersLink(item: ContactInfoItem)
  {
    item.link.Some? && item.link.value != "" && item.kind != "location"
  }

  /** A location item is never a link, whatever its `link` holds. */
  lemma LocationNeverLinks(item: ContactInfoItem)
    requires item.kind == "location"
    ensures !RendersLink(item)
    ensures ItemIcon(item) == MapPin
  {
  }

  /** With the default contact items: email and phone render as links, the location as text. */
  lemma DefaultItemsRendering()
    ensures |DefaultContact.items| == 3
    ensures RendersLink(DefaultContact.items[0]) && ItemIcon(DefaultContact.items[0]) == Mail
    ensures RendersLink(DefaultContact.items[1]) && ItemIcon(DefaultContact.items[1]) == Phone
    ensures !RendersLink(DefaultContact.items[2]) && ItemIcon(DefaultContact.items[2]) == MapPin
  {
  }
}
