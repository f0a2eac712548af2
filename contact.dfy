/** The contact page: the message form's schema and its reset after a
    successful submission. */
module Contact {

  /** Exactly the four fields of the contact form. */
  datatype ContactForm = ContactForm(name: string, email: string, subject: string, message: string)

  datatype ContactField = Name | Email | Subject | Message

  /** The constraint `formSchema` puts on one field; the e-mail check is the
      validation library's own, passed in as `isEmail`. */
  predicate FieldAccepted(f: ContactForm, field: ContactField, isEmail: string -> bool)
  {
    match field
    case Name => |f.name| >= 2
    case Email => isEmail(f.email)
    case Subject => |f.subject| >= 3
    case Message => |f.message| >= 10
  }

  function Issue(f: ContactForm, field: ContactField, isEmail: string -> bool): (r: seq<ContactField>)
  {
    if FieldAccepted(f, field, isEmail) then [] else [field]
  }

  /** The fields `formSchema` rejects, in schema order. */
  function ContactIssues(f: ContactForm, isEmail: string -> bool): (r: seq<ContactField>)
    ensures forall field :: field in r <==> !FieldAccepted(f, field, isEmail)
  {
    Issue(f, Name, isEmail) + Issue(f, Email, isEmail) + Issue(f, Subject, isEmail)
    + Issue(f, Message, isEmail)
  }

  /** The schema accepts a message exactly when the name has at least 2
      characters, the subject 3 and the message 10, and the e-mail passes the
      library check; nothing else is inspected. */
  lemma ContactAccepted(f: ContactForm, isEmail: string -> bool)
    ensures ContactIssues(f, isEmail) == [] <==>
              |f.name| >= 2 && isEmail(f.email) && |f.subject| >= 3 && |f.message| >= 10
  {
    var r := ContactIssues(f, isEmail);
    if r != [] {
      assert r[0] in r;
      assert !FieldAccepted(f, r[0], isEmail);
    } else {
      assert FieldAccepted(f, Name, isEmail) && FieldAccepted(f, Email, isEmail);
      assert FieldAccepted(f, Subject, isEmail) && FieldAccepted(f, Message, isEmail);
    }
  }

  /** The form's `defaultValues`. */
  const DefaultContactForm: ContactForm := ContactForm("", "", "", "")

  /** The defaults fail the three length rules (and the e-mail rule whenever
      the library rejects the empty string). */
  lemma DefaultContactFormRejected(isEmail: string -> bool)
    ensures ContactIssues(DefaultContactForm, isEmail)
              == [Name] + (if isEmail("") then [] else [Email]) + [Subject, Message]
  {
  }

  /** The form state of the page. */
  class ContactPage {
    var values: ContactForm

    constructor ()
      ensures values == DefaultContactForm
    {
      values := DefaultContactForm;
    }

    /** The inputs' `onChange` bindings. */
    method Edit(f: ContactForm)
      modifies this
      ensures values == f
    {
      values := f;
    }

    /** `form.handleSubmit(onSubmit)`: a valid message resets every field to
        its empty default; an invalid one leaves the form as it was. */
    method HandleSubmit(isEmail: string -> bool) returns (issues: seq<ContactField>)
      modifies this
      ensures issues == ContactIssues(old(values), isEmail)
      ensures issues == [] ==> values == DefaultContactForm
      ensures issues != [] ==> values == old(values)
    {
      issues := ContactIssues(values, isEmail);
      if issues == [] {
        values := DefaultContactForm;
      }
    }
  }
}
