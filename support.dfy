/**
 * The support page's contact form: four required fields, an e-mail shape check, per-field errors
 * that typing clears, and a submit that empties the form once it is accepted.
 */
module SupportForm {
  import opened Wrappers
  import opened Text

  datatype Field = Name | Email | Subject | Message

  datatype FormData = FormData(name: string, email: string, subject: string, message: string)

  const EmptyForm := FormData("", "", "", "")
  const NameRequired := "Name is required"
  const EmailRequired := "Email is required"
  const EmailInvalid := "Email is invalid"
  const SubjectRequired := "Subject is required"
  const MessageRequired := "Message is required"

  function Get(d: FormData, f: Field): string {
    match f
    case Name => d.name
    case Email => d.email
    case Subject => d.subject
    case Message => d.message
  }

  function Set(d: FormData, f: Field, v: string): (r: FormData)
    ensures Get(r, f) == v
    ensures forall g :: g != f ==> Get(r, g) == Get(d, g)
  {
    match f
    case Name => d.(name := v)
    case Email => d.(email := v)
    case Subject => d.(subject := v)
    case Message => d.(message := v)
  }

  /**
   * The regular expression `\S+@\S+\.\S+`, unanchored: somewhere in the text an "@" preceded by a
   * non-space character, then one or more non-space characters, a ".", and a non-space character.
   */
  predicate EmailShaped(s: string) {
    exists at, dot | 0 < at < dot - 1 && dot < |s| - 1 :: EmailAt(s, at, dot)
  }

  /** The match with its "@" at `at` and its "." at `dot`. */
  predicate EmailAt(s: string, at: int, dot: int)
    requires 0 < at < dot - 1 && dot < |s| - 1
  {
    s[at] == '@' && !IsSpace(s[at - 1]) && s[dot] == '.' && !IsSpace(s[dot + 1])
    && forall k | at < k < dot :: !IsSpace(s[k])
  }

  const AllFields: set<Field> := {Name, Email, Subject, Message}

  /** The error one field gets from `validateForm`, if any: blank fields are required, and a filled-in e-mail must have the shape. */
  function FieldError(d: FormData, f: Field): Option<string> {
    match f
    case Name => if IsBlank(d.name) then Some(NameRequired) else None
    case Email =>
      if IsBlank(d.email) then Some(EmailRequired)
      else if !EmailShaped(d.email) then Some(EmailInvalid)
      else None
    case Subject => if IsBlank(d.subject) then Some(SubjectRequired) else None
    case Message => if IsBlank(d.message) then Some(MessageRequired) else None
  }

  /** The error object after checking field `f`: its error, if it has one, is added. */
  function AddError(e: map<Field, string>, d: FormData, f: Field): (r: map<Field, string>)
    requires f !in e
    ensures f in r <==> FieldError(d, f).Some?
    ensures f in r ==> r[f] == FieldError(d, f).value
    ensures forall g | g != f :: (g in r <==> g in e) && (g in e ==> r[g] == e[g])
  {
    if FieldError(d, f).Some? then e[f := FieldError(d, f).value] else e
  }

  /** `validateForm`'s error object: one entry per failing field. */
  function Errors(d: FormData): (e: map<Field, string>)
    ensures forall f :: f in e <==> FieldError(d, f).Some?
    ensures forall f :: f in e ==> e[f] == FieldError(d, f).value
  {
    var afterName := AddError(map[], d, Name);
    var afterEmail := AddError(afterName, d, Email);
    var afterSubject := AddError(afterEmail, d, Subject);
    AddError(afterSubject, d, Message)
  }

  // ---- properties ----

  /** The form is accepted exactly when all four fields are filled in and the e-mail has the shape. */
  lemma AcceptedIff(d: FormData)
    ensures Errors(d) == map[] <==>
      !IsBlank(d.name) && !IsBlank(d.subject) && !IsBlank(d.message) && !IsBlank(d.email) && EmailShaped(d.email)
  {
    var e := Errors(d);
    if e != map[] {
      var f :| f in e;
      assert FieldError(d, f).Some?;
    } else {
      assert Name !in e && Email !in e && Subject !in e && Message !in e;
    }
  }

  /** Any address of the form local@domain.tld with non-blank, space-free parts passes the shape check. */
  lemma {:induction false} PlainAddressShaped(local: string, domain: string, tld: string)
    requires local != [] && domain != [] && tld != []
    requires forall i :: 0 <= i < |local| ==> !IsSpace(local[i])
    requires forall i :: 0 <= i < |domain| ==> !IsSpace(domain[i])
    requires forall i :: 0 <= i < |tld| ==> !IsSpace(tld[i])
    ensures EmailShaped(local + "@" + domain + "." + tld)
  {
    var s := local + "@" + domain + "." + tld;
    var at := |local|;
    var dot := |local| + 1 + |domain|;
    assert s[at] == '@' && s[at - 1] == local[at - 1];
    assert s[dot] == '.' && s[dot + 1] == tld[0];
    assert forall k :: at < k < dot ==> s[k] == domain[k - at - 1];
    assert EmailAt(s, at, dot);
  }

  /** Without an "@" there is no match, so a filled-in address without one is reported as invalid. */
  lemma NoAtIsInvalid(d: FormData)
    requires !IsBlank(d.email) && '@' !in d.email
    ensures Errors(d)[Email] == EmailInvalid
  {
    forall at, dot | 0 < at < dot - 1 && dot < |d.email| - 1
      ensures !EmailAt(d.email, at, dot)
    {
      assert d.email[at] in d.email;
    }
  }

  class SupportPage {
    var formData: FormData
    /** The error object; typing sets an entry to "" rather than removing it. */
    var errors: map<Field, string>
    var success: bool

    constructor()
      ensures formData == EmptyForm && errors == map[] && !success
    {
      formData := EmptyForm;
      errors := map[];
      success := false;
    }

    /** Typing into a field stores the value and blanks that field's error, if it had one. */
    method HandleChange(f: Field, value: string)
      modifies this
      ensures formData == Set(old(formData), f, value)
      ensures f in old(errors) && old(errors)[f] != "" ==> errors == old(errors)[f := ""]
      ensures !(f in old(errors) && old(errors)[f] != "") ==> errors == old(errors)
      ensures success == old(success)
    {
      formData := Set(formData, f, value);
      if f in errors && errors[f] != "" {
        errors := errors[f := ""];
      }
    }

    method ValidateForm() returns (ok: bool)
      modifies this
      ensures errors == Errors(formData) && (ok <==> errors == map[])
      ensures formData == old(formData) && success == old(success)
    {
      var d := formData;
      var newErrors: map<Field, string> := map[];
      var blank := TrimsToEmpty(d.name);
      if blank {
        newErrors := newErrors[Name := NameRequired];
      }
      assert newErrors == AddError(map[], d, Name);
      ghost var afterName := newErrors;
      blank := TrimsToEmpty(d.email);
      if blank {
        newErrors := newErrors[Email := EmailRequired];
      } else if !EmailShaped(d.email) {
        newErrors := newErrors[Email := EmailInvalid];
      }
      assert newErrors == AddError(afterName, d, Email);
      ghost var afterEmail := newErrors;
      blank := TrimsToEmpty(d.subject);
      if blank {
        newErrors := newErrors[Subject := SubjectRequired];
      }
      assert newErrors == AddError(afterEmail, d, Subject);
      ghost var afterSubject := newErrors;
      blank := TrimsToEmpty(d.message);
      if blank {
        newErrors := newErrors[Message := MessageRequired];
      }
      assert newErrors == AddError(afterSubject, d, Message);
      assert newErrors == Errors(d);
      errors := newErrors;
      ok := |newErrors| == 0;
      assert ok <==> newErrors == map[] by {
        if |newErrors| == 0 {
          assert newErrors.Keys == {};
        }
      }
    }

    /**
     * Submitting: an invalid form stops at the errors; a valid one (once the simulated request
     * completes) shows the success message and empties every field.
     */
    method HandleSubmit() returns (accepted: bool)
      modifies this
      ensures errors == Errors(old(formData))
      ensures accepted <==> errors == map[]
      ensures accepted ==> formData == EmptyForm && success
      ensures !accepted ==> formData == old(formData) && success == old(success)
    {
      accepted := ValidateForm();
      if !accepted {
        return;
      }
      success := true;
      formData := EmptyForm;
    }
  }
}
