/**
  The coded fields the company and party schemas share: PIN code, GST number, PAN number,
  contact number and e-mail address, each trimmed, some upper- or lower-cased, and checked
  against a `match` pattern.
 */
module Codes {
  import opened Wrappers
  import opened Patterns
  import opened Schema

  /** `pinCode`: required, trimmed, `/^[1-9][0-9]{5}$/`. */
  const PinRule: Rule := TextRule(true, true, KeepCase, 0, None, Some(Shaped(PinShape)), [], None)

  /** `gstNo`: trimmed, upper-cased, the GST pattern; required for companies only. */
  function GstRule(required: bool): Rule
  {
    TextRule(required, true, ToUpper, 0, None, Some(Shaped(GstShape)), [], None)
  }

  /** `panNo`: trimmed, upper-cased, the PAN pattern; required for companies only. */
  function PanRule(required: bool): Rule
  {
    TextRule(required, true, ToUpper, 0, None, Some(Shaped(PanShape)), [], None)
  }

  /** `contactNo`: required, trimmed, `/^[6-9]\d{9}$/`. */
  const ContactRule: Rule := TextRule(true, true, KeepCase, 0, None, Some(Shaped(ContactShape)), [], None)

  /** `emailId`: required, trimmed, lower-cased, the e-mail pattern. */
  const EmailRule: Rule := TextRule(true, true, ToLower, 0, None, Some(EmailAddress), [], None)

  /** An optional GST number: absent, empty (the pattern skips ""), or a GST number. */
  predicate OptionalGst(d: Doc, path: string)
  {
    path !in d || (d[path].Str? && (d[path].s != "" ==> IsGstNo(d[path].s)))
  }

  /** An optional PAN number: absent, empty, or a PAN number. */
  predicate OptionalPan(d: Doc, path: string)
  {
    path !in d || (d[path].Str? && (d[path].s != "" ==> IsPanNo(d[path].s)))
  }

  lemma {:induction false} PinPath(d: Doc, path: string)
    ensures PathOk(PinRule, Get(d, path)) <==> HasText(d, path) && IsPinCode(d[path].s)
  {
    if path in d && d[path].Str? {
      PinShapeMeans(d[path].s);
    }
  }

  lemma {:induction false} GstPath(d: Doc, path: string, required: bool)
    ensures required ==> (PathOk(GstRule(required), Get(d, path)) <==> HasText(d, path) && IsGstNo(d[path].s))
    ensures !required ==>
      (PathOk(GstRule(required), Get(d, path)) <==> OptionalGst(d, path))
  {
    if path in d && d[path].Str? {
      GstShapeMeans(d[path].s);
    }
  }

  lemma {:induction false} PanPath(d: Doc, path: string, required: bool)
    ensures required ==> (PathOk(PanRule(required), Get(d, path)) <==> HasText(d, path) && IsPanNo(d[path].s))
    ensures !required ==>
      (PathOk(PanRule(required), Get(d, path)) <==> OptionalPan(d, path))
  {
    if path in d && d[path].Str? {
      PanShapeMeans(d[path].s);
    }
  }

  lemma {:induction false} ContactPath(d: Doc, path: string)
    ensures PathOk(ContactRule, Get(d, path)) <==> HasText(d, path) && IsContactNo(d[path].s)
  {
    if path in d && d[path].Str? {
      ContactShapeMeans(d[path].s);
    }
  }

  lemma {:induction false} EmailPath(d: Doc, path: string)
    ensures PathOk(EmailRule, Get(d, path)) <==> HasText(d, path) && IsEmail(d[path].s)
  {
  }
}
