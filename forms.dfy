/** Reading the submitted fields out of a parsed form body. */
module Forms {

  /** A form as `urllib.parse.parse_qs` returns it: each field name maps to
      the values given for it, in order. */
  type Form = map<string, seq<string>>

  /** `parse_qs` never produces a field with no values. */
  predicate WellFormed(form: Form)
  {
    forall key :: key in form ==> |form[key]| > 0
  }

  /** `form.get(key, [''])[0]`: the first value of the field, or the empty
      string when the field is absent. */
  function FormField(form: Form, key: string): (r: string)
    requires WellFormed(form)
    ensures key in form ==> r == form[key][0]
    ensures key !in form ==> r == ""
  {
    if key in form then form[key][0] else ""
  }

  /** Later values given for the same field are ignored. */
  lemma FirstValueWins(form: Form, key: string, first: string, later: seq<string>)
    requires WellFormed(form)
    ensures FormField(form[key := [first] + later], key) == first
  {
  }
}
