/**
 * The `SubmissionAdapters` namespace as the opportunity sees it: a closed set of
 * adapter kinds, the name-to-class lookup that `constantize` performs, and the
 * per-class behaviour (validity, a constructor that may raise) that the model
 * takes as a parameter because the adapter classes themselves are not modelled.
 */
module SubmissionAdapters {
  import opened Wrappers

  /** The known adapter classes: `None`, `Email` and `Screendoor`. */
  datatype Kind = NoneKind | EmailKind | ScreendoorKind

  /** `submission_adapter_data`, a serialized Hash whose values may be nil. */
  type Data = map<string, Option<string>>

  /**
   * What the adapter classes decide for themselves: whether an adapter built
   * over the given data is `valid?`, and whether `new` raises for it.
   */
  datatype Classes = Classes(valid: (Kind, Data) -> bool, raisesOnNew: (Kind, Data) -> bool)

  /** The class name under `SubmissionAdapters::`; inverse of Lookup. */
  function KindName(k: Kind): (name: string)
  {
    match k
    case NoneKind => "None"
    case EmailKind => "Email"
    case ScreendoorKind => "Screendoor"
  }

  /**
   * `"SubmissionAdapters::#{name}".constantize`: a name resolves exactly when it
   * is one of the three class names; any other name raises NameError (None here).
   */
  function Lookup(name: string): (k: Option<Kind>)
  {
    if name == "None" then Some(NoneKind)
    else if name == "Email" then Some(EmailKind)
    else if name == "Screendoor" then Some(ScreendoorKind)
    else None
  }

  /** The lookup and the class names are inverse: a name resolves to a kind exactly when it is that kind's name. */
  lemma LookupInvertsKindName(name: string, k: Kind)
    ensures Lookup(name) == Some(k) <==> KindName(k) == name
  {
  }
}
