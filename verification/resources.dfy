/** The records the board holds: a stored resource (with the identifier the
    backend assigned) and the id-less draft the form edits. */
module Resources {

  /** A resource as returned by the backend: `{ id, title, content, category }`. */
  datatype Resource = Resource(id: int, title: string, content: string, category: string)

  /** The form's pending `newResource`: the same text fields without an id. */
  datatype Draft = Draft(title: string, content: string, category: string)

  /** The `name` attribute of the three form inputs. */
  datatype Field = Title | Content | Category

  /** The form after submission: three empty strings. */
  const EmptyDraft: Draft := Draft("", "", "")

  /** Reads one field of a draft, `draft[name]`. */
  function FieldOf(d: Draft, f: Field): string {
    match f
    case Title => d.title
    case Content => d.content
    case Category => d.category
  }

  /** `{ ...d, [name]: value }`: the draft with one field replaced. */
  function WithField(d: Draft, f: Field, value: string): (d': Draft)
    ensures FieldOf(d', f) == value
    ensures forall g :: g != f ==> FieldOf(d', g) == FieldOf(d, g)
  {
    match f
    case Title => d.(title := value)
    case Content => d.(content := value)
    case Category => d.(category := value)
  }
}
