/**
 * The download-URL templates, already parsed into literal text and
 * `{{.Field}}` references. Rendering concatenates the literal pieces with
 * the value of each referenced field.
 */
module Template {

  datatype Template =
    | End
    | Text(text: string, rest: Template)
    | Field(name: string, rest: Template)

  /** The fields a template references. */
  function Refs(t: Template): set<string> {
    match t
    case End => {}
    case Text(_, rest) => Refs(rest)
    case Field(n, rest) => {n} + Refs(rest)
  }

  /**
   * The value a field reference renders as. The data of every template in
   * this model supplies every field the template references.
   */
  function Value(data: map<string, string>, name: string): string {
    if name in data then data[name] else ""
  }

  /** Executes the template, writing each piece after what `out` already holds. */
  function RenderTo(t: Template, data: map<string, string>, out: string): string {
    match t
    case End => out
    case Text(s, rest) => RenderTo(rest, data, out + s)
    case Field(n, rest) => RenderTo(rest, data, out + Value(data, n))
  }

  function Render(t: Template, data: map<string, string>): string {
    RenderTo(t, data, "")
  }

  /** Two data sets that agree on every referenced field render the same text. */
  lemma {:induction false} RenderUsesOnlyRefs(t: Template, d1: map<string, string>, d2: map<string, string>, out: string)
    requires forall n :: n in Refs(t) ==> Value(d1, n) == Value(d2, n)
    ensures RenderTo(t, d1, out) == RenderTo(t, d2, out)
  {
    match t
    case End =>
    case Text(s, rest) => RenderUsesOnlyRefs(rest, d1, d2, out + s);
    case Field(n, rest) => RenderUsesOnlyRefs(rest, d1, d2, out + Value(d1, n));
  }

  /** Changing a field the template does not reference leaves its output as it was. */
  lemma RenderIgnoresUnreferenced(t: Template, data: map<string, string>, name: string, v: string, out: string)
    requires name !in Refs(t)
    ensures RenderTo(t, data[name := v], out) == RenderTo(t, data, out)
  {
    forall n | n in Refs(t)
      ensures Value(data[name := v], n) == Value(data, n)
    {
      assert n != name;
    }
    RenderUsesOnlyRefs(t, data[name := v], data, out);
  }
}
