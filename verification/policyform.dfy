/** When two policy documents say the same. */
module PolicyForm {
  import opened Minio

  /** A statement up to the order of its actions and resources. */
  datatype Form = Form(action: multiset<string>, effect: string, resource: multiset<string>)

  function FormOf(s: Statement): Form {
    Form(multiset(s.action), s.effect, multiset(s.resource))
  }

  function Forms(statements: seq<Statement>): multiset<Form> {
    if statements == [] then multiset{} else multiset{FormOf(statements[0])} + Forms(statements[1..])
  }

  /** The documents agree up to the order of statements, actions and resources. */
  predicate Equivalent(d: Doc, e: Doc) {
    d.version == e.version && Forms(d.statement) == Forms(e.statement)
  }
}
