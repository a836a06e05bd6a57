/**
 * The form that adds or edits one connection profile: which detail fields each store
 * type asks for, loading and resetting the form, field edits, and the record it submits.
 */
module ConnectionForm {
  import opened Options
  import opened Text
  import opened Records
  import opened Types

  /** The types offered by the selector, in display order. */
  const ConnectionTypes: seq<ConnectionType> := [PostgreSQL, MongoDB, Redis, Milvus]

  /** The selector offers every store type, each once. */
  lemma ConnectionTypesListsEachOnce()
    ensures forall t :: t in ConnectionTypes
    ensures forall i, j :: 0 <= i < j < |ConnectionTypes| ==> ConnectionTypes[i] != ConnectionTypes[j]
  {
    forall t
      ensures t in ConnectionTypes
    {
      match t
      case PostgreSQL => assert ConnectionTypes[0] == t;
      case MongoDB => assert ConnectionTypes[1] == t;
      case Redis => assert ConnectionTypes[2] == t;
      case Milvus => assert ConnectionTypes[3] == t;
    }
  }

  /** The detail inputs shown for a type: exactly the fields that type's detail interface
      declares, each once. */
  function FieldsForType(t: ConnectionType): (fs: seq<DetailField>)
    ensures forall f :: f in fs <==> Declares(t, f)
    ensures forall i, j :: 0 <= i < j < |fs| ==> fs[i] != fs[j]
  {
    match t
    case PostgreSQL => [Host, Port, User, Password, Dbname]
    case MongoDB => [Uri]
    case Redis => [Host, Port, Password, Db]
    case Milvus => [Host, Port]
  }

  datatype FormState = FormState(name: string, kind: ConnectionType, details: seq<(DetailField, string)>)

  /** The effect that runs when the form opens: an existing connection is loaded field by
      field; without one the form resets to an unnamed PostgreSQL profile with no details. */
  function Open(connection: Option<Connection>): (f: FormState)
    ensures connection.Some? ==>
      f.name == connection.value.name && f.kind == connection.value.kind && f.details == connection.value.details
    ensures connection.None? ==> f.name == "" && f.kind == PostgreSQL && f.details == []
  {
    match connection
    case Some(c) => FormState(c.name, c.kind, c.details)
    case None => FormState("", PostgreSQL, [])
  }

  function ChangeName(f: FormState, name: string): (f': FormState)
    ensures f'.name == name && f'.kind == f.kind && f'.details == f.details
  {
    f.(name := name)
  }

  /** Choosing another type drops every detail entered so far. */
  function ChangeType(f: FormState, t: ConnectionType): (f': FormState)
    ensures f'.kind == t && f'.details == [] && f'.name == f.name
    ensures forall field :: FieldValue(f', field) == ""
  {
    f.(kind := t, details := [])
  }

  /** An edit of one detail input sets that field and keeps every other field's value. */
  function ChangeDetail(f: FormState, field: DetailField, value: string): (f': FormState)
    ensures Get(f'.details, field) == Some(value)
    ensures forall other :: other != field ==> Get(f'.details, other) == Get(f.details, other)
    ensures DistinctKeys(f.details) ==> DistinctKeys(f'.details)
    ensures f'.name == f.name && f'.kind == f.kind
  {
    f.(details := Set(f.details, field, value))
  }

  /** What an input displays: the field's value, or the empty string when it has none. */
  function FieldValue(f: FormState, field: DetailField): string
  {
    Get(f.details, field).GetOr("")
  }

  /** The input for a field is a password input when the field's name contains
      "password": of the seven fields, only the password itself is masked. */
  function IsMasked(field: DetailField): (masked: bool)
    ensures masked <==> field == Password
  {
    Contains(FieldName(field), "password")
  }

  /** The save button is enabled, and the required name input satisfied, exactly when a
      name has been entered. */
  predicate CanSubmit(f: FormState)
  {
    f.name != ""
  }

  /** `handleSubmit`, reachable only through the enabled save button: the record saved
      carries the form's name, which is never empty, its type and details, under the
      edited connection's id when it has a non-empty one and a freshly generated id
      otherwise. */
  function Submit(f: FormState, editing: Option<Connection>, freshId: string): (c: Connection)
    requires CanSubmit(f)
    ensures c.name != ""
    ensures c.name == f.name && c.kind == f.kind && c.details == f.details
    ensures editing.Some? && editing.value.id != "" ==> c.id == editing.value.id
    ensures !(editing.Some? && editing.value.id != "") ==> c.id == freshId
  {
    var id := if editing.Some? then OrElse(editing.value.id, freshId) else freshId;
    Connection(id, f.name, f.kind, f.details)
  }

  /** Opening a connection for editing and saving it untouched gives back that connection. */
  lemma OpenSubmitRoundTrip(c: Connection, freshId: string)
    requires c.id != "" && c.name != ""
    ensures Submit(Open(Some(c)), Some(c), freshId) == c
  {
  }

  /** Two detail edits of one field leave the later value; edits of distinct fields commute. */
  lemma DetailEditsCommute(f: FormState, a: DetailField, x: string, b: DetailField, y: string)
    requires a != b
    ensures forall field ::
      Get(ChangeDetail(ChangeDetail(f, a, x), b, y).details, field)
      == Get(ChangeDetail(ChangeDetail(f, b, y), a, x).details, field)
  {
  }
}
