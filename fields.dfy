/** The six character-card fields every template, service and state object refers to. */
module Fields {
  import opened Wrappers

  datatype FieldName = Name | Description | Scenario | FirstMes | MesExample | Personality

  /** The enumeration's string value, as written in cards and templates. */
  function Value(f: FieldName): string
  {
    match f
    case Name => "name"
    case Description => "description"
    case Scenario => "scenario"
    case FirstMes => "first_mes"
    case MesExample => "mes_example"
    case Personality => "personality"
  }

  /** `FieldName(s)`: the member whose value is `s`, or the ValueError case. */
  function FromValue(s: string): (r: Option<FieldName>)
    ensures r.Some? ==> Value(r.value) == s
  {
    if s == "name" then Some(Name)
    else if s == "description" then Some(Description)
    else if s == "scenario" then Some(Scenario)
    else if s == "first_mes" then Some(FirstMes)
    else if s == "mes_example" then Some(MesExample)
    else if s == "personality" then Some(Personality)
    else None
  }

  /** Looking a field up by its value gives the field back, and only values of fields are found. */
  lemma {:induction false} FromValueInvertsValue(f: FieldName, s: string)
    ensures FromValue(Value(f)) == Some(f)
    ensures FromValue(s).Some? <==> exists g :: Value(g) == s
  {
    if exists g :: Value(g) == s {
      var g :| Value(g) == s;
      assert FromValue(s) == Some(g);
    }
  }

  /** The members in declaration order, which is the order Python iterates the enumeration in. */
  const AllFields: seq<FieldName> := [Name, Description, Scenario, FirstMes, MesExample, Personality]

  lemma {:induction false} AllFieldsListsEachOnce()
    ensures forall f :: f in AllFields
    ensures forall i, j :: 0 <= i < j < |AllFields| ==> AllFields[i] != AllFields[j]
  {
    forall f ensures f in AllFields {
      match f
      case Name => assert AllFields[0] == f;
      case Description => assert AllFields[1] == f;
      case Scenario => assert AllFields[2] == f;
      case FirstMes => assert AllFields[3] == f;
      case MesExample => assert AllFields[4] == f;
      case Personality => assert AllFields[5] == f;
    }
  }

  /** Tags that the required-field extraction never reads as field references. */
  const ReservedTags: set<string> := {"input", "if_input", "/if_input", "char", "user"}

  /** No field's value is a reserved tag. */
  lemma {:induction false} NoFieldIsReserved()
    ensures forall f :: Value(f) !in ReservedTags
  {
    forall f ensures Value(f) !in ReservedTags {
      match f
      case Name => case Description => case Scenario =>
      case FirstMes => case MesExample => case Personality =>
    }
  }

  /** Distinct fields have distinct values. */
  lemma {:induction false} ValueInjective()
    ensures forall f, g :: Value(f) == Value(g) ==> f == g
  {
    forall f, g | Value(f) == Value(g) ensures f == g {
      FromValueInvertsValue(f, Value(g));
      FromValueInvertsValue(g, Value(g));
    }
  }
}
