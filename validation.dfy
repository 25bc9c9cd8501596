/**
 * `ValidationService`: a registry of validators per field type, run in
 * registration order until one fails, and the default validators for names,
 * descriptions, first messages and message examples. A validated value is a
 * JSON value; a validator that raises makes the whole validation an error.
 */
module CoreValidation {
  import opened Wrappers
  import opened JsonValues
  import opened Strings

  /** `ValidationLevel`. */
  datatype Level = Info | Warning | Error

  /** `ValidationResult`; its context is not modelled. */
  datatype ValidationResult = ValidationResult(isValid: bool, level: Level, message: string, fieldName: string, validationType: string)

  /** The default validators. */
  datatype Validator =
    | NameRequired | NameLength | NameChars
    | DescriptionLength
    | FirstMessageRequired | FirstMessageLength
    | ExamplesFormat | ExamplesCount

  /** What running one validator gives: a result, or an exception. */
  datatype Outcome = Returned(result: ValidationResult) | Raised

  const Passed := ValidationResult(true, Info, "", "", "")

  function Rejected(level: Level, message: string, kind: string): ValidationResult
  {
    ValidationResult(false, level, message, "", kind)
  }

  /** `len(v)`, for the values that have one. */
  function Len(v: Json): Option<nat>
  {
    match v
    case Str(s) => Some(|s|)
    case Arr(items) => Some(|items|)
    case Obj(entries) => Some(|entries|)
    case _ => None
  }

  /** A character of the class `[\w\s-]`: an ASCII letter or digit, `_`, whitespace or `-`. */
  predicate NameChar(c: char)
  {
    ('a' <= c <= 'z') || ('A' <= c <= 'Z') || ('0' <= c <= '9') || c == '_' || c == '-' || IsSpace(c)
  }

  /** `not value or not value.strip()`, raising for a truthy value that is not text. */
  function Required(value: Json, message: string): Outcome
  {
    if !Truthy(value) then Returned(Rejected(Error, message, "required"))
    else if !value.Str? then Raised
    else if IsBlank(value.s) then Returned(Rejected(Error, message, "required"))
    else Returned(Passed)
  }

  /** The index of the first example that is not an object with a `message` entry. */
  function FirstBadExample(items: seq<Json>): (r: Option<nat>)
    ensures r.None? <==> forall i :: 0 <= i < |items| ==> items[i].Obj? && "message" in items[i].entries
    ensures r.Some? ==> r.value < |items| && !(items[r.value].Obj? && "message" in items[r.value].entries)
    ensures r.Some? ==> forall i :: 0 <= i < r.value ==> items[i].Obj? && "message" in items[i].entries
  {
    if |items| == 0 then None
    else if !(items[0].Obj? && "message" in items[0].entries) then Some(0)
    else match FirstBadExample(items[1..])
      case None => None
      case Some(i) => Some(i + 1)
  }

  /** The result of one validator on a value. */
  function Run(v: Validator, value: Json): Outcome
  {
    match v
    case NameRequired => Required(value, "Name is required")
    case NameLength =>
      if Len(value).None? then Raised
      else if Len(value).value < 2 then Returned(Rejected(Error, "Name must be at least 2 characters", "length"))
      else if Len(value).value > 50 then Returned(Rejected(Warning, "Name should be less than 50 characters", "length"))
      else Returned(Passed)
    case NameChars =>
      if !value.Str? then Raised
      else if |value.s| > 0 && forall i :: 0 <= i < |value.s| ==> NameChar(value.s[i]) then Returned(Passed)
      else Returned(Rejected(Error, "Name contains invalid characters", "format"))
    case DescriptionLength =>
      if Len(value).None? then Raised
      else if Len(value).value > 1000 then Returned(Rejected(Warning, "Description should be less than 1000 characters", "length"))
      else Returned(Passed)
    case FirstMessageRequired => Required(value, "First message is required")
    case FirstMessageLength =>
      if Len(value).None? then Raised
      else if Len(value).value < 10 then Returned(Rejected(Warning, "First message seems too short", "length"))
      else if Len(value).value > 2000 then Returned(Rejected(Warning, "First message should be less than 2000 characters", "length"))
      else Returned(Passed)
    case ExamplesFormat =>
      if !value.Arr? then Returned(Rejected(Error, "Examples must be a list", "format"))
      else if FirstBadExample(value.items).Some? then
        Returned(Rejected(Error, "Example " + Decimal(FirstBadExample(value.items).value + 1) + " has invalid format", "format"))
      else Returned(Passed)
    case ExamplesCount =>
      if Len(value).None? then Raised
      else if Len(value).value < 2 then Returned(Rejected(Warning, "At least 2 examples recommended", "count"))
      else if Len(value).value > 10 then Returned(Rejected(Warning, "Too many examples (max 10 recommended)", "count"))
      else Returned(Passed)
  }

  /** The result `validate_field` reports when every validator passed. */
  function AllPassed(fieldType: string): ValidationResult
  {
    ValidationResult(true, Info, "Validation passed", fieldType, "complete")
  }

  /** The result `validate_field` reports when a validator raised; the exception's text is not modelled. */
  function Errored(fieldType: string): ValidationResult
  {
    ValidationResult(false, Error, "Validation error", fieldType, "error")
  }

  /** `validate_field` with these validators: the first failure or exception, else the pass result. */
  function Check(validators: seq<Validator>, fieldType: string, value: Json): (r: ValidationResult)
    ensures r.isValid <==> forall i :: 0 <= i < |validators| ==> Run(validators[i], value).Returned? && Run(validators[i], value).result.isValid
    ensures r.isValid ==> r == AllPassed(fieldType)
  {
    if |validators| == 0 then AllPassed(fieldType)
    else match Run(validators[0], value)
      case Raised => Errored(fieldType)
      case Returned(result) =>
        if !result.isValid then result
        else
          assert forall i :: 0 < i < |validators| ==> validators[i] == validators[1..][i - 1];
          Check(validators[1..], fieldType, value)
  }

  /** `dict.get(key, [])`. */
  function Lookup(registry: map<string, seq<Validator>>, fieldType: string): seq<Validator>
  {
    if fieldType in registry then registry[fieldType] else []
  }

  /** The validators `_setup_default_validators` registers. */
  const Defaults: map<string, seq<Validator>> := map[
    "name" := [NameRequired, NameLength, NameChars],
    "description" := [DescriptionLength],
    "first_message" := [FirstMessageRequired, FirstMessageLength],
    "examples" := [ExamplesFormat, ExamplesCount]]

  /**
   * A name passes the default validators exactly when it is not blank, has 2 to 50
   * characters, and holds only word characters, whitespace and `-`; a blank one is
   * reported as missing, and an over-long one only as a warning.
   */
  lemma {:induction false} NameRule(s: string)
    ensures var r := Check(Defaults["name"], "name", Str(s));
      && (r.isValid <==> !IsBlank(s) && 2 <= |s| <= 50 && forall i :: 0 <= i < |s| ==> NameChar(s[i]))
      && (IsBlank(s) ==> r.message == "Name is required" && r.level == Error)
      && (!IsBlank(s) && |s| > 50 ==> !r.isValid && r.level == Warning)
  {
    var vs := Defaults["name"];
    assert vs[0] == NameRequired && vs[1] == NameLength && vs[2] == NameChars;
    assert IsBlank("");
  }

  /** A description passes exactly when it has at most 1000 characters. */
  lemma {:induction false} DescriptionRule(s: string)
    ensures Check(Defaults["description"], "description", Str(s)).isValid <==> |s| <= 1000
  {
    assert Defaults["description"][0] == DescriptionLength;
  }

  /** A first message passes exactly when it is not blank and has 10 to 2000 characters. */
  lemma {:induction false} FirstMessageRule(s: string)
    ensures Check(Defaults["first_message"], "first_message", Str(s)).isValid <==> !IsBlank(s) && 10 <= |s| <= 2000
  {
    var vs := Defaults["first_message"];
    assert vs[0] == FirstMessageRequired && vs[1] == FirstMessageLength;
    assert IsBlank("");
  }

  /** Examples pass exactly when they are a list of 2 to 10 objects that each have a `message` entry. */
  lemma {:induction false} ExamplesRule(v: Json)
    ensures Check(Defaults["examples"], "examples", v).isValid <==>
      v.Arr? && 2 <= |v.items| <= 10 && forall i :: 0 <= i < |v.items| ==> v.items[i].Obj? && "message" in v.items[i].entries
  {
    var vs := Defaults["examples"];
    assert vs[0] == ExamplesFormat && vs[1] == ExamplesCount;
  }

  /** A field type without validators always passes. */
  lemma {:induction false} UnregisteredPasses(fieldType: string, value: Json)
    requires fieldType !in Defaults
    ensures Check(Lookup(Defaults, fieldType), fieldType, value) == AllPassed(fieldType)
  {
  }

  /** `ValidationService`; validators other than the defaults are not modelled. */
  class ValidationService {
    var validators: map<string, seq<Validator>>

    /** Registers the default validators, in their order. */
    constructor()
      ensures validators == Defaults
    {
      validators := map[];
      new;
      assert Lookup(validators, "name") == [];
      RegisterValidator("name", NameRequired);
      RegisterValidator("name", NameLength);
      RegisterValidator("name", NameChars);
      assert validators.Keys == {"name"} && validators["name"] == Defaults["name"];
      assert Lookup(validators, "description") == [];
      RegisterValidator("description", DescriptionLength);
      assert validators.Keys == {"name", "description"} && validators["description"] == Defaults["description"];
      assert Lookup(validators, "first_message") == [];
      RegisterValidator("first_message", FirstMessageRequired);
      RegisterValidator("first_message", FirstMessageLength);
      assert validators["first_message"] == Defaults["first_message"];
      assert Lookup(validators, "examples") == [];
      RegisterValidator("examples", ExamplesFormat);
      RegisterValidator("examples", ExamplesCount);
      assert validators.Keys == Defaults.Keys;
      assert validators["examples"] == Defaults["examples"];
    }

    /** `register_validator`: appends to the field type's list, starting one if needed. */
    method RegisterValidator(fieldType: string, v: Validator)
      modifies this
      ensures validators == old(validators)[fieldType := Lookup(old(validators), fieldType) + [v]]
    {
      if fieldType !in validators {
        validators := validators[fieldType := []];
      }
      validators := validators[fieldType := validators[fieldType] + [v]];
    }

    /** `_validate_examples_format`, whose scan over the examples is a loop. */
    static method ValidateExamplesFormat(value: Json) returns (r: Outcome)
      ensures r == Run(ExamplesFormat, value)
    {
      if !value.Arr? {
        return Returned(Rejected(Error, "Examples must be a list", "format"));
      }
      for i := 0 to |value.items|
        invariant forall k :: 0 <= k < i ==> value.items[k].Obj? && "message" in value.items[k].entries
      {
        var example := value.items[i];
        if !(example.Obj? && "message" in example.entries) {
          return Returned(Rejected(Error, "Example " + Decimal(i + 1) + " has invalid format", "format"));
        }
      }
      return Returned(Passed);
    }

    static method RunValidator(v: Validator, value: Json) returns (r: Outcome)
      ensures r == Run(v, value)
    {
      if v == ExamplesFormat {
        r := ValidateExamplesFormat(value);
      } else {
        r := Run(v, value);
      }
    }

    /** `validate_field`: runs the field type's validators in order and reports the first that fails. */
    method ValidateField(fieldType: string, value: Json) returns (r: ValidationResult)
      ensures r == Check(Lookup(validators, fieldType), fieldType, value)
    {
      var vs := Lookup(validators, fieldType);
      for i := 0 to |vs|
        invariant Check(vs, fieldType, value) == Check(vs[i..], fieldType, value)
      {
        assert vs[i..][1..] == vs[i + 1..];
        var outcome := RunValidator(vs[i], value);
        if outcome.Raised? {
          return Errored(fieldType);
        }
        if !outcome.result.isValid {
          return outcome.result;
        }
      }
      return AllPassed(fieldType);
    }
  }
}
