/**
 * Validation of task payloads against the MCPTaskRequest JSON Schema
 * (validation.py). The schema is kept as data and checked by a small
 * interpreter for the keywords it uses (`type`, `required`, `properties`,
 * `enum`, `additionalProperties`, with their JSON Schema meaning); a lemma
 * states in plain terms which payloads it accepts.
 */
module Validation {
  import opened Wrappers
  import opened Text
  import opened Json

  datatype JsonType = ObjectType | StringType | IntegerType

  datatype Schema = Schema(
    typ: Option<JsonType>,
    required: seq<string>,
    properties: seq<(string, Schema)>,
    enumValues: Option<seq<Json>>,
    additional: Option<Schema>)

  function TypeOnly(t: JsonType): Schema {
    Schema(Some(t), [], [], None, None)
  }

  /** The MCPTaskRequest schema of validation.py. */
  function McpTaskSchema(): Schema {
    Schema(
      Some(ObjectType),
      ["task_id", "prompt", "provider"],
      [("task_id", TypeOnly(StringType)),
       ("prompt", TypeOnly(StringType)),
       ("provider", Schema(Some(StringType), [], [], Some([Str("openai"), Str("ollama")]), None)),
       ("model", TypeOnly(StringType)),
       ("timeout_seconds", TypeOnly(IntegerType)),
       ("env_overrides", Schema(Some(ObjectType), [], [], None, Some(TypeOnly(StringType))))],
      None,
      None)
  }

  /** JSON Schema `type`: booleans are not integers, and only dicts are objects. */
  predicate HasType(j: Json, t: JsonType) {
    match t
    case ObjectType => j.Obj?
    case StringType => j.Str?
    case IntegerType => j.Int?
  }

  function TypeName(t: JsonType): string {
    match t
    case ObjectType => "object"
    case StringType => "string"
    case IntegerType => "integer"
  }

  predicate DeclaredProperty(s: Schema, name: string) {
    exists i :: 0 <= i < |s.properties| && s.properties[i].0 == name
  }

  function TypeErrors(s: Schema, j: Json): seq<string> {
    if s.typ.Some? && !HasType(j, s.typ.value)
    then [Repr(j) + " is not of type '" + TypeName(s.typ.value) + "'"] else []
  }

  function EnumErrors(s: Schema, j: Json): seq<string> {
    if s.enumValues.Some? && j !in s.enumValues.value
    then [Repr(j) + " is not one of " + Repr(Arr(s.enumValues.value))] else []
  }

  /** `required`, from the `k`-th name on. */
  function RequiredErrors(s: Schema, j: Json, k: nat): (r: seq<string>)
    requires j.Obj? && k <= |s.required|
    ensures r == [] <==> RequiredHold(s, j, k)
    decreases |s.required| - k
  {
    if k == |s.required| then []
    else
      (if HasKey(j, s.required[k]) then [] else [StrRepr(s.required[k]) + " is a required property"])
      + RequiredErrors(s, j, k + 1)
  }

  /** `properties`, from the `k`-th declared property on. */
  function PropertyErrors(s: Schema, j: Json, k: nat): (r: seq<string>)
    requires j.Obj? && k <= |s.properties|
    ensures r == [] <==> PropertiesHold(s, j, k)
    decreases s, 1, |s.properties| - k
  {
    if k == |s.properties| then []
    else
      (match Get(j, s.properties[k].0)
       case Some(v) => Violations(s.properties[k].1, v)
       case None => [])
      + PropertyErrors(s, j, k + 1)
  }

  /** `additionalProperties`, from the `k`-th field of the instance on. */
  function AdditionalErrors(s: Schema, j: Json, k: nat): (r: seq<string>)
    requires j.Obj? && s.additional.Some? && k <= |j.fields|
    ensures r == [] <==> AdditionalHold(s, j, k)
    decreases s, 1, |j.fields| - k
  {
    if k == |j.fields| then []
    else
      (if DeclaredProperty(s, j.fields[k].0) then [] else Violations(s.additional.value, j.fields[k].1))
      + AdditionalErrors(s, j, k + 1)
  }

  /**
   * Every violation of `s` by `j`, each with jsonschema's wording, in the
   * schema's keyword order (`type`, `required`, `properties`, `enum`,
   * `additionalProperties`). Object keywords apply only to objects. None is
   * reported exactly when the instance is valid.
   */
  function Violations(s: Schema, j: Json): (r: seq<string>)
    ensures r == [] <==> Satisfies(s, j)
    decreases s, 2, 0
  {
    TypeErrors(s, j)
    + (if j.Obj? then RequiredErrors(s, j, 0) else [])
    + (if j.Obj? then PropertyErrors(s, j, 0) else [])
    + EnumErrors(s, j)
    + (if j.Obj? && s.additional.Some? then AdditionalErrors(s, j, 0) else [])
  }

  predicate RequiredHold(s: Schema, j: Json, k: nat)
    requires j.Obj? && k <= |s.required|
    decreases |s.required| - k
  {
    k == |s.required| || (HasKey(j, s.required[k]) && RequiredHold(s, j, k + 1))
  }

  predicate PropertiesHold(s: Schema, j: Json, k: nat)
    requires j.Obj? && k <= |s.properties|
    decreases s, 1, |s.properties| - k
  {
    k == |s.properties|
    || ((match Get(j, s.properties[k].0)
         case Some(v) => Satisfies(s.properties[k].1, v)
         case None => true)
        && PropertiesHold(s, j, k + 1))
  }

  predicate AdditionalHold(s: Schema, j: Json, k: nat)
    requires j.Obj? && s.additional.Some? && k <= |j.fields|
    decreases s, 1, |j.fields| - k
  {
    k == |j.fields|
    || ((DeclaredProperty(s, j.fields[k].0) || Satisfies(s.additional.value, j.fields[k].1))
        && AdditionalHold(s, j, k + 1))
  }

  /** `j` is valid against `s`: each keyword's condition, object keywords only for objects. */
  predicate Satisfies(s: Schema, j: Json)
    decreases s, 2, 0
  {
    && (s.typ.Some? ==> HasType(j, s.typ.value))
    && (j.Obj? ==> RequiredHold(s, j, 0))
    && (j.Obj? ==> PropertiesHold(s, j, 0))
    && (s.enumValues.Some? ==> j in s.enumValues.value)
    && (j.Obj? && s.additional.Some? ==> AdditionalHold(s, j, 0))
  }

  /** A field of the given type, when the key is present. */
  predicate OptionalOfType(j: Json, key: string, t: JsonType)
    requires j.Obj?
  {
    match Get(j, key)
    case None => true
    case Some(v) => HasType(v, t)
  }

  /** Every value of a dict is a string. */
  predicate StringValues(e: Json) {
    e.Obj? && forall i :: 0 <= i < |e.fields| ==> e.fields[i].1.Str?
  }

  /** The payloads the MCPTaskRequest schema accepts, stated field by field. */
  predicate WellFormedTask(j: Json) {
    && j.Obj?
    && HasKey(j, "task_id") && HasKey(j, "prompt") && HasKey(j, "provider")
    && OptionalOfType(j, "task_id", StringType)
    && OptionalOfType(j, "prompt", StringType)
    && Get(j, "provider") in {Some(Str("openai")), Some(Str("ollama"))}
    && OptionalOfType(j, "model", StringType)
    && OptionalOfType(j, "timeout_seconds", IntegerType)
    && (Get(j, "env_overrides").Some? ==> StringValues(Get(j, "env_overrides").value))
  }

  lemma {:induction false} StringValuesFrom(e: Json, k: nat)
    requires e.Obj? && k <= |e.fields|
    ensures AdditionalHold(EnvOverridesSchema(), e, k) <==> forall i :: k <= i < |e.fields| ==> e.fields[i].1.Str?
    decreases |e.fields| - k
  {
    if k < |e.fields| {
      StringValuesFrom(e, k + 1);
    }
  }

  function EnvOverridesSchema(): Schema {
    Schema(Some(ObjectType), [], [], None, Some(TypeOnly(StringType)))
  }

  lemma TypeOnlyMeaning(t: JsonType, v: Json)
    ensures Satisfies(TypeOnly(t), v) <==> HasType(v, t)
  {
    if v.Obj? {
      assert RequiredHold(TypeOnly(t), v, 0);
      assert PropertiesHold(TypeOnly(t), v, 0);
    }
  }

  lemma TypedPropertyStep(s: Schema, j: Json, k: nat, t: JsonType)
    requires j.Obj? && k < |s.properties| && s.properties[k].1 == TypeOnly(t)
    ensures PropertiesHold(s, j, k) <==> PropertiesHold(s, j, k + 1) && OptionalOfType(j, s.properties[k].0, t)
  {
    match Get(j, s.properties[k].0) {
      case Some(v) => TypeOnlyMeaning(t, v);
      case None =>
    }
  }

  lemma EnvOverridesStep(j: Json)
    requires j.Obj?
    ensures PropertiesHold(McpTaskSchema(), j, 5) <==>
      (Get(j, "env_overrides").Some? ==> StringValues(Get(j, "env_overrides").value))
  {
    var s := McpTaskSchema();
    assert s.properties[5] == ("env_overrides", EnvOverridesSchema());
    assert PropertiesHold(s, j, 6);
    match Get(j, "env_overrides") {
      case Some(e) =>
        if e.Obj? {
          StringValuesFrom(e, 0);
          assert RequiredHold(EnvOverridesSchema(), e, 0);
          assert PropertiesHold(EnvOverridesSchema(), e, 0);
        }
      case None =>
    }
  }

  lemma ProviderStep(j: Json)
    requires j.Obj?
    ensures PropertiesHold(McpTaskSchema(), j, 2) <==>
      (PropertiesHold(McpTaskSchema(), j, 3) &&
       (Get(j, "provider").Some? ==> Get(j, "provider") in {Some(Str("openai")), Some(Str("ollama"))}))
  {
    var p := Schema(Some(StringType), [], [], Some([Str("openai"), Str("ollama")]), None);
    assert McpTaskSchema().properties[2] == ("provider", p);
    match Get(j, "provider") {
      case Some(v) =>
        if v.Obj? {
          assert RequiredHold(p, v, 0);
          assert PropertiesHold(p, v, 0);
        }
      case None =>
    }
  }

  /** The `properties` keyword of the MCPTaskRequest schema, one declared field at a time. */
  lemma McpPropertiesMeaning(j: Json)
    requires j.Obj?
    ensures PropertiesHold(McpTaskSchema(), j, 0) <==>
      && OptionalOfType(j, "task_id", StringType)
      && OptionalOfType(j, "prompt", StringType)
      && (Get(j, "provider").Some? ==> Get(j, "provider") in {Some(Str("openai")), Some(Str("ollama"))})
      && OptionalOfType(j, "model", StringType)
      && OptionalOfType(j, "timeout_seconds", IntegerType)
      && (Get(j, "env_overrides").Some? ==> StringValues(Get(j, "env_overrides").value))
  {
    var s := McpTaskSchema();
    TypedPropertyStep(s, j, 0, StringType);
    TypedPropertyStep(s, j, 1, StringType);
    TypedPropertyStep(s, j, 3, StringType);
    TypedPropertyStep(s, j, 4, IntegerType);
    EnvOverridesStep(j);
    ProviderStep(j);
  }

  /** The schema accepts exactly the payloads described field by field. */
  lemma McpSchemaMeaning(j: Json)
    ensures Satisfies(McpTaskSchema(), j) <==> WellFormedTask(j)
  {
    var s := McpTaskSchema();
    if j.Obj? {
      assert RequiredHold(s, j, 0) <==> HasKey(j, "task_id") && HasKey(j, "prompt") && HasKey(j, "provider") by {
        assert RequiredHold(s, j, 3);
      }
      McpPropertiesMeaning(j);
    }
  }

  datatype ValidationError = ValidationError(message: string)

  const InvalidPrefix := "Invalid MCPTaskRequest: "

  /**
   * `validate_mcp_request`: true for a payload the schema accepts; otherwise
   * a ValidationError whose message is the prefix followed by a violation.
   */
  function ValidateMcpRequest(payload: Json): (r: Result<bool, ValidationError>)
    ensures r.Ok? <==> WellFormedTask(payload)
    ensures r.Ok? ==> r.value
    ensures r.Err? ==> InvalidPrefix <= r.error.message
  {
    McpSchemaMeaning(payload);
    var errs := Violations(McpTaskSchema(), payload);
    if errs == [] then Ok(true) else Err(ValidationError(InvalidPrefix + errs[0]))
  }
}
