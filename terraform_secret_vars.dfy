/**
 * The pre-apply check of `terraform/validate_secret_vars.py`: with
 * `create_secret_versions` on, the three API key values must not be blank.
 * The script's input is the JSON value read from standard input (None when
 * it cannot be read); its exit code, and what it prints on success, are the
 * outcome.
 */
module SecretVars {
  import opened Wrappers
  import opened Text
  import opened Json

  /** Python's `bool(x)` for a JSON value. */
  predicate IsTruthy(j: Json) {
    match j
    case JNull => false
    case JBool(b) => b
    case JInt(i) => i != 0
    case JString(s) => s != []
    case JArray(items) => items != []
    case JObject(fields) => fields != []
  }

  /** How the script ends: a line on standard output, an exit with a code, or an uncaught exception. */
  datatype Outcome =
    | Printed(stdout: String)
    | Exited(code: nat)
    | Raised(error: String)

  /** The process exit code: an uncaught exception exits with 1. */
  function ExitCode(o: Outcome): nat {
    match o
    case Printed(_) => 0
    case Exited(code) => code
    case Raised(_) => 1
  }

  const OkLine: String := "{\"ok\": \"true\"}"

  /** `create_secret_versions`: a string counts when it is "1", "true" or "yes" in any case, anything else by its truthiness. */
  function CreateFlag(v: Option<Json>): (create: bool)
    ensures v.Some? && v.value.JString? ==> (create <==> Lower(v.value.s) in ["1", "true", "yes"])
    ensures v.None? ==> !create
  {
    match v
    case None => false
    case Some(JString(s)) => Lower(s) in ["1", "true", "yes"]
    case Some(j) => IsTruthy(j)
  }

  /** `data.get(key, '') or ''`: a falsy or missing value is the empty string. */
  function SecretOf(v: Option<Json>): (r: Option<Json>)
    ensures v.None? || !IsTruthy(v.value) ==> r == Some(JString([]))
    ensures v.Some? && IsTruthy(v.value) ==> r == v
  {
    match v
    case None => Some(JString([]))
    case Some(j) => if IsTruthy(j) then v else Some(JString([]))
  }

  /**
   * `empty(s)`, `len(s.strip()) == 0`: all whitespace (`StripBlank`); a value
   * that is not a string has no `strip` and raises.
   */
  function Empty(v: Option<Json>): (r: Result<bool>)
    ensures r.Err? <==> !(v.Some? && v.value.JString?)
  {
    match v
    case Some(JString(s)) => Ok(AllSpace(s))
    case _ => Err("AttributeError: object has no attribute 'strip'")
  }

  /** Stripping leaves nothing exactly when the text is all whitespace. */
  lemma StripBlank(s: String)
    ensures Strip(s) == [] <==> AllSpace(s)
  {
    if AllSpace(s) {
      assert Strip(s) == [];
    }
  }

  /** `empty(a) or empty(b) or empty(c)`, evaluated left to right and stopping at the first blank value. */
  function AnyEmpty(a: Option<Json>, b: Option<Json>, c: Option<Json>): Result<bool> {
    match Empty(a)
    case Err(e) => Err(e)
    case Ok(true) => Ok(true)
    case Ok(false) =>
      (match Empty(b)
       case Err(e) => Err(e)
       case Ok(true) => Ok(true)
       case Ok(false) => Empty(c))
  }

  /** The decision of `main` once the flag and the three secret values have been looked up. */
  function Decide(create: bool, gemini: Option<Json>, anthropic: Option<Json>, custom: Option<Json>): Outcome {
    if !create then Printed(OkLine)
    else
      match AnyEmpty(SecretOf(gemini), SecretOf(anthropic), SecretOf(custom))
      case Err(e) => Raised(e)
      case Ok(true) => Exited(1)
      case Ok(false) => Printed(OkLine)
  }

  /** `main`, given the parsed input or None when it could not be read. */
  function CheckInput(data: Option<Json>): (o: Outcome)
    ensures data.None? <==> o == Exited(2)
    ensures data.Some? && !data.value.JObject? ==> o.Raised?
  {
    match data
    case None => Exited(2)
    case Some(JObject(fields)) =>
      Decide(CreateFlag(Get(fields, "create_secret_versions")),
             Get(fields, "gemini"), Get(fields, "anthropic"), Get(fields, "custom"))
    case Some(_) => Raised("AttributeError: object has no attribute 'get'")
  }

  /** A secret value that the script can read: missing, falsy, or a string. */
  predicate Readable(v: Option<Json>) {
    v.None? || !IsTruthy(v.value) || v.value.JString?
  }

  /** The text a readable secret value stands for. */
  function SecretText(v: Option<Json>): (t: String)
    requires Readable(v)
    ensures SecretOf(v) == Some(JString(t))
  {
    if v.None? || !IsTruthy(v.value) then [] else v.value.s
  }

  /**
   * With readable secret values, the script fails with exit code 1 exactly
   * when creation is on and one of the three values is blank, and otherwise
   * prints the ok line.
   */
  lemma DecideIff(create: bool, gemini: Option<Json>, anthropic: Option<Json>, custom: Option<Json>)
    requires Readable(gemini) && Readable(anthropic) && Readable(custom)
    ensures var missing := AllSpace(SecretText(gemini)) || AllSpace(SecretText(anthropic)) || AllSpace(SecretText(custom));
      && (ExitCode(Decide(create, gemini, anthropic, custom)) == 1 <==> create && missing)
      && (!(create && missing) ==> Decide(create, gemini, anthropic, custom) == Printed(OkLine))
  {
    var g := SecretText(gemini);
    var a := SecretText(anthropic);
    var c := SecretText(custom);
    assert AnyEmpty(SecretOf(gemini), SecretOf(anthropic), SecretOf(custom)) == Ok(AllSpace(g) || AllSpace(a) || AllSpace(c));
  }

  /** With creation off, the secret values are never looked at: any of them passes, even one that is not a string. */
  lemma CreationOffPasses(gemini: Option<Json>, anthropic: Option<Json>, custom: Option<Json>)
    ensures Decide(false, gemini, anthropic, custom) == Printed(OkLine)
  {
  }

  /** With creation on, a first secret that is truthy but not a string makes the script raise. */
  lemma UnreadableRaises(gemini: Json, anthropic: Option<Json>, custom: Option<Json>)
    requires IsTruthy(gemini) && !gemini.JString?
    ensures Decide(true, Some(gemini), anthropic, custom).Raised?
  {
  }
}
