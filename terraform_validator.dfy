/**
 * The configuration checks of `terraform/validate_terraform.py`.  The
 * validator object collects errors, warnings and notes while its checks
 * run.  Reading the `.tf` files and the regular expression searches over
 * them are inputs: a `Scan` holds what each search finds.  Notes are kept as
 * values; `NoteText` gives the message the script records for each.
 */
module TerraformChecks {
  import opened Wrappers
  import opened Text

  /** What the validator records. */
  datatype Note =
    | NoFiles
    | NoConditionalResources
    | UnconditionalReference(file: String, resource: String)
    | ApiNotEnabled(api: String)
    | ApiEnabledFor(api: String, resource: String)
    | UndefinedVariable(name: String)
    | AllVariablesDefined(count: nat)
    | MissingProject(resource: String)
    | EmptyDependsOn
    | CircularDependency
    | NoCircularDependencies

  function NoteText(n: Note): String {
    match n
    case NoFiles => "No Terraform files found in directory"
    case NoConditionalResources => "No conditional resources found"
    case UnconditionalReference(f, r) =>
      f + ": Unconditional reference to conditional resource '" + r + "' in depends_on. Use conditional logic or [0] notation."
    case ApiNotEnabled(api) => "API " + api + " not explicitly enabled in configuration"
    case ApiEnabledFor(api, r) => "✓ API " + api + " will be enabled for " + r
    case UndefinedVariable(v) => "Variable '" + v + "' is referenced but not defined in variables.tf"
    case AllVariablesDefined(n) => "✓ All " + NatToString(n) + " variable references are defined"
    case MissingProject(r) => "Resource '" + r + "' may be missing 'project' field"
    case EmptyDependsOn => "Empty depends_on block"
    case CircularDependency => "Circular dependency detected"
    case NoCircularDependencies => "✓ No obvious circular dependencies detected"
  }

  /** A match of the `resource "google_<type>" "<name>" { <body> }` search. */
  datatype Resource = Resource(kind: String, name: String, body: String)

  /** What the regular expression searches find in the loaded files. */
  datatype Scan = Scan(
    /** the names `variable "<name>"` declares in variables.tf */
    declared: set<String>,
    /** the conditional resources `<type>.<name>` (those with a `count`), in the order first found */
    conditional: seq<String>,
    /** whether a file's `depends_on` lists a conditional resource without `[0]` */
    unconditionalIn: (String, String) -> bool,
    /** the distinct `var.<name>` references, in sorted order */
    references: seq<String>,
    /** the google resources with their bodies, in order */
    resources: seq<Resource>,
    /** whether some `depends_on = []` is empty */
    emptyDependsOn: bool,
    /** whether some `depends_on` repeats a `google_project_service` entry */
    circular: bool)

  // ---------------------------------------------------------------------------
  // What each check records
  // ---------------------------------------------------------------------------

  /** `"\n".join(self.tf_files.values())` */
  function Contents(files: seq<(String, String)>): String {
    Join("\n", seq(|files|, k requires 0 <= k < |files| => files[k].1))
  }

  function Names(files: seq<(String, String)>): seq<String> {
    seq(|files|, k requires 0 <= k < |files| => files[k].0)
  }

  /** The unconditional references found in one file, in the order of the conditional resources. */
  function FileReferences(file: String, conditional: seq<String>, found: (String, String) -> bool): (r: seq<Note>)
    ensures |r| <= |conditional|
    ensures forall n :: n in r ==> n.UnconditionalReference? && n.file == file && n.resource in conditional
  {
    if conditional == [] then []
    else
      var front := FileReferences(file, conditional[..|conditional| - 1], found);
      var r := conditional[|conditional| - 1];
      if found(file, r) then front + [UnconditionalReference(file, r)] else front
  }

  /** The errors of `_check_resource_conditions`, file by file. */
  function ReferenceErrors(files: seq<(String, String)>, conditional: seq<String>, found: (String, String) -> bool): seq<Note> {
    if files == [] then []
    else ReferenceErrors(files[..|files| - 1], conditional, found) + FileReferences(files[|files| - 1].0, conditional, found)
  }

  /** A reference error names a loaded file and a conditional resource the search found in it. */
  lemma {:induction false} ReferenceErrorsFound(files: seq<(String, String)>, conditional: seq<String>, found: (String, String) -> bool, n: Note)
    requires n in ReferenceErrors(files, conditional, found)
    ensures n.UnconditionalReference? && n.file in Names(files) && n.resource in conditional && found(n.file, n.resource)
  {
    var last := |files| - 1;
    var front := ReferenceErrors(files[..last], conditional, found);
    if n in front {
      ReferenceErrorsFound(files[..last], conditional, found, n);
      assert Names(files[..last]) <= Names(files);
      assert n.file in Names(files) by {
        var i :| 0 <= i < last && Names(files[..last])[i] == n.file;
        assert Names(files)[i] == n.file;
      }
    } else {
      FileReferencesFound(files[last].0, conditional, found, n);
      assert Names(files)[last] == files[last].0;
    }
  }

  lemma {:induction false} FileReferencesFound(file: String, conditional: seq<String>, found: (String, String) -> bool, n: Note)
    requires n in FileReferences(file, conditional, found)
    ensures n.UnconditionalReference? && n.file == file && n.resource in conditional && found(file, n.resource)
    decreases |conditional|
  {
    var front := conditional[..|conditional| - 1];
    if n in FileReferences(file, front, found) {
      FileReferencesFound(file, front, found, n);
    }
  }

  /** Every conditional resource the search found unconditionally referenced in a file is reported. */
  lemma {:induction false} FileReferencesComplete(file: String, conditional: seq<String>, found: (String, String) -> bool, r: String)
    requires r in conditional && found(file, r)
    ensures UnconditionalReference(file, r) in FileReferences(file, conditional, found)
    decreases |conditional|
  {
    var last := |conditional| - 1;
    if conditional[last] != r {
      assert r in conditional[..last];
      FileReferencesComplete(file, conditional[..last], found, r);
    }
  }

  /** The APIs the configuration should enable, and the resource types that need each. */
  const Apis: seq<(String, seq<String>)> := [
    ("secretmanager.googleapis.com", ["google_secret_manager_secret", "google_secret_manager_secret_version"]),
    ("cloudbuild.googleapis.com", ["google_cloudbuildv2_connection", "google_cloudbuild_trigger"]),
    ("run.googleapis.com", ["google_cloud_run_service"])
  ]

  predicate ApiEnabled(content: String, api: String) {
    Contains(content, "service = \"" + api + "\"")
  }

  /** The notes about the resources of one enabled API that occur in the text. */
  function ResourceNotes(content: String, api: String, resources: seq<String>): (r: seq<Note>)
    ensures |r| <= |resources|
  {
    if resources == [] then []
    else
      var front := ResourceNotes(content, api, resources[..|resources| - 1]);
      var kind := resources[|resources| - 1];
      if Contains(content, kind) then front + [ApiEnabledFor(api, kind)] else front
  }

  /** The warnings of `_check_api_dependencies`: one per API the text does not enable. */
  function ApiWarnings(content: String, apis: seq<(String, seq<String>)>, enabled: (String, String) -> bool): (r: seq<Note>)
    ensures |r| <= |apis|
  {
    if apis == [] then []
    else
      var front := ApiWarnings(content, apis[..|apis| - 1], enabled);
      var api := apis[|apis| - 1].0;
      if enabled(content, api) then front else front + [ApiNotEnabled(api)]
  }

  /** The notes of `_check_api_dependencies`: for enabled APIs only, the resources that occur. */
  function ApiNotes(content: String, apis: seq<(String, seq<String>)>, enabled: (String, String) -> bool): seq<Note> {
    if apis == [] then []
    else
      var front := ApiNotes(content, apis[..|apis| - 1], enabled);
      var api := apis[|apis| - 1];
      if enabled(content, api.0) then front + ResourceNotes(content, api.0, api.1) else front
  }

  /** An API the text does not enable gets its warning and none of its resources is looked at. */
  lemma {:induction false} ApiNotEnabledSkips(content: String, apis: seq<(String, seq<String>)>, enabled: (String, String) -> bool, k: nat)
    requires k < |apis| && !enabled(content, apis[k].0)
    requires forall i, j :: 0 <= i < j < |apis| ==> apis[i].0 != apis[j].0
    ensures ApiNotEnabled(apis[k].0) in ApiWarnings(content, apis, enabled)
    ensures forall n :: n in ApiNotes(content, apis, enabled) ==> n.ApiEnabledFor? && n.api != apis[k].0
  {
    NotesOfEnabled(content, apis, enabled);
    var last := |apis| - 1;
    if k < last {
      ApiNotEnabledSkips(content, apis[..last], enabled, k);
    }
  }

  /** Every API note is for an API the text enables. */
  lemma {:induction false} NotesOfEnabled(content: String, apis: seq<(String, seq<String>)>, enabled: (String, String) -> bool)
    ensures forall n :: n in ApiNotes(content, apis, enabled) ==>
      n.ApiEnabledFor? && enabled(content, n.api) && exists i :: 0 <= i < |apis| && apis[i].0 == n.api
  {
    if apis != [] {
      var last := |apis| - 1;
      NotesOfEnabled(content, apis[..last], enabled);
      ResourceNotesFor(content, apis[last].0, apis[last].1);
      forall n | n in ApiNotes(content, apis, enabled)
        ensures n.ApiEnabledFor? && enabled(content, n.api) && exists i :: 0 <= i < |apis| && apis[i].0 == n.api
      {
        if n in ApiNotes(content, apis[..last], enabled) {
          var i :| 0 <= i < last && apis[..last][i].0 == n.api;
          assert apis[i].0 == n.api;
        } else {
          assert apis[last].0 == n.api;
        }
      }
    }
  }

  lemma {:induction false} ResourceNotesFor(content: String, api: String, resources: seq<String>)
    ensures forall n :: n in ResourceNotes(content, api, resources) ==>
      n.ApiEnabledFor? && n.api == api && n.resource in resources && Contains(content, n.resource)
    decreases |resources|
  {
    if resources != [] {
      ResourceNotesFor(content, api, resources[..|resources| - 1]);
    }
  }

  /** The undefined references, in the order given. */
  function Undefined(references: seq<String>, declared: set<String>): (r: seq<String>)
    ensures |r| <= |references|
  {
    if references == [] then []
    else
      var rest := Undefined(references[1..], declared);
      if references[0] in declared then rest else [references[0]] + rest
  }

  /** Python's order on strings: a proper prefix, or a smaller character at the first difference. */
  predicate Below(a: String, b: String) {
    (|a| < |b| && a == b[..|a|]) || exists k :: 0 <= k < |a| && k < |b| && a[..k] == b[..k] && a[k] < b[k]
  }

  predicate StrictlySorted(s: seq<String>) {
    forall i, j :: 0 <= i < j < |s| ==> Below(s[i], s[j])
  }

  /**
   * `sorted(var_refs - self.variables)`: exactly the references that are not
   * declared, and still in sorted order.
   */
  lemma {:induction false} UndefinedExactly(references: seq<String>, declared: set<String>)
    requires StrictlySorted(references)
    ensures forall v :: v in Undefined(references, declared) <==> v in references && v !in declared
    ensures StrictlySorted(Undefined(references, declared))
    decreases |references|
  {
    if references != [] {
      var tail := references[1..];
      assert StrictlySorted(tail) by {
        forall i, j | 0 <= i < j < |tail|
          ensures Below(tail[i], tail[j])
        {
          assert tail[i] == references[i + 1] && tail[j] == references[j + 1];
        }
      }
      UndefinedExactly(tail, declared);
      assert forall v :: v in references <==> v == references[0] || v in tail;
      var u := Undefined(references, declared);
      if references[0] !in declared {
        forall i, j | 0 <= i < j < |u|
          ensures Below(u[i], u[j])
        {
          if i == 0 {
            assert u[j] in tail;
            var m :| 0 <= m < |tail| && tail[m] == u[j];
            assert references[m + 1] == u[j];
          } else {
            assert u[i] == Undefined(tail, declared)[i - 1] && u[j] == Undefined(tail, declared)[j - 1];
          }
        }
      }
    }
  }

  /** The notes `_check_variable_consistency` adds: one error per undefined reference, else one note. */
  function VariableErrors(references: seq<String>, declared: set<String>): seq<Note> {
    seq(|Undefined(references, declared)|, k requires 0 <= k < |Undefined(references, declared)| =>
      UndefinedVariable(Undefined(references, declared)[k]))
  }

  /** The resource-type test of `_check_required_fields`, applied to the captured type, which lacks the `google_` prefix. */
  predicate Skipped(kind: String) {
    StartsWith(kind, "google_compute") || kind == "external"
  }

  /** The `google_<type>.<name>` of the resources with neither `project` nor `${` in their body. */
  function MissingProjectOf(resources: seq<Resource>): (r: seq<String>)
    ensures |r| <= |resources|
  {
    if resources == [] then []
    else
      var front := MissingProjectOf(resources[..|resources| - 1]);
      var x := resources[|resources| - 1];
      if Skipped(x.kind) || Contains(x.body, "project") || Contains(x.body, "${") then front
      else front + ["google_" + x.kind + "." + x.name]
  }

  /** The warnings of `_check_required_fields`: only when one to four resources lack a project. */
  function ProjectWarnings(missing: seq<String>): (r: seq<Note>)
    ensures |r| == (if 0 < |missing| < 5 then |missing| else 0)
    ensures forall k :: 0 <= k < |r| ==> r[k] == MissingProject(missing[k])
  {
    if 0 < |missing| < 5 then seq(|missing|, k requires 0 <= k < |missing| => MissingProject(missing[k])) else []
  }

  /**
   * The compute skip never fires: a captured type that starts with `compute`
   * does not start with `google_compute`, so a compute resource without a
   * project is reported like any other.
   */
  lemma ComputeResourceReported(resources: seq<Resource>, k: nat)
    requires k < |resources| && StartsWith(resources[k].kind, "compute")
    requires !Contains(resources[k].body, "project") && !Contains(resources[k].body, "${")
    ensures "google_" + resources[k].kind + "." + resources[k].name in MissingProjectOf(resources)
  {
    assert resources[k].kind[0] == 'c';
    MissingProjectReported(resources, k);
  }

  /** A google resource without a project anywhere in its body is reported, compute resources included. */
  lemma {:induction false} MissingProjectReported(resources: seq<Resource>, k: nat)
    requires k < |resources| && resources[k].kind != "external" && !StartsWith(resources[k].kind, "google_compute")
    requires !Contains(resources[k].body, "project") && !Contains(resources[k].body, "${")
    ensures "google_" + resources[k].kind + "." + resources[k].name in MissingProjectOf(resources)
  {
    var last := |resources| - 1;
    if k < last {
      MissingProjectReported(resources[..last], k);
    }
  }

  // ---------------------------------------------------------------------------
  // The validator
  // ---------------------------------------------------------------------------

  class TerraformValidator {
    var errors: seq<Note>
    var warnings: seq<Note>
    var info: seq<Note>
    /** the loaded files, name and text, in the order they were read */
    var tfFiles: seq<(String, String)>
    /** the declared variables; None while it is still the empty dict the constructor sets */
    var variables: Option<set<String>>
    /** the API table `_check_api_dependencies` consults */
    const apis: seq<(String, seq<String>)>

    constructor ()
      ensures errors == [] && warnings == [] && info == [] && tfFiles == [] && variables.None?
      ensures apis == Apis
    {
      apis := Apis;
      errors := [];
      warnings := [];
      info := [];
      tfFiles := [];
      variables := None;
    }

    /** `_load_tf_files`: the files found, and the declared variables only when there is a variables.tf. */
    method LoadTfFiles(files: seq<(String, String)>, declared: set<String>)
      modifies this
      ensures tfFiles == files
      ensures variables == if "variables.tf" in Names(files) then Some(declared) else old(variables)
      ensures errors == old(errors) && warnings == old(warnings) && info == old(info)
    {
      tfFiles := files;
      if "variables.tf" in Names(files) {
        variables := Some(declared);
      }
    }

    /** `_check_resource_conditions` */
    method CheckResourceConditions(conditional: seq<String>, found: (String, String) -> bool)
      modifies this
      ensures conditional == [] ==> errors == old(errors) && info == old(info) + [NoConditionalResources]
      ensures conditional != [] ==> errors == old(errors) + ReferenceErrors(tfFiles, conditional, found) && info == old(info)
      ensures warnings == old(warnings) && tfFiles == old(tfFiles) && variables == old(variables)
    {
      if conditional == [] {
        info := info + [NoConditionalResources];
        return;
      }
      var notes := ReferencesIn(tfFiles, conditional, found);
      errors := errors + notes;
    }

    /** The loops of `_check_resource_conditions`: over the files, and in each over the conditional resources. */
    static method ReferencesIn(files: seq<(String, String)>, conditional: seq<String>, found: (String, String) -> bool)
      returns (notes: seq<Note>)
      ensures notes == ReferenceErrors(files, conditional, found)
    {
      notes := [];
      for i := 0 to |files|
        invariant notes == ReferenceErrors(files[..i], conditional, found)
      {
        assert files[..i + 1][..i] == files[..i];
        var name := files[i].0;
        for j := 0 to |conditional|
          invariant notes == ReferenceErrors(files[..i], conditional, found) + FileReferences(name, conditional[..j], found)
        {
          assert conditional[..j + 1][..j] == conditional[..j];
          if found(name, conditional[j]) {
            notes := notes + [UnconditionalReference(name, conditional[j])];
          }
        }
        assert conditional[..|conditional|] == conditional;
      }
      assert files[..|files|] == files;
    }

    /** `_check_api_dependencies` */
    method CheckApiDependencies()
      modifies this
      ensures warnings == old(warnings) + ApiWarnings(Contents(tfFiles), apis, ApiEnabled)
      ensures info == old(info) + ApiNotes(Contents(tfFiles), apis, ApiEnabled)
      ensures errors == old(errors) && tfFiles == old(tfFiles) && variables == old(variables)
    {
      var missing, notes := ApiChecks(Contents(tfFiles), apis, ApiEnabled);
      warnings := warnings + missing;
      info := info + notes;
    }

    /** The loops of `_check_api_dependencies`: over the APIs, and for an enabled one over its resource types. */
    static method ApiChecks(content: String, apis: seq<(String, seq<String>)>, enabled: (String, String) -> bool)
      returns (missing: seq<Note>, notes: seq<Note>)
      ensures missing == ApiWarnings(content, apis, enabled)
      ensures notes == ApiNotes(content, apis, enabled)
    {
      missing, notes := [], [];
      for i := 0 to |apis|
        invariant missing == ApiWarnings(content, apis[..i], enabled)
        invariant notes == ApiNotes(content, apis[..i], enabled)
      {
        assert apis[..i + 1][..i] == apis[..i];
        var api := apis[i].0;
        if !enabled(content, api) {
          missing := missing + [ApiNotEnabled(api)];
          continue;
        }
        var resources := apis[i].1;
        var front := notes;
        for j := 0 to |resources|
          invariant notes == front + ResourceNotes(content, api, resources[..j])
        {
          assert resources[..j + 1][..j] == resources[..j];
          if Contains(content, resources[j]) {
            notes := notes + [ApiEnabledFor(api, resources[j])];
          }
        }
        assert resources[..|resources|] == resources;
      }
      assert apis[..|apis|] == apis;
    }

    /**
     * `_check_variable_consistency`, given the references in sorted order;
     * false when the variables are still the empty dict, where the set
     * difference raises.
     */
    method CheckVariableConsistency(references: seq<String>) returns (ok: bool)
      modifies this
      ensures ok <==> old(variables).Some?
      ensures ok && Undefined(references, old(variables).value) != [] ==>
        errors == old(errors) + VariableErrors(references, old(variables).value) && info == old(info)
      ensures ok && Undefined(references, old(variables).value) == [] ==>
        errors == old(errors) && info == old(info) + [AllVariablesDefined(|references|)]
      ensures !ok ==> errors == old(errors) && info == old(info)
      ensures warnings == old(warnings) && tfFiles == old(tfFiles) && variables == old(variables)
    {
      if variables.None? {
        return false;
      }
      var declared := variables.value;
      var undefined := Undefined(references, declared);
      if undefined == [] {
        info := info + [AllVariablesDefined(|references|)];
        return true;
      }
      for k := 0 to |undefined|
        invariant errors == old(errors) + VariableErrors(references, declared)[..k]
        invariant info == old(info) && warnings == old(warnings) && tfFiles == old(tfFiles) && variables == old(variables)
      {
        errors := errors + [UndefinedVariable(undefined[k])];
      }
      assert VariableErrors(references, declared)[..|undefined|] == VariableErrors(references, declared);
      ok := true;
    }

    /** `_check_required_fields` */
    method CheckRequiredFields(resources: seq<Resource>)
      modifies this
      ensures warnings == old(warnings) + ProjectWarnings(MissingProjectOf(resources))
      ensures errors == old(errors) && info == old(info) && tfFiles == old(tfFiles) && variables == old(variables)
    {
      var missing: seq<String> := [];
      for k := 0 to |resources|
        invariant missing == MissingProjectOf(resources[..k])
      {
        assert resources[..k + 1][..k] == resources[..k];
        var x := resources[k];
        if !(Skipped(x.kind) || Contains(x.body, "project") || Contains(x.body, "${")) {
          missing := missing + ["google_" + x.kind + "." + x.name];
        }
      }
      assert resources[..|resources|] == resources;
      if missing != [] && |missing| < 5 {
        for k := 0 to |missing|
          invariant warnings == old(warnings) + ProjectWarnings(missing)[..k]
          invariant errors == old(errors) && info == old(info) && tfFiles == old(tfFiles) && variables == old(variables)
        {
          warnings := warnings + [MissingProject(missing[k])];
        }
        assert ProjectWarnings(missing)[..|missing|] == ProjectWarnings(missing);
      }
    }

    /** `_check_depends_on_logic`: the two warnings as found, and always the closing note. */
    method CheckDependsOnLogic(emptyDependsOn: bool, circular: bool)
      modifies this
      ensures warnings == old(warnings) + (if emptyDependsOn then [EmptyDependsOn] else []) + (if circular then [CircularDependency] else [])
      ensures info == old(info) + [NoCircularDependencies]
      ensures errors == old(errors) && tfFiles == old(tfFiles) && variables == old(variables)
    {
      if emptyDependsOn {
        warnings := warnings + [EmptyDependsOn];
      }
      if circular {
        warnings := warnings + [CircularDependency];
      }
      info := info + [NoCircularDependencies];
    }

    /**
     * `run_all_checks` on a fresh validator: Ok(true) exactly when no error
     * was recorded, Ok(false) with one error when no file was found, and an
     * error when there is no variables.tf, where the variable check raises.
     */
    method RunAllChecks(files: seq<(String, String)>, scan: Scan) returns (r: Result<bool>)
      requires errors == [] && warnings == [] && info == [] && tfFiles == [] && variables.None?
      modifies this
      ensures files == [] ==> r == Ok(false) && errors == [NoFiles]
      ensures files != [] && "variables.tf" !in Names(files) ==> r.Err?
      ensures files != [] && "variables.tf" in Names(files) ==> r == Ok(errors == [])
      ensures r.Ok? && files != [] ==>
        errors == (if scan.conditional == [] then [] else ReferenceErrors(files, scan.conditional, scan.unconditionalIn))
          + VariableErrors(scan.references, scan.declared)
      ensures r.Ok? && files != [] ==> NoCircularDependencies in info
    {
      LoadTfFiles(files, scan.declared);
      if tfFiles == [] {
        errors := errors + [NoFiles];
        return Ok(false);
      }
      if variables.None? {
        CheckResourceConditions(scan.conditional, scan.unconditionalIn);
        CheckApiDependencies();
        return Err("TypeError: unsupported operand type(s) for -: 'set' and 'dict'");
      }
      RunChecks(scan);
      r := Ok(errors == []);
    }

    /** The checks of `run_all_checks` once the files and the declared variables are loaded. */
    method RunChecks(scan: Scan)
      requires errors == [] && variables == Some(scan.declared)
      modifies this
      ensures errors == (if scan.conditional == [] then [] else ReferenceErrors(tfFiles, scan.conditional, scan.unconditionalIn))
        + VariableErrors(scan.references, scan.declared)
      ensures NoCircularDependencies in info && tfFiles == old(tfFiles)
    {
      CheckResourceConditions(scan.conditional, scan.unconditionalIn);
      ghost var referenceErrors := errors;
      CheckApiDependencies();
      var ok := CheckVariableConsistency(scan.references);
      assert errors == referenceErrors + VariableErrors(scan.references, scan.declared) by {
        assert Undefined(scan.references, scan.declared) == [] ==> VariableErrors(scan.references, scan.declared) == [];
      }
      CheckRequiredFields(scan.resources);
      CheckDependsOnLogic(scan.emptyDependsOn, scan.circular);
    }
  }
}
