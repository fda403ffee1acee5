/**
 * The LLM-provider registry of `utils/settings.py`.  A settings dictionary
 * holds the provider list, the default provider and the default model, and
 * other keys.  `load_settings` overlays the stored dictionary on the
 * defaults.  Each registry operation loads the settings, edits them in
 * place, and saves them.  Where and how they are stored is abstract: the
 * store is a value the operations replace, and whether a save succeeds is a
 * parameter.
 */
module AppSettings {
  import opened Wrappers
  import opened Text
  import opened Json

  /** One entry of `llm_providers`. */
  datatype Provider = Provider(name: String, models: seq<String>, apiKeyEnv: String, enabled: bool)

  /**
   * A settings dictionary.  Each of the three LLM keys is absent (None) or
   * present with its value; `llm_default_provider` and `llm_default_model`
   * may hold None themselves.  `rest` holds every other key.
   */
  datatype Settings = Settings(
    providers: Option<seq<Provider>>,
    defaultProvider: Option<Option<String>>,
    defaultModel: Option<Option<String>>,
    rest: map<String, Json>)

  /** All three LLM keys are present. */
  predicate Complete(s: Settings) {
    s.providers.Some? && s.defaultProvider.Some? && s.defaultModel.Some?
  }

  /** An empty dictionary, which is falsy. */
  predicate IsEmpty(s: Settings) {
    s.providers.None? && s.defaultProvider.None? && s.defaultModel.None? && s.rest == map[]
  }

  /** `base.update(over)`: every key of `over` replaces or adds to `base`, and the other keys of `base` stay. */
  function Update(base: Settings, over: Settings): (r: Settings)
    ensures r.providers == (if over.providers.Some? then over.providers else base.providers)
    ensures r.defaultProvider == (if over.defaultProvider.Some? then over.defaultProvider else base.defaultProvider)
    ensures r.defaultModel == (if over.defaultModel.Some? then over.defaultModel else base.defaultModel)
    ensures r.rest.Keys == base.rest.Keys + over.rest.Keys
    ensures forall k :: k in r.rest ==> r.rest[k] == if k in over.rest then over.rest[k] else base.rest[k]
  {
    Settings(
      if over.providers.Some? then over.providers else base.providers,
      if over.defaultProvider.Some? then over.defaultProvider else base.defaultProvider,
      if over.defaultModel.Some? then over.defaultModel else base.defaultModel,
      base.rest + over.rest)
  }

  predicate IsCloud(storage: String) {
    storage == "s3" || storage == "gcs"
  }

  /**
   * `load_settings`, given the lower-cased storage type, what the cloud
   * store returned (None when it is not configured, missing or unreadable)
   * and what the local file held (None when it is missing or unreadable).
   */
  function LoadSettings(defaults: Settings, storage: String, cloud: Option<Settings>, local: Option<Settings>): (r: Settings)
    ensures defaults.rest.Keys <= r.rest.Keys
    ensures Complete(defaults) ==> Complete(r)
  {
    if IsCloud(storage) && cloud.Some? && !IsEmpty(cloud.value) then Update(defaults, cloud.value)
    else if local.Some? then Update(defaults, local.value)
    else defaults
  }

  /** A non-empty cloud dictionary wins over the local file, whatever the file holds. */
  lemma CloudHidesLocal(defaults: Settings, storage: String, cloud: Settings, local1: Option<Settings>, local2: Option<Settings>)
    requires IsCloud(storage) && !IsEmpty(cloud)
    ensures LoadSettings(defaults, storage, Some(cloud), local1) == LoadSettings(defaults, storage, Some(cloud), local2)
    ensures LoadSettings(defaults, storage, Some(cloud), local1).rest.Keys == defaults.rest.Keys + cloud.rest.Keys
  {
  }

  /** With local storage the cloud store is never consulted. */
  lemma LocalIgnoresCloud(defaults: Settings, storage: String, cloud: Option<Settings>, local: Option<Settings>)
    requires !IsCloud(storage)
    ensures LoadSettings(defaults, storage, cloud, local) == LoadSettings(defaults, storage, None, local)
  {
  }

  /** An empty cloud dictionary counts as none: the local file is read. */
  lemma EmptyCloudFallsBack(defaults: Settings, storage: String, cloud: Settings, local: Option<Settings>)
    requires IsEmpty(cloud)
    ensures LoadSettings(defaults, storage, Some(cloud), local) == LoadSettings(defaults, storage, None, local)
  {
  }

  // ---------------------------------------------------------------------------
  // Reading the LLM keys as the source does
  // ---------------------------------------------------------------------------

  /** `settings.get("llm_providers", [])` */
  function ProvidersOf(s: Settings): seq<Provider> {
    if s.providers.Some? then s.providers.value else []
  }

  /** `settings.get("llm_default_provider")` */
  function DefaultProviderOf(s: Settings): Option<String> {
    if s.defaultProvider.Some? then s.defaultProvider.value else None
  }

  /** `settings.get("llm_default_model")` */
  function DefaultModelOf(s: Settings): Option<String> {
    if s.defaultModel.Some? then s.defaultModel.value else None
  }

  /** The position of the first provider with this name: the one `get_provider` and every loop below stop at. */
  function Named(ps: seq<Provider>, name: String): (r: Option<nat>)
    ensures r.Some? ==> r.value < |ps| && ps[r.value].name == name && forall j :: 0 <= j < r.value ==> ps[j].name != name
    ensures r.None? ==> forall j :: 0 <= j < |ps| ==> ps[j].name != name
  {
    if ps == [] then None
    else if ps[0].name == name then Some(0)
    else
      var r := Named(ps[1..], name);
      if r.Some? then Some(r.value + 1) else None
  }

  /** The names are pairwise distinct. */
  predicate UniqueNames(ps: seq<Provider>) {
    forall i, j :: 0 <= i < j < |ps| ==> ps[i].name != ps[j].name
  }

  // ---------------------------------------------------------------------------
  // The registry operations on a loaded dictionary; None where the source
  // returns False without saving
  // ---------------------------------------------------------------------------

  /** `add_provider` */
  function AddProviderTo(s: Settings, p: Provider): (r: Option<Settings>)
    ensures r.None? <==> Named(ProvidersOf(s), p.name).Some?
    ensures r.Some? ==> r.value == s.(providers := Some(ProvidersOf(s) + [p]))
  {
    if Named(ProvidersOf(s), p.name).Some? then None
    else Some(s.(providers := Some(ProvidersOf(s) + [p])))
  }

  /** Once added, a provider is the one looked up by its name, and distinct names stay distinct. */
  lemma {:induction false} AddedIsFound(ps: seq<Provider>, p: Provider)
    requires Named(ps, p.name).None?
    ensures Named(ps + [p], p.name) == Some(|ps|)
    ensures UniqueNames(ps) ==> UniqueNames(ps + [p])
  {
    var q := ps + [p];
    if ps != [] {
      assert q[0] == ps[0] && q[1..] == ps[1..] + [p];
      AddedIsFound(ps[1..], p);
    }
    if UniqueNames(ps) {
      forall i, j | 0 <= i < j < |q|
        ensures q[i].name != q[j].name
      {
        assert q[i] == ps[i];
        if j < |ps| {
          assert q[j] == ps[j];
        }
      }
    }
  }

  /** The provider with the given fields changed and the others kept. */
  function Updated(p: Provider, models: Option<seq<String>>, apiKeyEnv: Option<String>, enabled: Option<bool>): Provider {
    Provider(p.name,
      if models.Some? then models.value else p.models,
      if apiKeyEnv.Some? then apiKeyEnv.value else p.apiKeyEnv,
      if enabled.Some? then enabled.value else p.enabled)
  }

  /** `update_provider`: the first provider with the name takes the given fields. */
  function UpdateProviderIn(s: Settings, name: String, models: Option<seq<String>>, apiKeyEnv: Option<String>, enabled: Option<bool>): (r: Option<Settings>)
    ensures r.None? <==> Named(ProvidersOf(s), name).None?
  {
    var k := Named(ProvidersOf(s), name);
    if k.None? then None
    else Some(s.(providers := Some(ProvidersOf(s)[k.value := Updated(ProvidersOf(s)[k.value], models, apiKeyEnv, enabled)])))
  }

  /**
   * An update touches the first provider with the name and nothing else:
   * its name and the fields given as None are kept, the given ones are
   * set, and every other provider and key is unchanged.
   */
  lemma UpdateFirstOnly(s: Settings, name: String, models: Option<seq<String>>, apiKeyEnv: Option<String>, enabled: Option<bool>)
    requires Named(ProvidersOf(s), name).Some?
    ensures var k := Named(ProvidersOf(s), name).value;
      var s' := UpdateProviderIn(s, name, models, apiKeyEnv, enabled).value;
      var ps, ps' := ProvidersOf(s), ProvidersOf(s');
      && |ps'| == |ps|
      && (forall j :: 0 <= j < |ps| && j != k ==> ps'[j] == ps[j])
      && ps'[k].name == name
      && ps'[k].models == (if models.Some? then models.value else ps[k].models)
      && ps'[k].apiKeyEnv == (if apiKeyEnv.Some? then apiKeyEnv.value else ps[k].apiKeyEnv)
      && ps'[k].enabled == (if enabled.Some? then enabled.value else ps[k].enabled)
      && s'.defaultProvider == s.defaultProvider && s'.defaultModel == s.defaultModel && s'.rest == s.rest
  {
  }

  /** The list comprehension of `delete_provider`: every provider with another name, in order. */
  function Without(ps: seq<Provider>, name: String): (r: seq<Provider>)
    ensures |r| <= |ps|
    ensures forall i :: 0 <= i < |r| ==> r[i].name != name
    ensures forall i :: 0 <= i < |ps| && ps[i].name != name ==> ps[i] in r
    ensures |r| < |ps| <==> Named(ps, name).Some?
  {
    if ps == [] then []
    else
      var rest := Without(ps[1..], name);
      assert forall i :: 1 <= i < |ps| ==> ps[i] == ps[1..][i - 1];
      if ps[0].name == name then rest else [ps[0]] + rest
  }

  /**
   * `delete_provider` before the count check: every provider with the name
   * removed; when it was the default, the default becomes the first
   * remaining provider and its first model, or None and None.  A first
   * remaining provider without models makes `[0]` raise.
   */
  function DeleteProviderFrom(s: Settings, name: String): (r: Result<Settings>)
    ensures r.Ok? ==> ProvidersOf(r.value) == Without(ProvidersOf(s), name) && r.value.rest == s.rest
    ensures r.Ok? ==> DefaultProviderOf(r.value) != Some(name)
    ensures r.Ok? && DefaultProviderOf(s) != Some(name) ==> r.value.defaultProvider == s.defaultProvider && r.value.defaultModel == s.defaultModel
    ensures r.Err? <==> DefaultProviderOf(s) == Some(name) && Without(ProvidersOf(s), name) != [] && Without(ProvidersOf(s), name)[0].models == []
  {
    var remaining := Without(ProvidersOf(s), name);
    var s1 := s.(providers := Some(remaining));
    if DefaultProviderOf(s) != Some(name) then Ok(s1)
    else if remaining == [] then Ok(s1.(defaultProvider := Some(None), defaultModel := Some(None)))
    else if remaining[0].models == [] then Err("IndexError: list index out of range")
    else Ok(s1.(defaultProvider := Some(Some(remaining[0].name)), defaultModel := Some(Some(remaining[0].models[0]))))
  }

  /** After deleting the default provider, the new default is a remaining provider with one of its models, or None. */
  lemma DeletedDefaultReset(s: Settings, name: String)
    requires DefaultProviderOf(s) == Some(name) && DeleteProviderFrom(s, name).Ok?
    ensures var s' := DeleteProviderFrom(s, name).value;
      var k := if DefaultProviderOf(s').Some? then Named(ProvidersOf(s'), DefaultProviderOf(s').value) else None;
      || (DefaultProviderOf(s').None? && DefaultModelOf(s').None? && ProvidersOf(s') == [])
      || (k == Some(0) && DefaultModelOf(s').Some? && DefaultModelOf(s').value in ProvidersOf(s')[0].models)
  {
  }

  /** `add_model`: the model appended to the first provider with the name, unless it is already there. */
  function AddModelTo(s: Settings, providerName: String, model: String): (r: Option<Settings>)
    ensures r.None? <==> match Named(ProvidersOf(s), providerName)
      case None => true
      case Some(k) => model in ProvidersOf(s)[k].models
  {
    var k := Named(ProvidersOf(s), providerName);
    if k.None? then None
    else
      var p := ProvidersOf(s)[k.value];
      if model in p.models then None
      else Some(s.(providers := Some(ProvidersOf(s)[k.value := p.(models := p.models + [model])])))
  }

  /** An added model occurs exactly once in its provider's list, after the models that were there. */
  lemma ModelAddedOnce(s: Settings, providerName: String, model: String)
    requires AddModelTo(s, providerName, model).Some?
    ensures var k := Named(ProvidersOf(s), providerName).value;
      var ms := ProvidersOf(AddModelTo(s, providerName, model).value)[k].models;
      && ms[..|ms| - 1] == ProvidersOf(s)[k].models
      && multiset(ms)[model] == 1
  {
    var k := Named(ProvidersOf(s), providerName).value;
    var old_ := ProvidersOf(s)[k].models;
    assert multiset(old_)[model] == 0;
    assert multiset(old_ + [model]) == multiset(old_) + multiset{model};
  }

  /** `list.remove`: the first occurrence taken out. */
  function RemoveFirst(xs: seq<String>, x: String): (r: seq<String>)
    requires x in xs
    ensures |r| == |xs| - 1
    ensures multiset(r) == multiset(xs) - multiset{x}
  {
    assert xs == [xs[0]] + xs[1..];
    if xs[0] == x then xs[1..]
    else [xs[0]] + RemoveFirst(xs[1..], x)
  }

  /** `remove_model`: the first occurrence removed; a removed default model of the default provider becomes the first remaining one, or None. */
  function RemoveModelFrom(s: Settings, providerName: String, model: String): (r: Option<Settings>)
    ensures r.None? <==> match Named(ProvidersOf(s), providerName)
      case None => true
      case Some(k) => model !in ProvidersOf(s)[k].models
  {
    var k := Named(ProvidersOf(s), providerName);
    if k.None? then None
    else
      var p := ProvidersOf(s)[k.value];
      if model !in p.models then None
      else
        var models := RemoveFirst(p.models, model);
        var s1 := s.(providers := Some(ProvidersOf(s)[k.value := p.(models := models)]));
        if DefaultModelOf(s) == Some(model) && DefaultProviderOf(s) == Some(providerName) then
          Some(s1.(defaultModel := Some(if models != [] then Some(models[0]) else None)))
        else Some(s1)
  }

  /**
   * Removing a model takes out one occurrence and leaves the other
   * providers alone; a reset default model is one of the remaining models.
   */
  lemma ModelRemoved(s: Settings, providerName: String, model: String)
    requires RemoveModelFrom(s, providerName, model).Some?
    ensures var k := Named(ProvidersOf(s), providerName).value;
      var s' := RemoveModelFrom(s, providerName, model).value;
      var ms := ProvidersOf(s')[k].models;
      && |ProvidersOf(s')| == |ProvidersOf(s)|
      && (forall j :: 0 <= j < |ProvidersOf(s)| && j != k ==> ProvidersOf(s')[j] == ProvidersOf(s)[j])
      && multiset(ms) == multiset(ProvidersOf(s)[k].models) - multiset{model}
      && DefaultProviderOf(s') == DefaultProviderOf(s)
      && (DefaultModelOf(s') != DefaultModelOf(s) ==> DefaultModelOf(s') == None || DefaultModelOf(s').value in ms)
  {
  }

  /** Python truthiness of an optional string. */
  predicate Truthy(x: Option<String>) {
    x.Some? && x.value != []
  }

  /**
   * `set_default_provider`: the provider must exist and a given model must
   * be one of its models; the default model is the given one, else its
   * first model, else None.
   */
  function SetDefaultIn(s: Settings, name: String, model: Option<String>): (r: Option<Settings>)
    ensures r.Some? ==> DefaultProviderOf(r.value) == Some(name) && ProvidersOf(r.value) == ProvidersOf(s) && r.value.rest == s.rest
    ensures Named(ProvidersOf(s), name).None? ==> r.None?
  {
    var k := Named(ProvidersOf(s), name);
    if k.None? then None
    else
      var models := ProvidersOf(s)[k.value].models;
      var s1 := s.(defaultProvider := Some(Some(name)));
      if Truthy(model) then
        if model.value !in models then None
        else Some(s1.(defaultModel := Some(model)))
      else Some(s1.(defaultModel := Some(if models != [] then Some(models[0]) else None)))
  }

  /**
   * `get_default_model`: the stored default model when it is set and not
   * empty, else the first model of the default provider (`gemini` when the
   * key is missing), else the stored value.
   */
  function DefaultModelFor(s: Settings, fallback: String): (r: Option<String>)
    ensures Truthy(DefaultModelOf(s)) ==> r == DefaultModelOf(s)
    ensures r.Some? && r != DefaultModelOf(s) ==>
      exists k :: 0 <= k < |ProvidersOf(s)| && ProvidersOf(s)[k].models != [] && r.value == ProvidersOf(s)[k].models[0]
  {
    var stored := DefaultModelOf(s);
    if Truthy(stored) then stored
    else
      var provider := if s.defaultProvider.Some? then s.defaultProvider.value else Some(fallback);
      var k := if provider.Some? then Named(ProvidersOf(s), provider.value) else None;
      if k.Some? && ProvidersOf(s)[k.value].models != [] then Some(ProvidersOf(s)[k.value].models[0])
      else stored
  }

  /** After `set_default_provider` succeeds, `get_default_model` reads back the model it chose. */
  lemma SetThenGet(s: Settings, name: String, model: Option<String>, fallback: String)
    requires SetDefaultIn(s, name, model).Some?
    ensures var models := ProvidersOf(s)[Named(ProvidersOf(s), name).value].models;
      var got := DefaultModelFor(SetDefaultIn(s, name, model).value, fallback);
      && (Truthy(model) ==> got == model)
      && (!Truthy(model) && models != [] ==> got == Some(models[0]))
      && (!Truthy(model) && models == [] ==> got == None)
  {
  }

  /** What `save_settings` returned, and whether the next `load_settings` reads the saved dictionary. */
  datatype Save = Save(reported: bool, visible: bool)

  /**
   * `save_settings` with the cloud storage switch `cloud`, whether the cloud
   * write and the local write succeed, and whether the cloud store still
   * holds a non-empty dictionary for the next load. A failed cloud write
   * falls back to the local file and still reports success, but the next
   * load reads the cloud dictionary first.
   */
  function SaveSettings(cloud: bool, cloudWrite: bool, localWrite: bool, cloudHolds: bool): (r: Save)
    ensures r.visible ==> r.reported
    ensures r.reported <==> (cloud && cloudWrite) || localWrite
    ensures !cloud ==> r == Save(localWrite, localWrite)
  {
    if cloud && cloudWrite then Save(true, true)
    else if localWrite then Save(true, !cloud || !cloudHolds)
    else Save(false, false)
  }

  /** A save can report success that the next load does not see. */
  lemma ReportedButHidden()
    ensures SaveSettings(true, false, true, true) == Save(true, false)
  {
  }

  // ---------------------------------------------------------------------------
  // The store the operations load from and save to
  // ---------------------------------------------------------------------------

  /**
   * The stored settings and the default provider list.  `load_settings`
   * copies the defaults shallowly, so while the store holds no provider list
   * the loaded list is the default list itself, and an operation that edits
   * the loaded list in place edits the defaults, whether or not it is saved.
   */
  class SettingsStore {
    /** what `load_settings` overlays on the defaults */
    var stored: Settings
    /** `DEFAULT_SETTINGS["llm_providers"]`, shared by every load while the store has no provider list */
    var sharedProviders: seq<Provider>
    /** the other defaults */
    const baseline: Settings

    constructor (defaultProviders: seq<Provider>, defaultRest: map<String, Json>, initial: Settings)
      ensures stored == initial && sharedProviders == defaultProviders
      ensures baseline == Settings(None, Some(Some("gemini")), Some(None), defaultRest)
    {
      stored := initial;
      sharedProviders := defaultProviders;
      baseline := Settings(None, Some(Some("gemini")), Some(None), defaultRest);
    }

    /** `load_settings()` */
    function Loaded(): (s: Settings)
      reads this
      ensures s.providers.Some?
      ensures stored.providers.None? ==> ProvidersOf(s) == sharedProviders
    {
      Update(baseline.(providers := Some(sharedProviders)), stored)
    }

    /** The search loop of the provider operations: the first provider with the name. */
    static method FindProvider(ps: seq<Provider>, name: String) returns (k: Option<nat>)
      ensures k == Named(ps, name)
    {
      for i := 0 to |ps|
        invariant forall j :: 0 <= j < i ==> ps[j].name != name
      {
        if ps[i].name == name {
          return Some(i);
        }
      }
      return None;
    }

    /**
     * Saves an edited dictionary: the result is what the save reported, the
     * stored dictionary changes when the next load sees the write, and an
     * edit made in place on the shared list is kept either way.
     */
    method Commit(next: Settings, inPlace: bool, save: Save) returns (ok: bool)
      modifies this
      ensures ok == save.reported
      ensures stored == if save.visible then next else old(stored)
      ensures sharedProviders == if inPlace && old(stored).providers.None? then ProvidersOf(next) else old(sharedProviders)
    {
      if inPlace && stored.providers.None? {
        sharedProviders := ProvidersOf(next);
      }
      if save.visible {
        stored := next;
      }
      ok := save.reported;
    }

    /** `add_provider` */
    method AddProvider(p: Provider, save: Save) returns (ok: bool)
      modifies this
      ensures var next := AddProviderTo(old(Loaded()), p);
        && ok == (next.Some? && save.reported)
        && stored == (if next.Some? && save.visible then next.value else old(stored))
        && sharedProviders == (if next.Some? && old(stored).providers.None? then ProvidersOf(next.value) else old(sharedProviders))
      ensures var next := AddProviderTo(old(Loaded()), p);
        next.Some? && (save.visible || old(stored).providers.None?) ==> ProvidersOf(Loaded()) == ProvidersOf(old(Loaded())) + [p]
    {
      var s := Loaded();
      var k := FindProvider(ProvidersOf(s), p.name);
      if k.Some? {
        return false;
      }
      ok := Commit(s.(providers := Some(ProvidersOf(s) + [p])), true, save);
    }

    /** `update_provider` */
    method UpdateProvider(name: String, models: Option<seq<String>>, apiKeyEnv: Option<String>, enabled: Option<bool>, save: Save)
      returns (ok: bool)
      modifies this
      ensures var next := UpdateProviderIn(old(Loaded()), name, models, apiKeyEnv, enabled);
        && ok == (next.Some? && save.reported)
        && stored == (if next.Some? && save.visible then next.value else old(stored))
        && sharedProviders == (if next.Some? && old(stored).providers.None? then ProvidersOf(next.value) else old(sharedProviders))
    {
      var s := Loaded();
      var ps := ProvidersOf(s);
      var k := FindProvider(ps, name);
      if k.None? {
        return false;
      }
      var p := ps[k.value];
      if models.Some? {
        p := p.(models := models.value);
      }
      if apiKeyEnv.Some? {
        p := p.(apiKeyEnv := apiKeyEnv.value);
      }
      if enabled.Some? {
        p := p.(enabled := enabled.value);
      }
      ok := Commit(s.(providers := Some(ps[k.value := p])), true, save);
    }

    /** `delete_provider`: the list is rebuilt, so the defaults are never edited. */
    method DeleteProvider(name: String, save: Save) returns (r: Result<bool>)
      modifies this
      ensures sharedProviders == old(sharedProviders)
      ensures DeleteProviderFrom(old(Loaded()), name).Err? ==> r.Err? && stored == old(stored)
      ensures DeleteProviderFrom(old(Loaded()), name).Ok? ==>
        var removed := Named(ProvidersOf(old(Loaded())), name).Some?;
        && r == Ok(removed && save.reported)
        && stored == (if removed && save.visible then DeleteProviderFrom(old(Loaded()), name).value else old(stored))
    {
      var s := Loaded();
      var next := DeleteProviderFrom(s, name);
      if next.Err? {
        return Err(next.error);
      }
      if |ProvidersOf(next.value)| < |ProvidersOf(s)| {
        var saved := Commit(next.value, false, save);
        return Ok(saved);
      }
      return Ok(false);
    }

    /** `add_model` */
    method AddModel(providerName: String, model: String, save: Save) returns (ok: bool)
      modifies this
      ensures var next := AddModelTo(old(Loaded()), providerName, model);
        && ok == (next.Some? && save.reported)
        && stored == (if next.Some? && save.visible then next.value else old(stored))
        && sharedProviders == (if next.Some? && old(stored).providers.None? then ProvidersOf(next.value) else old(sharedProviders))
    {
      var s := Loaded();
      var ps := ProvidersOf(s);
      var k := FindProvider(ps, providerName);
      if k.None? || model in ps[k.value].models {
        return false;
      }
      var p := ps[k.value];
      ok := Commit(s.(providers := Some(ps[k.value := p.(models := p.models + [model])])), true, save);
    }

    /** `remove_model` */
    method RemoveModel(providerName: String, model: String, save: Save) returns (ok: bool)
      modifies this
      ensures var next := RemoveModelFrom(old(Loaded()), providerName, model);
        && ok == (next.Some? && save.reported)
        && stored == (if next.Some? && save.visible then next.value else old(stored))
        && sharedProviders == (if next.Some? && old(stored).providers.None? then ProvidersOf(next.value) else old(sharedProviders))
    {
      var s := Loaded();
      var ps := ProvidersOf(s);
      var k := FindProvider(ps, providerName);
      if k.None? || model !in ps[k.value].models {
        return false;
      }
      var p := ps[k.value];
      var models := RemoveFirst(p.models, model);
      var next := s.(providers := Some(ps[k.value := p.(models := models)]));
      if DefaultModelOf(s) == Some(model) && DefaultProviderOf(s) == Some(providerName) {
        next := next.(defaultModel := Some(if models != [] then Some(models[0]) else None));
      }
      ok := Commit(next, true, save);
    }

    /** `set_default_provider`: the provider is looked up, then the settings edited by key. */
    method SetDefaultProvider(name: String, model: Option<String>, save: Save) returns (ok: bool)
      modifies this
      ensures var next := SetDefaultIn(old(Loaded()), name, model);
        && ok == (next.Some? && save.reported)
        && stored == (if next.Some? && save.visible then next.value else old(stored))
        && sharedProviders == old(sharedProviders)
    {
      var s := Loaded();
      var k := FindProvider(ProvidersOf(s), name);
      if k.None? {
        return false;
      }
      var models := ProvidersOf(s)[k.value].models;
      var next := s.(defaultProvider := Some(Some(name)));
      if Truthy(model) {
        if model.value !in models {
          return false;
        }
        next := next.(defaultModel := Some(model));
      } else {
        next := next.(defaultModel := Some(if models != [] then Some(models[0]) else None));
      }
      ok := Commit(next, false, save);
    }

    /** `get_default_model` */
    function GetDefaultModel(): (r: Option<String>)
      reads this
      ensures Truthy(DefaultModelOf(Loaded())) ==> r == DefaultModelOf(Loaded())
    {
      DefaultModelFor(Loaded(), "gemini")
    }
  }
}
