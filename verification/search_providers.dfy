/**
 * What importing the search-providers package does to the registry: the four
 * built-in providers are registered, Tavily first and as the default, and when
 * the default turns out unconfigured the first configured provider replaces it.
 */
module SearchProviders {
  import opened Wrappers
  import opened Errors
  import opened PyStr
  import opened SearchBase
  import opened SearchRegistry
  import SearXNG
  import Brave
  import DuckDuckGo

  /** The Tavily provider's identity; its search, a wrapper over a client library, is not modelled. */
  const Tavily: SearchProvider := SearchProvider("tavily", true, Some(["TAVILY_API_KEY"]))

  /** The registration order. */
  const BuiltinNames: seq<string> := ["tavily", "brave", "duckduckgo", "searxng"]

  const Builtins: map<string, SearchProvider> :=
    map["tavily" := Tavily, "brave" := Brave.Brave, "duckduckgo" := DuckDuckGo.DuckDuckGo, "searxng" := SearXNG.SearXNG]

  /**
   * The built-in providers that validate in `env`, in registration order:
   * DuckDuckGo always does, the others exactly when their variable is set.
   */
  lemma {:induction false} BuiltinsConfigured(env: Env)
    ensures forall i :: 0 <= i < |BuiltinNames| ==> BuiltinNames[i] in Builtins
    ensures ConfiguredNames(BuiltinNames, Builtins, env)
            == (if EnvSet(env, "TAVILY_API_KEY") then ["tavily"] else [])
               + (if EnvSet(env, "BRAVE_API_KEY") then ["brave"] else [])
               + ["duckduckgo"]
               + (if EnvSet(env, "SEARXNG_URL") then ["searxng"] else [])
  {
    var n := BuiltinNames;
    assert n[..3] == ["tavily", "brave", "duckduckgo"] && n[..3][..2] == ["tavily", "brave"];
    assert n[..3][..2][..1] == ["tavily"] && n[..3][..2][..1][..0] == [];
    SingleVariableConfigured(Tavily, "TAVILY_API_KEY", env);
    SingleVariableConfigured(Brave.Brave, "BRAVE_API_KEY", env);
    SingleVariableConfigured(SearXNG.SearXNG, "SEARXNG_URL", env);
    DefaultEnvVarsAlwaysConfigured(DuckDuckGo.DuckDuckGo, env);
    assert ConfiguredNames(n[..3][..2][..1], Builtins, env) == (if EnvSet(env, "TAVILY_API_KEY") then ["tavily"] else []);
  }

  /** The default the import settles on: Tavily when its key is set, else Brave when its key is, else DuckDuckGo. */
  function ImportedDefault(env: Env): (d: string)
    ensures d in BuiltinNames && Configured(Builtins[d], env)
    ensures d == "duckduckgo" <==> !EnvSet(env, "TAVILY_API_KEY") && !EnvSet(env, "BRAVE_API_KEY")
  {
    SingleVariableConfigured(Tavily, "TAVILY_API_KEY", env);
    SingleVariableConfigured(Brave.Brave, "BRAVE_API_KEY", env);
    DefaultEnvVarsAlwaysConfigured(DuckDuckGo.DuckDuckGo, env);
    if EnvSet(env, "TAVILY_API_KEY") then "tavily"
    else if EnvSet(env, "BRAVE_API_KEY") then "brave"
    else "duckduckgo"
  }

  /** The registry after the four registrations, from any registry. */
  function AfterBuiltins(s: Snapshot): (t: Snapshot)
    ensures forall i :: 0 <= i < |BuiltinNames| ==> BuiltinNames[i] in t.providers
    ensures forall n :: n in s.providers ==> n in t.providers && t.providers[n] == s.providers[n]
  {
    AfterRegister(AfterRegister(AfterRegister(AfterRegister(s, Tavily, true), Brave.Brave, false),
                                DuckDuckGo.DuckDuckGo, false), SearXNG.SearXNG, false)
  }

  /**
   * From the empty registry the four registrations all succeed: the four
   * providers in order, Tavily the default.
   */
  lemma BuiltinsFromEmpty()
    ensures AfterBuiltins(Snapshot(map[], [], None)) == Snapshot(Builtins, BuiltinNames, Some("tavily"))
  {
    var s0 := Snapshot(map[], [], None);
    var s1 := AfterRegister(s0, Tavily, true);
    assert s1 == Snapshot(map["tavily" := Tavily], ["tavily"], Some("tavily"));
    var s2 := AfterRegister(s1, Brave.Brave, false);
    assert s2 == Snapshot(map["tavily" := Tavily, "brave" := Brave.Brave], ["tavily", "brave"], Some("tavily"));
    var s3 := AfterRegister(s2, DuckDuckGo.DuckDuckGo, false);
    assert s3 == Snapshot(map["tavily" := Tavily, "brave" := Brave.Brave, "duckduckgo" := DuckDuckGo.DuckDuckGo],
                          ["tavily", "brave", "duckduckgo"], Some("tavily"));
  }

  /**
   * The four `register` calls, each in its own `try`: a name already taken
   * raises, which is skipped, so only the missing names are added.
   */
  method RegisterBuiltins(reg: Registry)
    requires reg.Valid()
    modifies reg
    ensures reg.Valid()
    ensures reg.State() == AfterBuiltins(old(reg.State()))
  {
    var _ := reg.Register(Tavily, true);
    var _ := reg.Register(Brave.Brave, false);
    var _ := reg.Register(DuckDuckGo.DuckDuckGo, false);
    var _ := reg.Register(SearXNG.SearXNG, false);
  }

  /**
   * The import's tail: when some provider is configured and a non-empty
   * default is set, an unconfigured default is replaced by the first
   * configured provider.  Nothing else changes.
   */
  method AutoSelectDefault(reg: Registry, env: Env)
    requires reg.Valid()
    modifies reg
    ensures reg.Valid()
    ensures reg.providers == old(reg.providers) && reg.order == old(reg.order)
    ensures var configured := ConfiguredNames(old(reg.order), old(reg.providers), env);
            var d := old(reg.defaultProvider);
            reg.defaultProvider
            == if configured != [] && d.Some? && d.value != "" && !Configured(old(reg.providers)[d.value], env)
               then Some(configured[0]) else d
  {
    var configured := reg.ListConfigured(env);
    if configured != [] {
      var d := reg.GetDefault();
      if d.Some? && d.value != "" {
        var p := reg.Get(d);
        var valid, _ := ValidateConfig(p.value, env);
        if !valid {
          ConfiguredNamesMembers(reg.order, reg.providers, env, configured[0]);
          var _ := reg.SetDefault(configured[0]);
        }
      }
    }
  }

  /**
   * Importing the package into a fresh registry: the four providers in
   * registration order, some provider configured, and the default the first
   * configured of Tavily, Brave and DuckDuckGo.
   */
  method ImportSearchProviders(env: Env) returns (reg: Registry)
    ensures fresh(reg) && reg.Valid()
    ensures reg.providers == Builtins && reg.order == BuiltinNames
    ensures ConfiguredNames(reg.order, reg.providers, env) != []
    ensures reg.defaultProvider == Some(ImportedDefault(env))
  {
    reg := new Registry();
    RegisterBuiltins(reg);
    BuiltinsFromEmpty();
    BuiltinsConfigured(env);
    ghost var configured := ConfiguredNames(reg.order, reg.providers, env);
    SingleVariableConfigured(Tavily, "TAVILY_API_KEY", env);
    assert !EnvSet(env, "TAVILY_API_KEY") ==> configured[0] == ImportedDefault(env);
    AutoSelectDefault(reg, env);
  }
}
