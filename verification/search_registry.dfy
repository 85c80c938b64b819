/**
 * The search-provider registry: a name-to-provider dictionary kept in
 * registration order, and the name of the default provider.  The registry is
 * class-level state shared by the whole process; it is one object here.
 */
module SearchRegistry {
  import opened Wrappers
  import opened Errors
  import opened PyStr
  import opened SearchBase

  const NoDefaultMessage: string := "No default search provider configured"

  function DuplicateProviderMessage(name: string): string {
    "Search provider '" + name + "' is already registered"
  }

  function UnknownProviderMessage(name: string, available: seq<string>): string {
    "Unknown search provider: '" + name + "'. Available providers: " + Join(", ", available)
  }

  /** The names, in order, whose provider passes `validate_config` in `env`. */
  function ConfiguredNames(names: seq<string>, providers: map<string, SearchProvider>, env: Env): (r: seq<string>)
    requires forall i :: 0 <= i < |names| ==> names[i] in providers
    decreases |names|
  {
    if names == [] then []
    else
      var last := names[|names| - 1];
      ConfiguredNames(names[..|names| - 1], providers, env) + (if Configured(providers[last], env) then [last] else [])
  }

  /** A name is configured iff it is listed and its provider passes `validate_config`. */
  lemma {:induction false} ConfiguredNamesMembers(names: seq<string>, providers: map<string, SearchProvider>, env: Env, n: string)
    requires forall i :: 0 <= i < |names| ==> names[i] in providers
    ensures n in ConfiguredNames(names, providers, env) <==> n in names && Configured(providers[n], env)
    decreases |names|
  {
    if names != [] {
      var init := names[..|names| - 1];
      ConfiguredNamesMembers(init, providers, env, n);
      assert names == init + [names[|names| - 1]];
    }
  }

  /** The configured names keep the listing order: they are a sub-sequence of it. */
  lemma {:induction false} ConfiguredNamesOrdered(names: seq<string>, providers: map<string, SearchProvider>, env: Env)
    requires forall i :: 0 <= i < |names| ==> names[i] in providers
    ensures Subsequence(ConfiguredNames(names, providers, env), names)
    decreases |names|
  {
    if names != [] {
      var init := names[..|names| - 1];
      var last := names[|names| - 1];
      assert names == init + [last];
      ConfiguredNamesOrdered(init, providers, env);
      SubsequenceSnoc(ConfiguredNames(init, providers, env), init, last);
      assert ConfiguredNames(names, providers, env)
             == ConfiguredNames(init, providers, env) + (if Configured(providers[last], env) then [last] else []);
      if !Configured(providers[last], env) {
        assert ConfiguredNames(init, providers, env) + [] == ConfiguredNames(init, providers, env);
      }
    }
  }

  /** The registry's three parts as one value. */
  datatype Snapshot = Snapshot(providers: map<string, SearchProvider>, order: seq<string>, defaultProvider: Option<string>)

  /**
   * The registry after `register(p, set_as_default)`: unchanged when the name
   * is taken (the call raises), otherwise the provider appended, and it is
   * the default iff asked to or no default was set.
   */
  function AfterRegister(s: Snapshot, p: SearchProvider, setAsDefault: bool): (t: Snapshot)
    ensures p.name in t.providers && t.providers[p.name] == (if p.name in s.providers then s.providers[p.name] else p)
    ensures forall n :: n in s.providers ==> n in t.providers && t.providers[n] == s.providers[n]
    ensures s.order <= t.order
  {
    if p.name in s.providers then s
    else Snapshot(s.providers[p.name := p], s.order + [p.name],
                  if setAsDefault || s.defaultProvider.None? then Some(p.name) else s.defaultProvider)
  }

  class Registry {
    /** `_providers`: the registered providers by name. */
    var providers: map<string, SearchProvider>
    /** The dictionary's key order: the registration order. */
    var order: seq<string>
    /** `_default_provider`. */
    var defaultProvider: Option<string>

    /**
     * The dictionary and its key order agree, every provider is filed under
     * its own name, and the default, when set, is a registered name.
     */
    predicate Valid()
      reads this
    {
      && (forall i :: 0 <= i < |order| ==> order[i] in providers)
      && (forall n :: n in providers ==> n in order)
      && NoDuplicates(order)
      && (forall n :: n in providers ==> providers[n].name == n)
      && (defaultProvider.Some? ==> defaultProvider.value in providers)
    }

    /** The three fields as one value. */
    function State(): Snapshot
      reads this
    {
      Snapshot(providers, order, defaultProvider)
    }

    /** The registry as the class declares it: no providers and no default. */
    constructor()
      ensures Valid()
      ensures providers == map[] && order == [] && defaultProvider == None
    {
      providers := map[];
      order := [];
      defaultProvider := None;
    }

    /**
     * `register(provider, set_as_default)`: a name already present raises
     * `ValueError` and changes nothing; otherwise the provider is added, and it
     * becomes the default iff asked to or no default was set.
     */
    method Register(p: SearchProvider, setAsDefault: bool) returns (r: Outcome<Exception>)
      requires Valid()
      modifies this
      ensures Valid()
      ensures p.name in old(providers) ==>
                r == Fail(ValueError(DuplicateProviderMessage(p.name)))
                && providers == old(providers) && order == old(order) && defaultProvider == old(defaultProvider)
      ensures p.name !in old(providers) ==>
                r == Pass && providers == old(providers)[p.name := p] && order == old(order) + [p.name]
                && defaultProvider == (if setAsDefault || old(defaultProvider).None? then Some(p.name) else old(defaultProvider))
      ensures State() == AfterRegister(old(State()), p, setAsDefault)
    {
      if p.name in providers {
        return Fail(ValueError(DuplicateProviderMessage(p.name)));
      }
      providers := providers[p.name := p];
      order := order + [p.name];
      if setAsDefault || defaultProvider.None? {
        defaultProvider := Some(p.name);
      }
      r := Pass;
    }

    /**
     * `get(name)`: no name means the default, which raises when unset; an
     * unregistered name raises `ValueError` listing the registered names.
     */
    method Get(name: Option<string>) returns (r: Result<SearchProvider, Exception>)
      requires Valid()
      ensures name.None? && defaultProvider.None? ==> r == Failure(ValueError(NoDefaultMessage))
      ensures name.None? && defaultProvider.Some? ==> r == Success(providers[defaultProvider.value])
      ensures name.Some? && name.value !in providers ==> r == Failure(ValueError(UnknownProviderMessage(name.value, order)))
      ensures name.Some? && name.value in providers ==> r == Success(providers[name.value])
    {
      var n: string;
      if name.None? {
        if defaultProvider.None? {
          return Failure(ValueError(NoDefaultMessage));
        }
        n := defaultProvider.value;
      } else {
        n := name.value;
      }
      if n !in providers {
        var available := ListAvailable();
        return Failure(ValueError(UnknownProviderMessage(n, available)));
      }
      r := Success(providers[n]);
    }

    /** `set_default(name)`: an unregistered name raises and leaves the default; a registered one becomes it. */
    method SetDefault(name: string) returns (r: Outcome<Exception>)
      requires Valid()
      modifies this
      ensures Valid()
      ensures providers == old(providers) && order == old(order)
      ensures name !in providers ==>
                r == Fail(ValueError(UnknownProviderMessage(name, order))) && defaultProvider == old(defaultProvider)
      ensures name in providers ==> r == Pass && defaultProvider == Some(name)
    {
      if name !in providers {
        var available := ListAvailable();
        return Fail(ValueError(UnknownProviderMessage(name, available)));
      }
      defaultProvider := Some(name);
      r := Pass;
    }

    /** `get_default()`. */
    method GetDefault() returns (d: Option<string>)
      requires Valid()
      ensures d == defaultProvider
      ensures d.Some? ==> d.value in providers
    {
      d := defaultProvider;
    }

    /** `list_available()`: every registered name once, in registration order. */
    method ListAvailable() returns (names: seq<string>)
      requires Valid()
      ensures names == order
      ensures NoDuplicates(names) && forall n :: n in names <==> n in providers
    {
      names := order;
    }

    /** `list_configured()`: the registered names whose provider validates, in registration order. */
    method ListConfigured(env: Env) returns (configured: seq<string>)
      requires Valid()
      ensures configured == ConfiguredNames(order, providers, env)
    {
      configured := [];
      for i := 0 to |order|
        invariant configured == ConfiguredNames(order[..i], providers, env)
      {
        var valid, _ := ValidateConfig(providers[order[i]], env);
        assert order[..i + 1][..i] == order[..i];
        if valid {
          configured := configured + [order[i]];
        }
      }
      assert order[..|order|] == order;
    }

    /** `clear()`: no providers and no default. */
    method Clear()
      modifies this
      ensures Valid()
      ensures providers == map[] && order == [] && defaultProvider == None
    {
      providers := map[];
      order := [];
      defaultProvider := None;
    }
  }
}
