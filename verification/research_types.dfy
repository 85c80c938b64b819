/**
 * What importing the research-types package does: the five built-in types
 * are registered, in a fixed order, into the process-wide registry.  An
 * exception from `register` would abort the import; none can occur.
 */
module ResearchTypes {
  import opened Wrappers
  import opened Errors
  import opened ResearchTypeBase
  import opened ResearchTypeRegistry
  import Biography
  import Company
  import Market
  import People
  import Topic

  /** The registration order. */
  const BuiltinNames: seq<string> := ["biography", "company", "market", "people", "topic"]

  const Builtins: map<string, ResearchType> :=
    map["biography" := Biography.Biography, "company" := Company.Company, "market" := Market.Market,
        "people" := People.People, "topic" := Topic.Topic]

  /** The registry after the five registrations. */
  function AfterBuiltins(s: Snapshot): Snapshot {
    AfterRegister(AfterRegister(AfterRegister(AfterRegister(AfterRegister(s,
      Biography.Biography), Company.Company), Market.Market), People.People), Topic.Topic)
  }

  /** From the empty registry the five registrations give the five types in order. */
  lemma BuiltinsFromEmpty()
    ensures AfterBuiltins(Snapshot(map[], [])) == Snapshot(Builtins, BuiltinNames)
  {
    var s1 := AfterRegister(Snapshot(map[], []), Biography.Biography);
    assert s1 == Snapshot(map["biography" := Biography.Biography], ["biography"]);
    var s2 := AfterRegister(s1, Company.Company);
    assert s2 == Snapshot(map["biography" := Biography.Biography, "company" := Company.Company], ["biography", "company"]);
    var s3 := AfterRegister(s2, Market.Market);
    assert s3 == Snapshot(map["biography" := Biography.Biography, "company" := Company.Company, "market" := Market.Market],
                          ["biography", "company", "market"]);
    var s4 := AfterRegister(s3, People.People);
    assert s4 == Snapshot(map["biography" := Biography.Biography, "company" := Company.Company, "market" := Market.Market,
                              "people" := People.People], ["biography", "company", "market", "people"]);
  }

  /** Every built-in type meets the interface's contract. */
  lemma BuiltinsWellFormed()
    ensures WellFormed(Biography.Biography) && WellFormed(Company.Company) && WellFormed(Market.Market)
    ensures WellFormed(People.People) && WellFormed(Topic.Topic)
  {
    Biography.BiographyWellFormed();
    Company.CompanyWellFormed();
    Market.MarketWellFormed();
    People.PeopleWellFormed();
    Topic.TopicWellFormed();
  }

  /**
   * Importing the package into the empty registry: every `register` call
   * passes, and the registry then holds exactly the five types in order.
   */
  method ImportResearchTypes() returns (reg: Registry, outcomes: seq<Outcome<Exception>>)
    ensures fresh(reg) && reg.Valid()
    ensures reg.State() == Snapshot(Builtins, BuiltinNames)
    ensures outcomes == [Pass, Pass, Pass, Pass, Pass]
  {
    reg := new Registry();
    var o1 := reg.Register(Biography.Biography);
    var o2 := reg.Register(Company.Company);
    var o3 := reg.Register(Market.Market);
    var o4 := reg.Register(People.People);
    var o5 := reg.Register(Topic.Topic);
    BuiltinsFromEmpty();
    outcomes := [o1, o2, o3, o4, o5];
  }

  /**
   * After the import, `get` finds each of the five types and any other name
   * raises `ValueError` listing the five; a type under a new name can still
   * be registered.
   */
  lemma ImportedLookup(name: string, t: ResearchType)
    ensures Lookup(Snapshot(Builtins, BuiltinNames), name).Success? <==> name in BuiltinNames
    ensures name !in BuiltinNames ==>
              Lookup(Snapshot(Builtins, BuiltinNames), name) == Failure(ValueError(UnknownTypeMessage(name, BuiltinNames)))
    ensures t.name !in BuiltinNames ==>
              AfterRegister(Snapshot(Builtins, BuiltinNames), t).order == BuiltinNames + [t.name]
  {
    assert name in Builtins <==> name in BuiltinNames;
    assert t.name in Builtins <==> t.name in BuiltinNames;
  }
}
