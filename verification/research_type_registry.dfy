/**
 * The research-type registry: a name-to-type dictionary kept in registration
 * order.  It is class-level state shared by the whole process; it is one
 * object here.
 */
module ResearchTypeRegistry {
  import opened Wrappers
  import opened Errors
  import opened PyStr
  import opened ResearchTypeBase

  function DuplicateTypeMessage(name: string): string {
    "Research type '" + name + "' is already registered"
  }

  function UnknownTypeMessage(name: string, available: seq<string>): string {
    "Unknown research type: '" + name + "'. Available types: " + Join(", ", available)
  }

  /** The registry's dictionary and its key order as one value. */
  datatype Snapshot = Snapshot(types: map<string, ResearchType>, order: seq<string>)

  /** The registry after `register(t)`: unchanged when the name is taken (the call raises), else `t` appended. */
  function AfterRegister(s: Snapshot, t: ResearchType): (r: Snapshot)
    ensures t.name in r.types && s.order <= r.order
    ensures t.name !in s.types ==> r.types[t.name] == t && r.order == s.order + [t.name]
    ensures forall n :: n in s.types ==> n in r.types && r.types[n] == s.types[n]
  {
    if t.name in s.types then s else Snapshot(s.types[t.name := t], s.order + [t.name])
  }

  /** `get(name)` against a registry's contents: the type, or `ValueError` listing the registered names. */
  function Lookup(s: Snapshot, name: string): (r: Result<ResearchType, Exception>)
    ensures r.Success? <==> name in s.types
    ensures r.Success? ==> r.value == s.types[name]
    ensures r.Failure? ==> r.error == ValueError(UnknownTypeMessage(name, s.order))
  {
    if name in s.types then Success(s.types[name]) else Failure(ValueError(UnknownTypeMessage(name, s.order)))
  }

  /** The dictionary and its key order agree, and every type is filed under its own name. */
  predicate Consistent(s: Snapshot) {
    && (forall i :: 0 <= i < |s.order| ==> s.order[i] in s.types)
    && (forall n :: n in s.types ==> n in s.order)
    && NoDuplicates(s.order)
    && (forall n :: n in s.types ==> s.types[n].name == n)
  }

  /** Registering keeps the registry consistent. */
  lemma AfterRegisterConsistent(s: Snapshot, t: ResearchType)
    requires Consistent(s)
    ensures Consistent(AfterRegister(s, t))
  {
    if t.name !in s.types {
      var r := AfterRegister(s, t);
      forall i, j | 0 <= i < j < |r.order| ensures r.order[i] != r.order[j] {
        if j == |s.order| {
          assert r.order[i] == s.order[i];
        }
      }
    }
  }

  class Registry {
    /** `_types`: the registered research types by name. */
    var types: map<string, ResearchType>
    /** The dictionary's key order: the registration order. */
    var order: seq<string>

    function State(): Snapshot
      reads this
    {
      Snapshot(types, order)
    }

    predicate Valid()
      reads this
    {
      Consistent(State())
    }

    /** The registry as the class declares it: empty. */
    constructor()
      ensures Valid() && State() == Snapshot(map[], [])
    {
      types := map[];
      order := [];
    }

    /** `register(research_type)`: a taken name raises `ValueError` and changes nothing; otherwise it is added. */
    method Register(t: ResearchType) returns (r: Outcome<Exception>)
      requires Valid()
      modifies this
      ensures Valid()
      ensures State() == AfterRegister(old(State()), t)
      ensures r == if t.name in old(types) then Fail(ValueError(DuplicateTypeMessage(t.name))) else Pass
    {
      AfterRegisterConsistent(State(), t);
      if t.name in types {
        return Fail(ValueError(DuplicateTypeMessage(t.name)));
      }
      types := types[t.name := t];
      order := order + [t.name];
      r := Pass;
    }

    /** `get(name)`. */
    method Get(name: string) returns (r: Result<ResearchType, Exception>)
      requires Valid()
      ensures r == Lookup(State(), name)
    {
      if name !in types {
        var available := ListAvailable();
        return Failure(ValueError(UnknownTypeMessage(name, available)));
      }
      r := Success(types[name]);
    }

    /** `list_available()`: every registered name once, in registration order. */
    method ListAvailable() returns (names: seq<string>)
      requires Valid()
      ensures names == order
      ensures NoDuplicates(names) && forall n :: n in names <==> n in types
    {
      names := order;
    }

    /** `clear()`. */
    method Clear()
      modifies this
      ensures Valid() && State() == Snapshot(map[], [])
    {
      types := map[];
      order := [];
    }
  }
}
