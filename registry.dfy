/** The connector registry of `internal/connectors/registry.go`: a map from
    connector type name to a factory that builds a fresh connector. The
    read/write mutex around it is not modelled; calls are sequential. */
module Registry {
  import opened Wrappers

  /** The message `Get` reports for a name nobody registered. */
  function UnsupportedMessage(name: string): string
  {
    "unsupported connector type: " + name
  }

  /** No two positions of `s` hold the same element. */
  predicate Distinct<T(==)>(s: seq<T>)
  {
    forall i, j :: 0 <= i < j < |s| ==> s[i] != s[j]
  }

  class Registry<C> {
    /** `registry`: connector type name to factory. */
    var factories: map<string, () -> C>

    /** The package-level `make(map[string]func() Connector)`. */
    constructor ()
      ensures factories == map[]
    {
      factories := map[];
    }

    /** `Register`: stores the factory under the name, replacing any earlier
        one, and leaves every other name as it was. */
    method Register(name: string, factory: () -> C)
      modifies this
      ensures factories == old(factories)[name := factory]
      ensures name in factories && factories[name] == factory
      ensures forall n :: n != name ==> (n in factories <==> n in old(factories))
      ensures forall n :: n != name && n in old(factories) ==> factories[n] == old(factories)[n]
    {
      factories := factories[name := factory];
    }

    /** `Get`: a fresh connector from the registered factory, or the
        "unsupported connector type" error; the registry is only read. */
    method Get(name: string) returns (r: Result<C>)
      ensures name in factories <==> r.Success?
      ensures name in factories ==> r == Success(factories[name]())
      ensures name !in factories ==> r == Failure(UnsupportedMessage(name))
    {
      if name !in factories {
        return Failure(UnsupportedMessage(name));
      }
      var factory := factories[name];
      return Success(factory());
    }

    /** `List`: every registered name exactly once, in no particular order
        (Go's map iteration order is unspecified, so the loop picks any
        remaining name). */
    method List() returns (types: seq<string>)
      ensures forall t :: t in types <==> t in factories
      ensures Distinct(types)
      ensures |types| == |factories|
    {
      types := [];
      var pending := factories.Keys;
      while pending != {}
        invariant pending <= factories.Keys
        invariant forall t :: t in types <==> t in factories && t !in pending
        invariant Distinct(types)
        invariant |types| + |pending| == |factories.Keys|
        decreases |pending|
      {
        var t :| t in pending;
        types := types + [t];
        pending := pending - {t};
      }
    }
  }
}
