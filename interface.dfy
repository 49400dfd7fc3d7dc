/** get_backendwrapper: the wrapper class is chosen by the exact, case-sensitive statevector test
    on the string given or on the handle's own name(); a string is then resolved by get_backend. */
module Interface {
  import opened Failures
  import opened BackendWrappers
  import opened Accounts

  /** The argument of get_backendwrapper: a backend name or a backend object. */
  datatype Handle = ByName(name: string) | ByObject(backend: Backend)

  datatype WrapperKind = StatevectorWrapper | CountsWrapper

  /** What the wrapper holds: the resolution of a name, or the object it was given. */
  datatype Source = Resolved(route: Route) | Given(backend: Backend)

  datatype Wrapped = Wrapped(kind: WrapperKind, source: Source)

  function KindFor(name: string): WrapperKind {
    if IsStatevectorName(name) then StatevectorWrapper else CountsWrapper
  }

  /** A string picks the class by is_statevector(name) and is resolved by get_backend (whose
      errors it passes on); an object picks it by is_statevector(handle.name()) and is kept. */
  function GetBackendWrapper(h: Handle): Result<Wrapped> {
    match h
    case ByName(name) =>
      var route :- GetBackend(name);
      Success(Wrapped(KindFor(name), Resolved(route)))
    case ByObject(b) => Success(Wrapped(KindFor(b.intrinsicName), Given(b)))
  }

  /** The class is StatevectorBackend exactly for the two exact statevector names, whether they
      come as a string or as the object's own name(); an object is wrapped as given; a string
      fails exactly when get_backend does. */
  lemma WrapperKindCharacterised(h: Handle)
    ensures h.ByName? ==> (GetBackendWrapper(h).Success? <==> GetBackend(h.name).Success?)
    ensures h.ByObject? ==> GetBackendWrapper(h) == Success(Wrapped(KindFor(h.backend.intrinsicName), Given(h.backend)))
    ensures GetBackendWrapper(h).Success? ==>
      (GetBackendWrapper(h).value.kind == StatevectorWrapper <==>
        (h.ByName? && (h.name == "statevector_simulator" || h.name == "vec")) ||
        (h.ByObject? && (h.backend.intrinsicName == "statevector_simulator" || h.backend.intrinsicName == "vec")))
  {
  }

  /** A StatevectorBackend built from a name always holds Aer's statevector simulator. */
  lemma StatevectorWrapperHoldsSimulator(name: string)
    requires GetBackendWrapper(ByName(name)).Success?
    requires GetBackendWrapper(ByName(name)).value.kind == StatevectorWrapper
    ensures GetBackendWrapper(ByName(name)).value.source == Resolved(AerStatevector)
  {
    StatevectorAnyCase(name);
  }

  /** "VEC" fails the case-sensitive test but passes get_backend's case-insensitive one: a
      CountsBackend wrapping the statevector simulator. */
  lemma UpperVecGetsCountsWrapper()
    ensures GetBackendWrapper(ByName("VEC")) == Success(Wrapped(CountsWrapper, Resolved(AerStatevector)))
  {
    StatevectorAnyCase("VEC");
  }

  /** An object is classified by name(), not by the wrapper name that prefers custom_name: one
      whose custom_name is "vec" gets a CountsBackend although that wrapper reports itself as a
      statevector backend. */
  lemma ObjectClassifiedByIntrinsicName(g: Option<seq<GateProperty>>, m: Option<int>)
    ensures var b := Backend("qasm_simulator", Some("vec"), g, m);
      GetBackendWrapper(ByObject(b)) == Success(Wrapped(CountsWrapper, Given(b))) && IsStatevector(b)
  {
  }
}
