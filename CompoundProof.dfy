/** `CompoundProof::setup`: wraps a proof scheme's setup with the
    partition count and the GPU priority flag. */
module CompoundProof {
  import opened Primitives

  datatype SetupParams<V> = SetupParams(vanillaParams: V, partitions: Option<nat>, priority: bool)

  datatype PublicParams<P> = PublicParams(vanillaParams: P, partitions: Option<nat>, priority: bool)

  /** `setup`: the scheme's public parameters from its own setup, with the
      partitions and the priority copied; a failing scheme setup fails the
      whole, with the same error, and yields no parameters. */
  function Setup<V, P>(sp: SetupParams<V>, schemeSetup: V -> Outcome<P>): (r: Outcome<PublicParams<P>>)
    ensures r.Ok? <==> schemeSetup(sp.vanillaParams).Ok?
    ensures r.Ok? ==> && r.value.vanillaParams == schemeSetup(sp.vanillaParams).value
                      && r.value.partitions == sp.partitions
                      && r.value.priority == sp.priority
    ensures r.Err? <==> schemeSetup(sp.vanillaParams).Err?
    ensures r.Err? ==> r.error == schemeSetup(sp.vanillaParams).error
    ensures r.Abort? ==> r.fault == schemeSetup(sp.vanillaParams).fault
  {
    match schemeSetup(sp.vanillaParams)
    case Ok(vanilla) => Ok(PublicParams(vanilla, sp.partitions, sp.priority))
    case Err(e) => Err(e)
    case Abort(f) => Abort(f)
  }
}
