/** The accelerator record of the simulator: its default configuration, the
    reconfiguration of the particle beam, and the read-only status view.

    Every numeric quantity is an exact `real`; the model does not reproduce the
    rounding of the C `double`s it stands for. */
module State {

  /** Number of components held by every accelerator (`NUM_COMPONENTS`). */
  const ComponentCount: nat := 8

  /** Number of numeric fields of one component. */
  const FieldCount: nat := 8

  /** Size of the record's character buffers, terminating NUL included. */
  const BufferSize: nat := 50

  const DefaultParticleEnergy: real := 10.0
  const DefaultParticleType: string := "Sand"
  const DefaultComponentName: string := "Component"

  /** One accelerator component; the comments give the units the program uses. */
  datatype Component = Component(
    name: string,
    energy: real,          // GeV
    beamIntensity: real,   // particles per second
    beamSize: real,        // mm
    vacuumPressure: real,  // Torr
    magneticField: real,   // Tesla
    radioFrequency: real,  // MHz
    beamPower: real,       // kW
    coolingSystem: real    // liters per minute
  )

  datatype Accelerator = Accelerator(
    particleEnergy: real,  // GeV
    particleType: string,
    components: seq<Component>
  )

  /** What the `status` command shows: the particle settings and the eight numeric
      fields of component 0, in the order they are printed. */
  datatype StatusView = StatusView(particleEnergy: real, particleType: string, common: seq<real>)

  /** A string can be stored in a `char[50]` buffer together with its terminating NUL. */
  predicate FitsBuffer(s: string) {
    |s| < BufferSize
  }

  /** The record invariant the C types guarantee: exactly eight components, and a
      particle type that fits its buffer. (Component names are only ever set to
      `DefaultComponentName`.) */
  predicate Valid(a: Accelerator) {
    |a.components| == ComponentCount && FitsBuffer(a.particleType)
  }

  /** The numeric fields of a component by position, in declaration order. */
  function Field(c: Component, j: nat): real
    requires j < FieldCount
  {
    if j == 0 then c.energy
    else if j == 1 then c.beamIntensity
    else if j == 2 then c.beamSize
    else if j == 3 then c.vacuumPressure
    else if j == 4 then c.magneticField
    else if j == 5 then c.radioFrequency
    else if j == 6 then c.beamPower
    else c.coolingSystem
  }

  /** The numeric fields of a component, in declaration order. */
  function Fields(c: Component): (f: seq<real>)
    ensures |f| == FieldCount
  {
    [c.energy, c.beamIntensity, c.beamSize, c.vacuumPressure,
     c.magneticField, c.radioFrequency, c.beamPower, c.coolingSystem]
  }

  /** Two components with the same name and the same eight fields are the same. */
  lemma {:induction false} FieldsDetermineComponent(c: Component, d: Component)
    requires c.name == d.name
    requires forall j | 0 <= j < FieldCount :: Field(c, j) == Field(d, j)
    ensures c == d
  {
    assert Field(c, 0) == Field(d, 0) && Field(c, 1) == Field(d, 1);
    assert Field(c, 2) == Field(d, 2) && Field(c, 3) == Field(d, 3);
    assert Field(c, 4) == Field(d, 4) && Field(c, 5) == Field(d, 5);
    assert Field(c, 6) == Field(d, 6) && Field(c, 7) == Field(d, 7);
  }

  /** `initAccelerator`: default particle settings and eight zeroed components. */
  function Init(): (a: Accelerator)
    ensures Valid(a)
    ensures a.particleEnergy == 10.0 && a.particleType == "Sand"
    ensures forall i | 0 <= i < |a.components| ::
              && a.components[i].name == "Component"
              && forall j | 0 <= j < FieldCount :: Field(a.components[i], j) == 0.0
  {
    var blank := Component(DefaultComponentName, 0.0, 0.0, 0.0, 0.0, 0.0, 0.0, 0.0, 0.0);
    Accelerator(DefaultParticleEnergy, DefaultParticleType, seq(ComponentCount, _ => blank))
  }

  /** `changeParticleEnergy`. The new type is copied into a `char[50]` buffer,
      so it must fit there; the source has no other requirement. */
  function Change(a: Accelerator, energy: real, particleType: string): (r: Accelerator)
    requires FitsBuffer(particleType)
    ensures r.particleEnergy == energy && r.particleType == particleType
    ensures r.components == a.components
    ensures Valid(a) ==> Valid(r)
  {
    var r := a.(particleEnergy := energy, particleType := particleType);
    if particleType == DefaultParticleType then
      r  // the source reserves this branch for sand-specific adjustments and makes none
    else
      r
  }

  /** Reconfiguring twice keeps only the second configuration. */
  lemma {:induction false} ChangeLastWins(a: Accelerator, e1: real, t1: string, e2: real, t2: string)
    requires FitsBuffer(t1) && FitsBuffer(t2)
    ensures Change(Change(a, e1, t1), e2, t2) == Change(a, e2, t2)
  {
  }

  /** Reconfiguring with the settings already in place changes nothing. */
  lemma {:induction false} ChangeToCurrentIsIdentity(a: Accelerator)
    requires Valid(a)
    ensures Change(a, a.particleEnergy, a.particleType) == a
  {
  }

  /** The status view (`status` together with `printCommonProperties`). */
  function View(a: Accelerator): (v: StatusView)
    requires Valid(a)
    ensures v.particleEnergy == a.particleEnergy && v.particleType == a.particleType
    ensures |v.common| == FieldCount
    ensures forall j | 0 <= j < FieldCount :: v.common[j] == Field(a.components[0], j)
  {
    StatusView(a.particleEnergy, a.particleType, Fields(a.components[0]))
  }

  /** Two accelerators show the same status exactly when they agree on the particle
      settings and on the eight numeric fields of component 0; its name and
      components 1 to 7 never reach the view. */
  lemma {:induction false} ViewDependsOnlyOnComponentZero(a: Accelerator, b: Accelerator)
    requires Valid(a) && Valid(b)
    ensures View(a) == View(b) <==>
              && a.particleEnergy == b.particleEnergy
              && a.particleType == b.particleType
              && forall j | 0 <= j < FieldCount :: Field(a.components[0], j) == Field(b.components[0], j)
  {
    var va, vb := View(a), View(b);
    if forall j | 0 <= j < FieldCount :: Field(a.components[0], j) == Field(b.components[0], j) {
      assert forall j | 0 <= j < FieldCount :: va.common[j] == vb.common[j];
      assert va.common == vb.common;
    }
  }

  /** The name of component 0 is not part of the status view. */
  lemma {:induction false} ViewIgnoresComponentName(a: Accelerator, name: string)
    requires Valid(a)
    ensures var b := a.(components := a.components[0 := a.components[0].(name := name)]);
            Valid(b) && View(b) == View(a)
  {
    var b := a.(components := a.components[0 := a.components[0].(name := name)]);
    assert Fields(b.components[0]) == Fields(a.components[0]);
  }
}
