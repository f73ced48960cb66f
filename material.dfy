/** A wall material (material.py): an identifier and a table of absorption coefficients. */
module Materiales {
  import opened Wrappers
  import opened Dicts
  import Ruidos

  /** A material as its attributes hold it: `id_material` and the `resistencias` table,
      keyed by band name. */
  datatype Material = Material(idMaterial: string, resistencias: Dict<string, real>)

  /** The table shape the constructor builds: the keys "500hz" and "2000hz", in that order. */
  predicate DeDosBandas(m: Material) {
    Keys(m.resistencias) == ["500hz", "2000hz"]
  }

  /** `Material(id_material, resistencia_500hz, resistencia_2000hz)`: the identifier is kept
      as given, "500hz" holds the first coefficient and "2000hz" the second, and the
      coefficients are stored without any range check. */
  function NuevoMaterial(id: string, r500: real, r2000: real): (m: Material)
    ensures m.idMaterial == id
    ensures DeDosBandas(m)
    ensures Get(m.resistencias, "500hz") == Some(r500)
    ensures Get(m.resistencias, "2000hz") == Some(r2000)
  {
    Material(id, [("500hz", r500), ("2000hz", r2000)])
  }

  /** The coefficient a source of the given frequency is looked up under,
      `resistencias.get(str(frecuencia) + 'hz')`. */
  function Absorcion(m: Material, frecuencia: int): Option<real> {
    Get(m.resistencias, Ruidos.BandKey(frecuencia))
  }

  /** A table of the constructor's shape answers exactly the frequencies 500 and 2000 Hz,
      each with the entry of its own band. */
  lemma AbsorcionPorFrecuencia(m: Material, f: int)
    requires DeDosBandas(m)
    ensures Absorcion(m, f).Some? <==> f == 500 || f == 2000
    ensures f == 500 ==> Absorcion(m, f) == Get(m.resistencias, "500hz")
    ensures f == 2000 ==> Absorcion(m, f) == Get(m.resistencias, "2000hz")
  {
    Ruidos.BandKeyOf(f);
    if f != 500 && f != 2000 {
      assert Ruidos.BandKey(f) !in Keys(m.resistencias);
    }
  }

  /** A freshly built material answers 500 Hz with its first coefficient, 2000 Hz with its
      second, and every other frequency with nothing. */
  lemma AbsorcionDeNuevoMaterial(id: string, r500: real, r2000: real, f: int)
    ensures Absorcion(NuevoMaterial(id, r500, r2000), f)
         == if f == 500 then Some(r500) else if f == 2000 then Some(r2000) else None
  {
    AbsorcionPorFrecuencia(NuevoMaterial(id, r500, r2000), f);
  }
}
