/**
  The building aggregate (edificio.py): four registries keyed by identifier and the
  per-space habitability verdict.
 */
module Edificios {
  import opened Wrappers
  import opened Dicts
  import opened Ruidos
  import opened Materiales
  import opened Espacios

  /** `ruido_total <= umbral`, where a missing threshold stands for `float('inf')`. */
  function EsHabitable(ruido: real, umbral: Option<real>): bool {
    match umbral
    case None => true
    case Some(u) => ruido <= u
  }

  /** What `calcular_habitabilidad_espacios` reports for one space. */
  datatype Linea = Linea(idEspacio: string, ruidoTotal: real, umbral: Option<real>, habitable: bool)

  /** The line reported for space `id`: its total noise, its threshold and the verdict. */
  function LineaDe(id: string, materiales: Dict<string, Material>, ruidos: Dict<string, Ruido>,
                   umbrales: Dict<string, real>, aristas: Dict<Arista, string>): Linea
  {
    var ruido := RuidoTotal(id, materiales, ruidos, aristas);
    Linea(id, ruido, Get(umbrales, id), EsHabitable(ruido, Get(umbrales, id)))
  }

  class Edificio {
    var nombre: string
    var espacios: Dict<string, Espacio>
    var materiales: Dict<string, Material>
    var ruidos: Dict<string, Ruido>
    var umbrales: Dict<string, real>

    /** Every registry is a dict, and every object is stored under its own identifier. */
    ghost predicate Valid()
      reads this
    {
      && DistinctKeys(espacios) && DistinctKeys(materiales)
      && DistinctKeys(ruidos) && DistinctKeys(umbrales)
      && (forall e | e in espacios :: e.0 == e.1.idEspacio)
      && (forall e | e in materiales :: e.0 == e.1.idMaterial)
      && (forall e | e in ruidos :: e.0 == e.1.idRuido)
    }

    constructor (nombre: string)
      ensures Valid()
      ensures this.nombre == nombre
      ensures espacios == [] && materiales == [] && ruidos == [] && umbrales == []
    {
      this.nombre := nombre;
      espacios, materiales, ruidos, umbrales := [], [], [], [];
    }

    /** `agregar_espacio`: stores the space under its own identifier. */
    method AgregarEspacio(espacio: Espacio)
      requires Valid()
      modifies this
      ensures Valid()
      ensures espacios == Put(old(espacios), espacio.idEspacio, espacio)
      ensures nombre == old(nombre) && materiales == old(materiales)
      ensures ruidos == old(ruidos) && umbrales == old(umbrales)
    {
      PutKeepsDistinct(espacios, espacio.idEspacio, espacio);
      PutEntries(espacios, espacio.idEspacio, espacio);
      espacios := Put(espacios, espacio.idEspacio, espacio);
    }

    /** `agregar_material`: stores the material under its own identifier. */
    method AgregarMaterial(material: Material)
      requires Valid()
      modifies this
      ensures Valid()
      ensures materiales == Put(old(materiales), material.idMaterial, material)
      ensures nombre == old(nombre) && espacios == old(espacios)
      ensures ruidos == old(ruidos) && umbrales == old(umbrales)
    {
      PutKeepsDistinct(materiales, material.idMaterial, material);
      PutEntries(materiales, material.idMaterial, material);
      materiales := Put(materiales, material.idMaterial, material);
    }

    /** `agregar_ruido`: stores the source under its own identifier. */
    method AgregarRuido(ruido: Ruido)
      requires Valid()
      modifies this
      ensures Valid()
      ensures ruidos == Put(old(ruidos), ruido.idRuido, ruido)
      ensures nombre == old(nombre) && espacios == old(espacios)
      ensures materiales == old(materiales) && umbrales == old(umbrales)
    {
      PutKeepsDistinct(ruidos, ruido.idRuido, ruido);
      PutEntries(ruidos, ruido.idRuido, ruido);
      ruidos := Put(ruidos, ruido.idRuido, ruido);
    }

    /** `agregar_actividad`: records only the threshold; the activity identifier is
        dropped and the space identifier is not checked against `espacios`. */
    method AgregarActividad(espacioId: string, idActividad: string, umbral: real)
      requires Valid()
      modifies this
      ensures Valid()
      ensures umbrales == Put(old(umbrales), espacioId, umbral)
      ensures nombre == old(nombre) && espacios == old(espacios)
      ensures materiales == old(materiales) && ruidos == old(ruidos)
    {
      PutKeepsDistinct(umbrales, espacioId, umbral);
      umbrales := Put(umbrales, espacioId, umbral);
    }

    /** `calcular_habitabilidad_espacios(aristas)`: one line per space, in registry
        order, holding the space's total noise, its threshold (none meaning +inf) and
        the verdict `ruido_total <= umbral`. Nothing in the building changes. */
    method CalcularHabitabilidadEspacios(aristas: Dict<Arista, string>) returns (informe: seq<Linea>)
      ensures |informe| == |espacios|
      ensures forall i :: 0 <= i < |espacios| ==>
        informe[i] == LineaDe(espacios[i].1.idEspacio, materiales, ruidos, umbrales, aristas)
    {
      informe := [];
      for i := 0 to |espacios|
        invariant |informe| == i
        invariant forall j :: 0 <= j < i ==>
          informe[j] == LineaDe(espacios[j].1.idEspacio, materiales, ruidos, umbrales, aristas)
      {
        var espacio := espacios[i].1;
        var ruidoTotal := espacio.CalcularRuido(materiales, ruidos, aristas);
        var umbral := Get(umbrales, espacio.idEspacio);
        var esHabitable := EsHabitable(ruidoTotal, umbral);
        informe := informe + [Linea(espacio.idEspacio, ruidoTotal, umbral, esHabitable)];
      }
    }
  }
}
