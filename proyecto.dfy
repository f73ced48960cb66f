/**
  The earlier, self-contained variant of the model (Proyecto.py): the evaluator sums
  intensity * absorption with no factor 2, skips a missing material or band with a
  warning, and returns the verdict directly.
 */
module Proyecto {
  import opened Wrappers
  import opened Dicts
  import opened Ruidos
  import opened Materiales
  import opened Acumulados
  import Espacios
  import Edificios

  type Arista = Espacios.Arista

  /** The warnings the evaluator prints, in order. */
  datatype Aviso =
    | MaterialNoEncontrado(idMaterial: string)
    | AbsorcionNoEncontrada(idMaterial: string, frecuencia: int)

  /** A source whose frequency has no coefficient in the material's table. */
  predicate SinBanda(m: Material, r: Ruido) {
    Absorcion(m, r.frecuencia).None?
  }

  /** `intensidad * absorcion`, or 0 when the band has no coefficient. */
  function TerminoSinFactor(m: Material, r: Ruido): real {
    match Absorcion(m, r.frecuencia)
    case None => 0.0
    case Some(a) => Atenuado(r.intensidad, a)
  }

  function TerminosSinFactor(m: Material): ((string, Ruido)) -> real {
    (e: (string, Ruido)) => TerminoSinFactor(m, e.1)
  }

  /** What one wall of material `m` adds to `ruido_total`. */
  function FuentesSinFactor(m: Material, ruidos: Dict<string, Ruido>): real {
    Suma(TerminosSinFactor(m), ruidos)
  }

  /** The warning one source prints through a wall of material `materialId`, if any. */
  function AvisosDeFuente(materialId: string, m: Material): ((string, Ruido)) -> seq<Aviso> {
    (e: (string, Ruido)) => if SinBanda(m, e.1) then [AbsorcionNoEncontrada(materialId, e.1.frecuencia)] else []
  }

  /** The band warnings one wall of material `materialId` prints, in source order. */
  function AvisosFuentes(materialId: string, m: Material, ruidos: Dict<string, Ruido>): seq<Aviso> {
    Concatenar(AvisosDeFuente(materialId, m), ruidos)
  }

  function AporteSinFactor(id: string, materiales: Dict<string, Material>, ruidos: Dict<string, Ruido>,
                           e: (Arista, string)): real
  {
    if !Espacios.Toca(e.0, id) then 0.0
    else match Get(materiales, e.1)
      case None => 0.0
      case Some(m) => FuentesSinFactor(m, ruidos)
  }

  function AportesSinFactor(id: string, materiales: Dict<string, Material>, ruidos: Dict<string, Ruido>)
    : ((Arista, string)) -> real
  {
    (e: (Arista, string)) => AporteSinFactor(id, materiales, ruidos, e)
  }

  function AvisosArista(id: string, materiales: Dict<string, Material>, ruidos: Dict<string, Ruido>,
                        e: (Arista, string)): seq<Aviso>
  {
    if !Espacios.Toca(e.0, id) then []
    else match Get(materiales, e.1)
      case None => [MaterialNoEncontrado(e.1)]
      case Some(m) => AvisosFuentes(e.1, m, ruidos)
  }

  /** The accumulated `ruido_total` of `calcular_habitabilidad`. */
  function TotalSinFactor(id: string, materiales: Dict<string, Material>, ruidos: Dict<string, Ruido>,
                          aristas: Dict<Arista, string>): real
  {
    Suma(AportesSinFactor(id, materiales, ruidos), aristas)
  }

  function AvisosAristas(id: string, materiales: Dict<string, Material>, ruidos: Dict<string, Ruido>)
    : ((Arista, string)) -> seq<Aviso>
  {
    (e: (Arista, string)) => AvisosArista(id, materiales, ruidos, e)
  }

  /** The warnings `calcular_habitabilidad` prints, in order. */
  function Avisos(id: string, materiales: Dict<string, Material>, ruidos: Dict<string, Ruido>,
                  aristas: Dict<Arista, string>): seq<Aviso>
  {
    Concatenar(AvisosAristas(id, materiales, ruidos), aristas)
  }

  lemma FuentesPaso(materialId: string, m: Material, ruidos: Dict<string, Ruido>, j: nat)
    requires j < |ruidos|
    ensures FuentesSinFactor(m, ruidos[..j + 1])
         == FuentesSinFactor(m, ruidos[..j]) + TerminoSinFactor(m, ruidos[j].1)
    ensures AvisosFuentes(materialId, m, ruidos[..j + 1])
         == AvisosFuentes(materialId, m, ruidos[..j])
            + if SinBanda(m, ruidos[j].1) then [AbsorcionNoEncontrada(materialId, ruidos[j].1.frecuencia)] else []
  {
    SumaPaso(TerminosSinFactor(m), ruidos, j);
    ConcatenarPaso(AvisosDeFuente(materialId, m), ruidos, j);
  }

  lemma TotalPaso(id: string, materiales: Dict<string, Material>, ruidos: Dict<string, Ruido>,
                  aristas: Dict<Arista, string>, i: nat)
    requires i < |aristas|
    ensures TotalSinFactor(id, materiales, ruidos, aristas[..i + 1])
         == TotalSinFactor(id, materiales, ruidos, aristas[..i]) + AporteSinFactor(id, materiales, ruidos, aristas[i])
    ensures Avisos(id, materiales, ruidos, aristas[..i + 1])
         == Avisos(id, materiales, ruidos, aristas[..i]) + AvisosArista(id, materiales, ruidos, aristas[i])
  {
    SumaPaso(AportesSinFactor(id, materiales, ruidos), aristas, i);
    ConcatenarPaso(AvisosAristas(id, materiales, ruidos), aristas, i);
  }

  /** A space of this variant also carries an optional activity and source label. */
  datatype Espacio = Espacio(idEspacio: string, x: int, y: int, z: int,
                             actividad: Option<string>, fuente: Option<string>)
  {
    /** `Espacio.calcular_habitabilidad(materiales, ruidos, umbrales, aristas)`: the
        verdict `Σ intensity * absorption <= umbrales.get(id, inf)` over the walls
        touching the space, and the warnings printed on the way. */
    method CalcularHabitabilidad(materiales: Dict<string, Material>, ruidos: Dict<string, Ruido>,
                                 umbrales: Dict<string, real>, aristas: Dict<Arista, string>)
      returns (habitable: bool, avisos: seq<Aviso>)
      ensures habitable <==> (Get(umbrales, idEspacio).None?
                              || TotalSinFactor(idEspacio, materiales, ruidos, aristas) <= Get(umbrales, idEspacio).value)
      ensures avisos == Avisos(idEspacio, materiales, ruidos, aristas)
    {
      var ruidoTotal := 0.0;
      avisos := [];
      for i := 0 to |aristas|
        invariant ruidoTotal == TotalSinFactor(idEspacio, materiales, ruidos, aristas[..i])
        invariant avisos == Avisos(idEspacio, materiales, ruidos, aristas[..i])
      {
        ghost var totalAntes, avisosAntes := ruidoTotal, avisos;
        var arista, materialId := aristas[i].0, aristas[i].1;
        if Espacios.Toca(arista, idEspacio) {
          var material := Get(materiales, materialId);
          if material.Some? {
            var m := material.value;
            for j := 0 to |ruidos|
              invariant ruidoTotal == totalAntes + FuentesSinFactor(m, ruidos[..j])
              invariant avisos == avisosAntes + AvisosFuentes(materialId, m, ruidos[..j])
            {
              var ruido := ruidos[j].1;
              var frecuencia := ruido.frecuencia;
              var intensidad := ruido.intensidad;
              var absorcion := Get(m.resistencias, BandKey(frecuencia));
              assert absorcion == Absorcion(m, ruido.frecuencia);
              if absorcion.Some? {
                ruidoTotal := ruidoTotal + Atenuado(intensidad, absorcion.value);
              } else {
                avisos := avisos + [AbsorcionNoEncontrada(materialId, frecuencia)];
              }
              FuentesPaso(materialId, m, ruidos, j);
            }
            assert ruidos[..|ruidos|] == ruidos;
          } else {
            avisos := avisos + [MaterialNoEncontrado(materialId)];
          }
        }
        TotalPaso(idEspacio, materiales, ruidos, aristas, i);
      }
      assert aristas[..|aristas|] == aristas;
      habitable := Edificios.EsHabitable(ruidoTotal, Get(umbrales, idEspacio));
    }
  }

  // ---- Properties of the evaluator -------------------------------------------------

  /** Through one wall, a source adds half of what the canonical evaluator counts. */
  lemma TerminoDoble(m: Material, r: Ruido)
    ensures Espacios.Termino(m, r) == 2.0 * TerminoSinFactor(m, r)
  {
    if Absorcion(m, r.frecuencia).None? {
      assert Espacios.AbsorcionO0(m, r.frecuencia) == 0.0;
    }
  }

  /** The canonical total (espacio.py) is exactly twice this variant's total. */
  lemma RuidoEsDoble(id: string, materiales: Dict<string, Material>, ruidos: Dict<string, Ruido>,
                     aristas: Dict<Arista, string>)
    ensures Espacios.RuidoTotal(id, materiales, ruidos, aristas) == 2.0 * TotalSinFactor(id, materiales, ruidos, aristas)
  {
    forall j | 0 <= j < |aristas|
      ensures Espacios.AporteArista(id, materiales, ruidos, aristas[j])
           == 2.0 * AporteSinFactor(id, materiales, ruidos, aristas[j])
    {
      var e := aristas[j];
      if Espacios.Toca(e.0, id) && Get(materiales, e.1).Some? {
        var m := Get(materiales, e.1).value;
        forall k | 0 <= k < |ruidos| ensures Espacios.Termino(m, ruidos[k].1) == 2.0 * TerminoSinFactor(m, ruidos[k].1) {
          TerminoDoble(m, ruidos[k].1);
        }
        SumaDoble(TerminosSinFactor(m), Espacios.TerminosDe(m), ruidos);
      }
    }
    SumaDoble(AportesSinFactor(id, materiales, ruidos), Espacios.AportesA(id, materiales, ruidos), aristas);
  }

  /** A source without a band entry adds nothing, wherever it stands among the sources. */
  lemma FuenteSinBandaNoSuma(m: Material, ruidos: Dict<string, Ruido>, k: nat, r: (string, Ruido))
    requires k <= |ruidos|
    requires SinBanda(m, r.1)
    ensures FuentesSinFactor(m, ruidos[..k] + [r] + ruidos[k..]) == FuentesSinFactor(m, ruidos)
  {
    SumaInsertar(TerminosSinFactor(m), ruidos, k, r);
  }

  /** A wall whose material is not registered adds nothing, wherever it stands. */
  lemma MaterialAusenteNoSuma(id: string, materiales: Dict<string, Material>, ruidos: Dict<string, Ruido>,
                              aristas: Dict<Arista, string>, k: nat, e: (Arista, string))
    requires k <= |aristas|
    requires Get(materiales, e.1).None?
    ensures TotalSinFactor(id, materiales, ruidos, aristas[..k] + [e] + aristas[k..])
         == TotalSinFactor(id, materiales, ruidos, aristas)
  {
    SumaInsertar(AportesSinFactor(id, materiales, ruidos), aristas, k, e);
  }

  /** Every source has a coefficient in the material's table. */
  ghost predicate ConBanda(m: Material, ruidos: Dict<string, Ruido>) {
    forall k :: 0 <= k < |ruidos| ==> !SinBanda(m, ruidos[k].1)
  }

  /** Every wall touching `id` has a registered material with a coefficient for every source. */
  ghost predicate SinFaltantes(id: string, materiales: Dict<string, Material>, ruidos: Dict<string, Ruido>,
                               aristas: Dict<Arista, string>)
  {
    forall j :: 0 <= j < |aristas| && Espacios.Toca(aristas[j].0, id) ==>
      Get(materiales, aristas[j].1).Some? && ConBanda(Get(materiales, aristas[j].1).value, ruidos)
  }

  /** One wall prints no band warning exactly when every source has a band entry. */
  lemma SinAvisosFuentes(materialId: string, m: Material, ruidos: Dict<string, Ruido>)
    ensures AvisosFuentes(materialId, m, ruidos) == [] <==> ConBanda(m, ruidos)
  {
    ConcatenarVacio(AvisosDeFuente(materialId, m), ruidos);
  }

  /** The evaluator prints no warning at all exactly when nothing it looks up is missing. */
  lemma SinAvisos(id: string, materiales: Dict<string, Material>, ruidos: Dict<string, Ruido>,
                  aristas: Dict<Arista, string>)
    ensures Avisos(id, materiales, ruidos, aristas) == [] <==> SinFaltantes(id, materiales, ruidos, aristas)
  {
    forall j | 0 <= j < |aristas| && Espacios.Toca(aristas[j].0, id) && Get(materiales, aristas[j].1).Some? {
      SinAvisosFuentes(aristas[j].1, Get(materiales, aristas[j].1).value, ruidos);
    }
    ConcatenarVacio(AvisosAristas(id, materiales, ruidos), aristas);
  }

  /** With a table as the constructor builds it, a band is missing exactly for the
      frequencies other than 500 and 2000 Hz. */
  lemma ConBandaDeDosBandas(m: Material, ruidos: Dict<string, Ruido>)
    requires DeDosBandas(m)
    ensures ConBanda(m, ruidos)
        <==> forall k :: 0 <= k < |ruidos| ==> ruidos[k].1.frecuencia == 500 || ruidos[k].1.frecuencia == 2000
  {
    forall k | 0 <= k < |ruidos| {
      AbsorcionPorFrecuencia(m, ruidos[k].1.frecuencia);
    }
  }

  // ---- The building of this variant (Proyecto.py:43-67) ----------------------------

  /** The verdict `calcular_habitabilidad` returns for space `id`. */
  function Habitable(id: string, materiales: Dict<string, Material>, ruidos: Dict<string, Ruido>,
                     umbrales: Dict<string, real>, aristas: Dict<Arista, string>): bool
  {
    Edificios.EsHabitable(TotalSinFactor(id, materiales, ruidos, aristas), Get(umbrales, id))
  }

  /** What `calcular_habitabilidad_espacios` prints for one space: the warnings raised while
      evaluating it, then the line "El espacio <id> es habitable: <verdict>". */
  datatype Reporte = Reporte(idEspacio: string, avisos: seq<Aviso>, habitable: bool)

  class Edificio {
    var nombre: string
    var espacios: Dict<string, Espacio>
    var materiales: Dict<string, Material>
    var ruidos: Dict<string, Ruido>
    var umbrales: Dict<string, real>

    /** Every registry is a dict, and spaces, materials and sources sit under their own identifier. */
    ghost predicate Valid()
      reads this
    {
      && DistinctKeys(espacios) && DistinctKeys(materiales)
      && DistinctKeys(ruidos) && DistinctKeys(umbrales)
      && (forall e | e in espacios :: e.0 == e.1.idEspacio)
      && (forall e | e in materiales :: e.0 == e.1.idMaterial)
      && (forall e | e in ruidos :: e.0 == e.1.idRuido)
    }

    constructor (nombre: string)
      ensures Valid()
      ensures this.nombre == nombre
      ensures espacios == [] && materiales == [] && ruidos == [] && umbrales == []
    {
      this.nombre := nombre;
      espacios, materiales, ruidos, umbrales := [], [], [], [];
    }

    /** `agregar_espacio`: stores the space under its own identifier. */
    method AgregarEspacio(espacio: Espacio)
      requires Valid()
      modifies this
      ensures Valid()
      ensures espacios == Put(old(espacios), espacio.idEspacio, espacio)
      ensures nombre == old(nombre) && materiales == old(materiales)
      ensures ruidos == old(ruidos) && umbrales == old(umbrales)
    {
      PutKeepsDistinct(espacios, espacio.idEspacio, espacio);
      PutEntries(espacios, espacio.idEspacio, espacio);
      espacios := Put(espacios, espacio.idEspacio, espacio);
    }

    /** `agregar_material`: stores the material under its own identifier. */
    method AgregarMaterial(material: Material)
      requires Valid()
      modifies this
      ensures Valid()
      ensures materiales == Put(old(materiales), material.idMaterial, material)
      ensures nombre == old(nombre) && espacios == old(espacios)
      ensures ruidos == old(ruidos) && umbrales == old(umbrales)
    {
      PutKeepsDistinct(materiales, material.idMaterial, material);
      PutEntries(materiales, material.idMaterial, material);
      materiales := Put(materiales, material.idMaterial, material);
    }

    /** `agregar_ruido`: stores the source under its own identifier. */
    method AgregarRuido(ruido: Ruido)
      requires Valid()
      modifies this
      ensures Valid()
      ensures ruidos == Put(old(ruidos), ruido.idRuido, ruido)
      ensures nombre == old(nombre) && espacios == old(espacios)
      ensures materiales == old(materiales) && umbrales == old(umbrales)
    {
      PutKeepsDistinct(ruidos, ruido.idRuido, ruido);
      PutEntries(ruidos, ruido.idRuido, ruido);
      ruidos := Put(ruidos, ruido.idRuido, ruido);
    }

    /** `agregar_umbral`: sets the threshold of `espacioId`, which need not name a registered space. */
    method AgregarUmbral(espacioId: string, umbral: real)
      requires Valid()
      modifies this
      ensures Valid()
      ensures umbrales == Put(old(umbrales), espacioId, umbral)
      ensures nombre == old(nombre) && espacios == old(espacios)
      ensures materiales == old(materiales) && ruidos == old(ruidos)
    {
      PutKeepsDistinct(umbrales, espacioId, umbral);
      umbrales := Put(umbrales, espacioId, umbral);
    }

    /** `calcular_habitabilidad_espacios(aristas)`: one report per registered space, in
        registry order, with the warnings its evaluation raised and its verdict. Nothing in
        the building changes. */
    method CalcularHabitabilidadEspacios(aristas: Dict<Arista, string>) returns (salida: seq<Reporte>)
      ensures |salida| == |espacios|
      ensures forall i :: 0 <= i < |espacios| ==>
        var id := espacios[i].1.idEspacio;
        salida[i] == Reporte(id, Avisos(id, materiales, ruidos, aristas),
                             Habitable(id, materiales, ruidos, umbrales, aristas))
    {
      salida := [];
      for i := 0 to |espacios|
        invariant |salida| == i
        invariant forall j :: 0 <= j < i ==>
          var id := espacios[j].1.idEspacio;
          salida[j] == Reporte(id, Avisos(id, materiales, ruidos, aristas),
                               Habitable(id, materiales, ruidos, umbrales, aristas))
      {
        var espacio := espacios[i].1;
        var esHabitable, avisos := espacio.CalcularHabitabilidad(materiales, ruidos, umbrales, aristas);
        salida := salida + [Reporte(espacio.idEspacio, avisos, esHabitable)];
      }
    }
  }
}
