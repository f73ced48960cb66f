/**
  The canonical noise evaluator (espacio.py): the noise reaching a space is the sum,
  over every wall whose key contains the space and whose material is registered, and
  over every noise source, of intensity * absorption * 2.
 */
module Espacios {
  import opened Wrappers
  import opened Dicts
  import opened Ruidos
  import opened Materiales
  import opened Acumulados

  /** A wall key: the pair of space identifiers it separates. */
  type Arista = (string, string)

  /** `id in arista` for a two-element tuple. */
  predicate Toca(a: Arista, id: string) {
    a.0 == id || a.1 == id
  }

  /** `material.resistencias.get(str(frecuencia) + 'hz', 0)`. */
  function AbsorcionO0(m: Material, frecuencia: int): real {
    GetOr(m.resistencias, BandKey(frecuencia), 0.0)
  }

  /** What source `r` adds through one wall of material `m`: intensity times absorption,
      doubled for the two sides of the wall. */
  function Termino(m: Material, r: Ruido): real {
    Atenuado(r.intensidad, AbsorcionO0(m, r.frecuencia)) * 2.0
  }

  /** The term of each source through a wall of material `m`. */
  function TerminosDe(m: Material): ((string, Ruido)) -> real {
    (e: (string, Ruido)) => Termino(m, e.1)
  }

  /** What one wall of material `m` lets through from the sources, in the order of `ruidos`. */
  function AporteFuentes(m: Material, ruidos: Dict<string, Ruido>): real {
    Suma(TerminosDe(m), ruidos)
  }

  /** What one wall entry contributes to space `id`. */
  function AporteArista(id: string, materiales: Dict<string, Material>, ruidos: Dict<string, Ruido>,
                        e: (Arista, string)): real
  {
    if !Toca(e.0, id) then 0.0
    else match Get(materiales, e.1)
      case None => 0.0
      case Some(m) => AporteFuentes(m, ruidos)
  }

  /** The contribution of each wall entry to space `id`. */
  function AportesA(id: string, materiales: Dict<string, Material>, ruidos: Dict<string, Ruido>)
    : ((Arista, string)) -> real
  {
    (e: (Arista, string)) => AporteArista(id, materiales, ruidos, e)
  }

  /** The total noise at space `id`: the contributions of the wall entries, in order. */
  function RuidoTotal(id: string, materiales: Dict<string, Material>, ruidos: Dict<string, Ruido>,
                      aristas: Dict<Arista, string>): real
  {
    Suma(AportesA(id, materiales, ruidos), aristas)
  }

  /** A space: an identifier and a position that only rendering uses. */
  datatype Espacio = Espacio(idEspacio: string, x: int, y: int, z: int) {

    /** `Espacio.calcular_ruido(materiales, ruidos, aristas)`. */
    method CalcularRuido(materiales: Dict<string, Material>, ruidos: Dict<string, Ruido>,
                         aristas: Dict<Arista, string>) returns (ruidoTotal: real)
      ensures ruidoTotal == RuidoTotal(idEspacio, materiales, ruidos, aristas)
    {
      ruidoTotal := 0.0;
      for i := 0 to |aristas|
        invariant ruidoTotal == RuidoTotal(idEspacio, materiales, ruidos, aristas[..i])
      {
        ghost var antes := ruidoTotal;
        var (arista, materialId) := aristas[i];
        if Toca(arista, idEspacio) {
          var material := Get(materiales, materialId);
          if material.Some? {
            for j := 0 to |ruidos|
              invariant ruidoTotal == antes + AporteFuentes(material.value, ruidos[..j])
            {
              var ruido := ruidos[j].1;
              var absorcion := GetOr(material.value.resistencias, BandKey(ruido.frecuencia), 0.0);
              var aporte := Atenuado(ruido.intensidad, absorcion) * 2.0;
              assert aporte == Termino(material.value, ruido);
              ruidoTotal := ruidoTotal + aporte;
              assert ruidos[..j + 1][..j] == ruidos[..j] && ruidos[..j + 1][j] == ruidos[j];
            }
            assert ruidos[..|ruidos|] == ruidos;
          }
        }
        assert ruidoTotal == antes + AporteArista(idEspacio, materiales, ruidos, aristas[i]);
        assert aristas[..i + 1][..i] == aristas[..i] && aristas[..i + 1][i] == aristas[i];
      }
      assert aristas[..|aristas|] == aristas;
    }
  }

  // ---- Properties of the evaluator -------------------------------------------------

  /** A space that no wall key mentions gets total noise 0. */
  lemma {:induction false} RuidoSinParedes(id: string, materiales: Dict<string, Material>,
                                           ruidos: Dict<string, Ruido>, aristas: Dict<Arista, string>)
    requires forall i :: 0 <= i < |aristas| ==> !Toca(aristas[i].0, id)
    ensures RuidoTotal(id, materiales, ruidos, aristas) == 0.0
  {
    if aristas != [] {
      RuidoSinParedes(id, materiales, ruidos, aristas[..|aristas| - 1]);
    }
  }

  /** The wall entries whose key contains `id`, in their order: every touching entry is
      kept, no other entry is, a dict of touching entries is kept whole and one without
      any is dropped whole. `IncidentesConcat` states that the order is kept. */
  function Incidentes(aristas: Dict<Arista, string>, id: string): (r: Dict<Arista, string>)
    ensures forall i :: 0 <= i < |r| ==> Toca(r[i].0, id)
    ensures forall e :: e in aristas && Toca(e.0, id) ==> e in r
    ensures multiset(r) <= multiset(aristas)
    ensures (forall i :: 0 <= i < |aristas| ==> Toca(aristas[i].0, id)) ==> r == aristas
    ensures (forall i :: 0 <= i < |aristas| ==> !Toca(aristas[i].0, id)) ==> r == []
  {
    if aristas == [] then []
    else
      var init := aristas[..|aristas| - 1];
      var e := aristas[|aristas| - 1];
      assert aristas == init + [e];
      if Toca(e.0, id) then Incidentes(init, id) + [e] else Incidentes(init, id)
  }

  /** Filtering a concatenation filters each part and keeps them in order. */
  lemma {:induction false} IncidentesConcat(a: Dict<Arista, string>, b: Dict<Arista, string>, id: string)
    ensures Incidentes(a + b, id) == Incidentes(a, id) + Incidentes(b, id)
  {
    if b == [] {
      assert a + b == a;
    } else {
      var init, e := b[..|b| - 1], b[|b| - 1];
      assert b == init + [e];
      assert a + b == (a + init) + [e];
      IncidentesConcat(a, init, id);
    }
  }

  lemma {:induction false} RuidoDeIncidentes(id: string, materiales: Dict<string, Material>,
                                             ruidos: Dict<string, Ruido>, aristas: Dict<Arista, string>)
    ensures RuidoTotal(id, materiales, ruidos, aristas)
         == RuidoTotal(id, materiales, ruidos, Incidentes(aristas, id))
  {
    if aristas != [] {
      var init := aristas[..|aristas| - 1];
      var e := aristas[|aristas| - 1];
      RuidoDeIncidentes(id, materiales, ruidos, init);
      if Toca(e.0, id) {
        var inc := Incidentes(init, id);
        assert (inc + [e])[..|inc + [e]| - 1] == inc;
      }
    }
  }

  /** Only walls that touch the space count: two wall maps with the same entries
      touching `id`, in the same order, give the same total, whatever they hold
      between other spaces. */
  lemma SoloCuentanIncidentes(id: string, materiales: Dict<string, Material>,
                              ruidos: Dict<string, Ruido>, a: Dict<Arista, string>, b: Dict<Arista, string>)
    requires Incidentes(a, id) == Incidentes(b, id)
    ensures RuidoTotal(id, materiales, ruidos, a) == RuidoTotal(id, materiales, ruidos, b)
  {
    RuidoDeIncidentes(id, materiales, ruidos, a);
    RuidoDeIncidentes(id, materiales, ruidos, b);
  }

  /** A wall whose material is not registered contributes nothing, wherever it
      stands in the wall map. */
  lemma MaterialAusente(id: string, materiales: Dict<string, Material>, ruidos: Dict<string, Ruido>,
                        aristas: Dict<Arista, string>, k: nat, e: (Arista, string))
    requires k <= |aristas|
    requires Get(materiales, e.1).None?
    ensures RuidoTotal(id, materiales, ruidos, aristas[..k] + [e] + aristas[k..])
         == RuidoTotal(id, materiales, ruidos, aristas)
  {
    SumaInsertar(AportesA(id, materiales, ruidos), aristas, k, e);
  }

  /** Every registered material has the table shape the constructor builds. */
  ghost predicate TablasDeDosBandas(materiales: Dict<string, Material>) {
    forall i :: 0 <= i < |materiales| ==> DeDosBandas(materiales[i].1)
  }

  /** A source whose frequency is neither 500 nor 2000 Hz contributes nothing,
      wherever it stands among the sources, when the materials are as built. */
  lemma FrecuenciaSinBanda(id: string, materiales: Dict<string, Material>, ruidos: Dict<string, Ruido>,
                           aristas: Dict<Arista, string>, k: nat, r: (string, Ruido))
    requires TablasDeDosBandas(materiales)
    requires k <= |ruidos|
    requires r.1.frecuencia != 500 && r.1.frecuencia != 2000
    ensures RuidoTotal(id, materiales, ruidos[..k] + [r] + ruidos[k..], aristas)
         == RuidoTotal(id, materiales, ruidos, aristas)
  {
    var con := ruidos[..k] + [r] + ruidos[k..];
    forall i | 0 <= i < |materiales|
      ensures AporteFuentes(materiales[i].1, con) == AporteFuentes(materiales[i].1, ruidos)
    {
      AporteFuentesSinBanda(materiales[i].1, ruidos, k, r);
    }
    MismasFuentes(id, materiales, con, ruidos, aristas);
  }

  lemma AporteFuentesSinBanda(m: Material, ruidos: Dict<string, Ruido>, k: nat, r: (string, Ruido))
    requires DeDosBandas(m)
    requires k <= |ruidos|
    requires r.1.frecuencia != 500 && r.1.frecuencia != 2000
    ensures AporteFuentes(m, ruidos[..k] + [r] + ruidos[k..]) == AporteFuentes(m, ruidos)
  {
    TerminoSinBanda(m, r.1);
    SumaInsertar(TerminosDe(m), ruidos, k, r);
  }

  lemma TerminoSinBanda(m: Material, r: Ruido)
    requires DeDosBandas(m)
    requires r.frecuencia != 500 && r.frecuencia != 2000
    ensures Termino(m, r) == 0.0
  {
    AbsorcionPorFrecuencia(m, r.frecuencia);
    assert AbsorcionO0(m, r.frecuencia) == 0.0;
  }

  /** Totals agree when every registered material lets through the same from both
      source lists. */
  lemma MismasFuentes(id: string, materiales: Dict<string, Material>,
                      r1: Dict<string, Ruido>, r2: Dict<string, Ruido>,
                      aristas: Dict<Arista, string>)
    requires forall i :: 0 <= i < |materiales| ==>
      AporteFuentes(materiales[i].1, r1) == AporteFuentes(materiales[i].1, r2)
    ensures RuidoTotal(id, materiales, r1, aristas) == RuidoTotal(id, materiales, r2, aristas)
  {
    forall j | 0 <= j < |aristas|
      ensures AporteArista(id, materiales, r1, aristas[j]) == AporteArista(id, materiales, r2, aristas[j])
    {
      var e := aristas[j];
      if Get(materiales, e.1).Some? {
        GetSomeIn(materiales, e.1);
      }
    }
    SumaImagenes(AportesA(id, materiales, r1), AportesA(id, materiales, r2), aristas, aristas);
  }

  /** The total does not depend on the order of the walls nor of the sources. */
  lemma RuidoIndependienteDelOrden(id: string, materiales: Dict<string, Material>,
                                   r1: Dict<string, Ruido>, r2: Dict<string, Ruido>,
                                   a1: Dict<Arista, string>, a2: Dict<Arista, string>)
    requires multiset(r1) == multiset(r2) && multiset(a1) == multiset(a2)
    ensures RuidoTotal(id, materiales, r1, a1) == RuidoTotal(id, materiales, r2, a2)
  {
    forall i | 0 <= i < |materiales|
      ensures AporteFuentes(materiales[i].1, r1) == AporteFuentes(materiales[i].1, r2)
    {
      SumaPermutacion(TerminosDe(materiales[i].1), r1, r2);
    }
    MismasFuentes(id, materiales, r1, r2, a1);
    SumaPermutacion(AportesA(id, materiales, r2), a1, a2);
  }

  /** Every intensity is non-negative. */
  ghost predicate IntensidadesNoNegativas(ruidos: Dict<string, Ruido>) {
    forall i :: 0 <= i < |ruidos| ==> ruidos[i].1.intensidad >= 0.0
  }

  /** Every coefficient in a material's table is non-negative. */
  ghost predicate TablaNoNegativa(m: Material) {
    forall j :: 0 <= j < |m.resistencias| ==> m.resistencias[j].1 >= 0.0
  }

  /** Every registered material has non-negative coefficients. */
  ghost predicate CoeficientesNoNegativos(materiales: Dict<string, Material>) {
    forall i :: 0 <= i < |materiales| ==> TablaNoNegativa(materiales[i].1)
  }

  lemma TerminoNoNegativo(m: Material, r: Ruido)
    requires r.intensidad >= 0.0
    requires TablaNoNegativa(m)
    ensures Termino(m, r) >= 0.0
  {
    var clave := BandKey(r.frecuencia);
    if Get(m.resistencias, clave).Some? {
      GetSomeIn(m.resistencias, clave);
    }
    var a := AbsorcionO0(m, r.frecuencia);
    assert a >= 0.0;
    AtenuadoNoNegativo(r.intensidad, a);
  }

  lemma AporteFuentesNoNegativo(m: Material, ruidos: Dict<string, Ruido>)
    requires IntensidadesNoNegativas(ruidos)
    requires TablaNoNegativa(m)
    ensures AporteFuentes(m, ruidos) >= 0.0
  {
    forall i | 0 <= i < |ruidos| ensures Termino(m, ruidos[i].1) >= 0.0 {
      TerminoNoNegativo(m, ruidos[i].1);
    }
    SumaNoNegativa(TerminosDe(m), ruidos);
  }

  /** Non-negative intensities and coefficients give a non-negative total. */
  lemma RuidoNoNegativo(id: string, materiales: Dict<string, Material>,
                        ruidos: Dict<string, Ruido>, aristas: Dict<Arista, string>)
    requires IntensidadesNoNegativas(ruidos) && CoeficientesNoNegativos(materiales)
    ensures RuidoTotal(id, materiales, ruidos, aristas) >= 0.0
  {
    forall j | 0 <= j < |aristas| ensures AporteArista(id, materiales, ruidos, aristas[j]) >= 0.0 {
      var e := aristas[j];
      var m := Get(materiales, e.1);
      if Toca(e.0, id) && m.Some? {
        GetSomeIn(materiales, e.1);
        AporteFuentesNoNegativo(m.value, ruidos);
      }
    }
    SumaNoNegativa(AportesA(id, materiales, ruidos), aristas);
  }
}
