/**
  The strict variant of the evaluator (Grafo.py): plain nested dicts instead of objects,
  the factor 2 of the canonical evaluator, and direct indexing, so that a missing
  material, band or threshold raises `KeyError` instead of being skipped.
 */
module Grafo {
  import opened Wrappers
  import opened Dicts
  import opened Ruidos
  import opened Materiales
  import opened Acumulados
  import Espacios

  type Arista = Espacios.Arista

  /** An absorption table, `{'500hz': ..., '2000hz': ...}`. */
  type Tabla = Dict<string, real>

  /** A source entry, `{'intensidad': ..., 'frecuencia': ...}`. */
  datatype DatosRuido = DatosRuido(intensidad: real, frecuencia: int)

  /** `KeyError(clave)`: the key an indexing expression did not find. */
  datatype ErrorClave = KeyError(clave: string)

  /** One step of the inner loop: `materiales[material][str(frecuencia) + 'hz']`, each
      index raising on a missing key, then `intensidad * absorcion * 2`. */
  function TerminoG(materiales: Dict<string, Tabla>, material: string, datos: DatosRuido)
    : Result<real, ErrorClave>
  {
    match Get(materiales, material)
    case None => Err(KeyError(material))
    case Some(tabla) =>
      match Get(tabla, BandKey(datos.frecuencia))
      case None => Err(KeyError(BandKey(datos.frecuencia)))
      case Some(absorcion) => Ok(Atenuado(datos.intensidad, absorcion) * 2.0)
  }

  function TerminosG(materiales: Dict<string, Tabla>, material: string)
    : ((string, DatosRuido)) -> Result<real, ErrorClave>
  {
    (e: (string, DatosRuido)) => TerminoG(materiales, material, e.1)
  }

  /** What one wall entry adds to `espacio`; the material is only looked up once per source. */
  function AporteG(espacio: string, materiales: Dict<string, Tabla>, ruidos: Dict<string, DatosRuido>,
                   e: (Arista, string)): Result<real, ErrorClave>
  {
    if !Espacios.Toca(e.0, espacio) then Ok(0.0) else SumaR(TerminosG(materiales, e.1), ruidos)
  }

  function AportesG(espacio: string, materiales: Dict<string, Tabla>, ruidos: Dict<string, DatosRuido>)
    : ((Arista, string)) -> Result<real, ErrorClave>
  {
    (e: (Arista, string)) => AporteG(espacio, materiales, ruidos, e)
  }

  /** The accumulated `ruido_total`, or the first `KeyError` of the loops. */
  function TotalG(espacio: string, aristas: Dict<Arista, string>, materiales: Dict<string, Tabla>,
                  ruidos: Dict<string, DatosRuido>): Result<real, ErrorClave>
  {
    SumaR(AportesG(espacio, materiales, ruidos), aristas)
  }

  /** `calcular_ruido_espacio`: the loops first, then `umbrales[espacio]`. */
  function VeredictoG(espacio: string, aristas: Dict<Arista, string>, materiales: Dict<string, Tabla>,
                      ruidos: Dict<string, DatosRuido>, umbrales: Dict<string, real>): Result<bool, ErrorClave>
  {
    match TotalG(espacio, aristas, materiales, ruidos)
    case Err(e) => Err(e)
    case Ok(total) =>
      match Get(umbrales, espacio)
      case None => Err(KeyError(espacio))
      case Some(umbral) => Ok(total <= umbral)
  }

  /** The inner loop of `calcular_ruido_espacio` over the sources, for one wall of `material`:
      what the wall adds to `ruido_total`, or the first `KeyError`. */
  method SumarFuentes(materiales: Dict<string, Tabla>, material: string, ruidos: Dict<string, DatosRuido>)
    returns (r: Result<real, ErrorClave>)
    ensures r == SumaR(TerminosG(materiales, material), ruidos)
  {
    var aporte := 0.0;
    for j := 0 to |ruidos|
      invariant SumaR(TerminosG(materiales, material), ruidos[..j]) == Ok(aporte)
    {
      var datos := ruidos[j].1;
      var frecuencia := datos.frecuencia;
      var intensidad := datos.intensidad;
      var tabla := Get(materiales, material);
      if tabla.None? {
        SumaRCorta(TerminosG(materiales, material), ruidos, j);
        return Err(KeyError(material));
      }
      var absorcion := Get(tabla.value, BandKey(frecuencia));
      if absorcion.None? {
        SumaRCorta(TerminosG(materiales, material), ruidos, j);
        return Err(KeyError(BandKey(frecuencia)));
      }
      SumaRPaso(TerminosG(materiales, material), ruidos, j, aporte);
      aporte := aporte + Atenuado(intensidad, absorcion.value) * 2.0;
    }
    assert ruidos[..|ruidos|] == ruidos;
    return Ok(aporte);
  }

  /** `calcular_ruido_espacio(espacio, aristas, materiales, ruidos, umbrales)`. It only reads
      its arguments. */
  method CalcularRuidoEspacio(espacio: string, aristas: Dict<Arista, string>, materiales: Dict<string, Tabla>,
                              ruidos: Dict<string, DatosRuido>, umbrales: Dict<string, real>)
    returns (r: Result<bool, ErrorClave>)
    ensures r == VeredictoG(espacio, aristas, materiales, ruidos, umbrales)
  {
    var ruidoTotal := 0.0;
    for i := 0 to |aristas|
      invariant TotalG(espacio, aristas[..i], materiales, ruidos) == Ok(ruidoTotal)
    {
      var arista, material := aristas[i].0, aristas[i].1;
      ghost var antes := ruidoTotal;
      if Espacios.Toca(arista, espacio) {
        var aporte := SumarFuentes(materiales, material, ruidos);
        assert AportesG(espacio, materiales, ruidos)(aristas[i]) == aporte;
        if aporte.Err? {
          SumaRCorta(AportesG(espacio, materiales, ruidos), aristas, i);
          return Err(aporte.error);
        }
        ruidoTotal := ruidoTotal + aporte.value;
      } else {
        assert AportesG(espacio, materiales, ruidos)(aristas[i]) == Ok(0.0);
      }
      SumaRPaso(AportesG(espacio, materiales, ruidos), aristas, i, antes);
    }
    assert aristas[..|aristas|] == aristas;
    var umbral := Get(umbrales, espacio);
    if umbral.None? {
      return Err(KeyError(espacio));
    }
    return Ok(ruidoTotal <= umbral.value);
  }

  // ---- Properties -----------------------------------------------------------------

  /** Nothing the loops index is missing: every wall touching `espacio` has a registered
      material whose table holds the band of every source. */
  ghost predicate SinFaltantesG(espacio: string, aristas: Dict<Arista, string>, materiales: Dict<string, Tabla>,
                                ruidos: Dict<string, DatosRuido>)
  {
    forall j, k :: 0 <= j < |aristas| && Espacios.Toca(aristas[j].0, espacio) && 0 <= k < |ruidos| ==>
      && Get(materiales, aristas[j].1).Some?
      && BandKey(ruidos[k].1.frecuencia) in Keys(Get(materiales, aristas[j].1).value)
  }

  /** The loops raise nothing exactly when nothing they index is missing. */
  lemma TotalSinError(espacio: string, aristas: Dict<Arista, string>, materiales: Dict<string, Tabla>,
                      ruidos: Dict<string, DatosRuido>)
    ensures TotalG(espacio, aristas, materiales, ruidos).Ok? <==> SinFaltantesG(espacio, aristas, materiales, ruidos)
  {
    SumaROk(AportesG(espacio, materiales, ruidos), aristas);
    forall j | 0 <= j < |aristas| && Espacios.Toca(aristas[j].0, espacio) {
      SumaROk(TerminosG(materiales, aristas[j].1), ruidos);
    }
  }

  /** The whole evaluation raises nothing exactly when nothing is missing and the space has
      a threshold: there is no `+inf` default here. */
  lemma VeredictoSinError(espacio: string, aristas: Dict<Arista, string>, materiales: Dict<string, Tabla>,
                          ruidos: Dict<string, DatosRuido>, umbrales: Dict<string, real>)
    ensures VeredictoG(espacio, aristas, materiales, ruidos, umbrales).Ok?
        <==> SinFaltantesG(espacio, aristas, materiales, ruidos) && espacio in Keys(umbrales)
  {
    TotalSinError(espacio, aristas, materiales, ruidos);
  }

  /** A space without a threshold raises `KeyError(espacio)` once the loops are through. */
  lemma SinUmbral(espacio: string, aristas: Dict<Arista, string>, materiales: Dict<string, Tabla>,
                  ruidos: Dict<string, DatosRuido>, umbrales: Dict<string, real>)
    requires TotalG(espacio, aristas, materiales, ruidos).Ok?
    requires espacio !in Keys(umbrales)
    ensures VeredictoG(espacio, aristas, materiales, ruidos, umbrales) == Err(KeyError(espacio))
  {
  }

  /** A missing material raises `KeyError` with the material's identifier as soon as its wall
      is reached, provided there is a source to look it up for. */
  lemma MaterialFaltanteG(espacio: string, aristas: Dict<Arista, string>, materiales: Dict<string, Tabla>,
                          ruidos: Dict<string, DatosRuido>, umbrales: Dict<string, real>, i: nat)
    requires i < |aristas| && Espacios.Toca(aristas[i].0, espacio)
    requires TotalG(espacio, aristas[..i], materiales, ruidos).Ok?
    requires ruidos != [] && aristas[i].1 !in Keys(materiales)
    ensures VeredictoG(espacio, aristas, materiales, ruidos, umbrales) == Err(KeyError(aristas[i].1))
  {
    assert ruidos[..0] == [];
    SumaRCorta(TerminosG(materiales, aristas[i].1), ruidos, 0);
    SumaRCorta(AportesG(espacio, materiales, ruidos), aristas, i);
  }

  /** A band missing from a registered material raises `KeyError` with the band key, at the
      first source of that frequency. */
  lemma BandaFaltanteG(espacio: string, aristas: Dict<Arista, string>, materiales: Dict<string, Tabla>,
                       ruidos: Dict<string, DatosRuido>, umbrales: Dict<string, real>, i: nat, k: nat)
    requires i < |aristas| && Espacios.Toca(aristas[i].0, espacio)
    requires TotalG(espacio, aristas[..i], materiales, ruidos).Ok?
    requires Get(materiales, aristas[i].1).Some? && k < |ruidos|
    requires forall j :: 0 <= j < k ==> BandKey(ruidos[j].1.frecuencia) in Keys(Get(materiales, aristas[i].1).value)
    requires BandKey(ruidos[k].1.frecuencia) !in Keys(Get(materiales, aristas[i].1).value)
    ensures VeredictoG(espacio, aristas, materiales, ruidos, umbrales)
         == Err(KeyError(BandKey(ruidos[k].1.frecuencia)))
  {
    var f := TerminosG(materiales, aristas[i].1);
    assert forall j :: 0 <= j < k ==> ruidos[..k][j] == ruidos[j];
    SumaROk(f, ruidos[..k]);
    SumaRCorta(f, ruidos, k);
    SumaRCorta(AportesG(espacio, materiales, ruidos), aristas, i);
  }

  /** With no source at all, nothing is ever indexed in `materiales`, and the total is 0. */
  lemma {:induction false} SinFuentesG(espacio: string, aristas: Dict<Arista, string>, materiales: Dict<string, Tabla>)
    ensures TotalG(espacio, aristas, materiales, []) == Ok(0.0)
  {
    if aristas != [] {
      SinFuentesG(espacio, aristas[..|aristas| - 1], materiales);
    }
  }

  // ---- Agreement with the canonical evaluator -----------------------------------------

  /** The nested-dict materials as `Material` objects, each under its own identifier. */
  function ComoMateriales(materiales: Dict<string, Tabla>): Dict<string, Material> {
    MapValues(materiales, (k: string, t: Tabla) => Material(k, t))
  }

  /** The source entries as `Ruido` objects, each under its own identifier. */
  function ComoRuidos(ruidos: Dict<string, DatosRuido>): Dict<string, Ruido> {
    MapValues(ruidos, (k: string, d: DatosRuido) => Ruido(k, d.frecuencia, d.intensidad))
  }

  lemma TerminoCanonico(materiales: Dict<string, Tabla>, material: string, e: (string, DatosRuido))
    requires TerminoG(materiales, material, e.1).Ok?
    ensures Get(ComoMateriales(materiales), material) == Some(Material(material, Get(materiales, material).value))
    ensures TerminoG(materiales, material, e.1).value
         == Espacios.Termino(Material(material, Get(materiales, material).value), Ruido(e.0, e.1.frecuencia, e.1.intensidad))
  {
    GetMapValues(materiales, (k: string, t: Tabla) => Material(k, t), material);
  }

  /** A wall entry that raises nothing adds what the canonical evaluator adds. */
  lemma AporteCanonico(espacio: string, materiales: Dict<string, Tabla>, ruidos: Dict<string, DatosRuido>,
                       e: (Arista, string))
    requires AporteG(espacio, materiales, ruidos, e).Ok?
    ensures AporteG(espacio, materiales, ruidos, e).value
         == Espacios.AporteArista(espacio, ComoMateriales(materiales), ComoRuidos(ruidos), e)
  {
    if Espacios.Toca(e.0, espacio) && ruidos != [] {
      var f := TerminosG(materiales, e.1);
      SumaROk(f, ruidos);
      TerminoCanonico(materiales, e.1, ruidos[0]);
      var m := Material(e.1, Get(materiales, e.1).value);
      var g := (x: (string, DatosRuido)) => Espacios.Termino(m, Ruido(x.0, x.1.frecuencia, x.1.intensidad));
      forall i | 0 <= i < |ruidos| ensures f(ruidos[i]) == Ok(g(ruidos[i])) {
        TerminoCanonico(materiales, e.1, ruidos[i]);
      }
      SumaRValor(f, g, ruidos);
      SumaImagenes(Espacios.TerminosDe(m), g, ruidos, ComoRuidos(ruidos));
    }
  }

  /** When the loops raise nothing, they compute the canonical total on the same data. */
  lemma TotalCanonico(espacio: string, aristas: Dict<Arista, string>, materiales: Dict<string, Tabla>,
                      ruidos: Dict<string, DatosRuido>)
    requires TotalG(espacio, aristas, materiales, ruidos).Ok?
    ensures TotalG(espacio, aristas, materiales, ruidos).value
         == Espacios.RuidoTotal(espacio, ComoMateriales(materiales), ComoRuidos(ruidos), aristas)
  {
    var f := AportesG(espacio, materiales, ruidos);
    var g := Espacios.AportesA(espacio, ComoMateriales(materiales), ComoRuidos(ruidos));
    SumaROk(f, aristas);
    forall i | 0 <= i < |aristas| ensures f(aristas[i]) == Ok(g(aristas[i])) {
      AporteCanonico(espacio, materiales, ruidos, aristas[i]);
    }
    SumaRValor(f, g, aristas);
  }

  /** When the evaluation raises nothing, its verdict is the canonical one: twice the sum of
      intensity * absorption over the incident walls and the sources, against the threshold. */
  lemma VeredictoCanonico(espacio: string, aristas: Dict<Arista, string>, materiales: Dict<string, Tabla>,
                          ruidos: Dict<string, DatosRuido>, umbrales: Dict<string, real>)
    requires VeredictoG(espacio, aristas, materiales, ruidos, umbrales).Ok?
    ensures VeredictoG(espacio, aristas, materiales, ruidos, umbrales).value
        <==> Espacios.RuidoTotal(espacio, ComoMateriales(materiales), ComoRuidos(ruidos), aristas)
             <= Get(umbrales, espacio).value
  {
    TotalCanonico(espacio, aristas, materiales, ruidos);
  }

  /** A space that no wall touches totals 0, and is habitable whenever its threshold is not negative. */
  lemma SinParedesG(espacio: string, aristas: Dict<Arista, string>, materiales: Dict<string, Tabla>,
                    ruidos: Dict<string, DatosRuido>, umbrales: Dict<string, real>)
    requires forall j :: 0 <= j < |aristas| ==> !Espacios.Toca(aristas[j].0, espacio)
    ensures TotalG(espacio, aristas, materiales, ruidos) == Ok(0.0)
    ensures Get(umbrales, espacio).Some? && Get(umbrales, espacio).value >= 0.0
            ==> VeredictoG(espacio, aristas, materiales, ruidos, umbrales) == Ok(true)
  {
    SumaROk(AportesG(espacio, materiales, ruidos), aristas);
    TotalCanonico(espacio, aristas, materiales, ruidos);
    Espacios.RuidoSinParedes(espacio, ComoMateriales(materiales), ComoRuidos(ruidos), aristas);
  }
}
