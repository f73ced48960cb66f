/**
  The module-level data of Grafo.py (Grafo.py:6-45) and the verdicts the strict
  evaluator gives on it: the factor 2 puts S and E over their thresholds.
 */
module GrafoDatos {
  import opened Wrappers
  import opened Dicts
  import opened Ruidos
  import opened Materiales
  import opened Grafo
  import ProyectoMain
  import Proyecto
  import Espacios

  const MaterialesG: Dict<string, Tabla> :=
    [("Ladrillo", [("500hz", 0.02), ("2000hz", 0.04)]),
     ("Loseta", [("500hz", 0.06), ("2000hz", 0.04)]),
     ("Espuma", [("500hz", 0.55), ("2000hz", 0.65)])]

  const AristasG: Dict<Arista, string> :=
    [(("H2", "H3"), "Ladrillo"), (("H1", "S"), "Loseta"), (("H1", "H5"), "Ladrillo"),
     (("S", "H4"), "Ladrillo"), (("S", "E"), "Ladrillo"), (("H4", "E"), "Loseta"),
     (("H5", "E"), "Loseta"), (("H3", "E"), "Loseta")]

  const RuidosG: Dict<string, DatosRuido> :=
    [("Avión", DatosRuido(90.0, 2000)), ("Vía", DatosRuido(70.0, 500)),
     ("Gimnasio", DatosRuido(65.0, 500))]

  const UmbralesG: Dict<string, real> :=
    [("H1", 70.0), ("H2", 40.0), ("H3", 40.0), ("H4", 65.0), ("H5", 50.0), ("S", 35.0), ("E", 50.0)]

  /** Read as objects, the data is that of `Main` in Proyecto.py. */
  lemma MismosDatos()
    ensures ComoMateriales(MaterialesG) == ProyectoMain.MaterialesMain
    ensures ComoRuidos(RuidosG) == ProyectoMain.RuidosMain
    ensures AristasG == ProyectoMain.AristasMain
    ensures UmbralesG == ProyectoMain.UmbralesMain
  {
  }

  /** Every wall is of a registered material whose table holds both bands. */
  lemma TablaDePared(j: nat)
    requires j < |AristasG|
    ensures Get(MaterialesG, AristasG[j].1).Some?
    ensures "500hz" in Keys(Get(MaterialesG, AristasG[j].1).value)
    ensures "2000hz" in Keys(Get(MaterialesG, AristasG[j].1).value)
  {
    var t: Tabla;
    if AristasG[j].1 == "Ladrillo" {
      GetFirst(MaterialesG, 0, "Ladrillo");
      t := MaterialesG[0].1;
    } else {
      GetFirst(MaterialesG, 1, "Loseta");
      t := MaterialesG[1].1;
    }
    GetFirst(t, 0, "500hz");
    GetFirst(t, 1, "2000hz");
  }

  /** Every source sounds at one of the two bands, so the strict loops find every key. */
  lemma NadaFalta(espacio: string)
    ensures SinFaltantesG(espacio, AristasG, MaterialesG, RuidosG)
  {
    forall j | 0 <= j < |AristasG|
      ensures Get(MaterialesG, AristasG[j].1).Some?
      ensures "500hz" in Keys(Get(MaterialesG, AristasG[j].1).value)
      ensures "2000hz" in Keys(Get(MaterialesG, AristasG[j].1).value)
    {
      TablaDePared(j);
    }
    forall k | 0 <= k < |RuidosG|
      ensures RuidosG[k].1.frecuencia == 500 || RuidosG[k].1.frecuencia == 2000
    {
      assert k == 0 || k == 1 || k == 2;
    }
    SinFaltantesPorBandas(espacio, AristasG, MaterialesG, RuidosG);
  }

  /** Tables holding both bands and sources at one of them leave nothing missing. */
  lemma SinFaltantesPorBandas(espacio: string, aristas: Dict<Arista, string>, materiales: Dict<string, Tabla>,
                              ruidos: Dict<string, DatosRuido>)
    requires forall j :: 0 <= j < |aristas| ==>
      && Get(materiales, aristas[j].1).Some?
      && "500hz" in Keys(Get(materiales, aristas[j].1).value)
      && "2000hz" in Keys(Get(materiales, aristas[j].1).value)
    requires forall k :: 0 <= k < |ruidos| ==> ruidos[k].1.frecuencia == 500 || ruidos[k].1.frecuencia == 2000
    ensures SinFaltantesG(espacio, aristas, materiales, ruidos)
  {
    BandKeyOf(500);
    BandKeyOf(2000);
  }

  /** Twice the totals of Proyecto.py: S 48.6, E 82.8, H2 12.6, and 36 for H1, H3, H4 and H5. */
  lemma TotalesG(espacio: string)
    ensures TotalG(espacio, AristasG, MaterialesG, RuidosG)
         == Ok(if espacio == "S" then 48.6
               else if espacio == "E" then 82.8
               else if espacio == "H2" then 12.6
               else if espacio == "H1" || espacio == "H3" || espacio == "H4" || espacio == "H5" then 36.0
               else 0.0)
  {
    NadaFalta(espacio);
    TotalSinError(espacio, AristasG, MaterialesG, RuidosG);
    TotalCanonico(espacio, AristasG, MaterialesG, RuidosG);
    MismosDatos();
    Proyecto.RuidoEsDoble(espacio, ProyectoMain.MaterialesMain, ProyectoMain.RuidosMain, ProyectoMain.AristasMain);
    ProyectoMain.TotalesMain(espacio);
  }

  /** The loop at the end of Grafo.py: S (48.6 > 35) and E (82.8 > 50) are not habitable,
      the other five spaces are, and no `KeyError` is raised. */
  lemma VeredictosG(espacio: string)
    requires espacio == "H1" || espacio == "H2" || espacio == "H3" || espacio == "H4"
          || espacio == "H5" || espacio == "S" || espacio == "E"
    ensures VeredictoG(espacio, AristasG, MaterialesG, RuidosG, UmbralesG) == Ok(espacio != "S" && espacio != "E")
  {
    TotalesG(espacio);
    MismosDatos();
    ProyectoMain.UmbralMain(espacio);
  }
}
