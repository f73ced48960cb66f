/**
  The data the `Main` class of Proyecto.py registers (Proyecto.py:93-132) and what the
  warn-and-skip evaluator makes of it.
 */
module ProyectoMain {
  import opened Wrappers
  import opened Dicts
  import opened Ruidos
  import opened Materiales
  import opened Acumulados
  import opened Proyecto

  const Ladrillo := NuevoMaterial("Ladrillo", 0.02, 0.04)
  const Loseta := NuevoMaterial("Loseta", 0.06, 0.04)
  const Espuma := NuevoMaterial("Espuma", 0.55, 0.65)

  const MaterialesMain: Dict<string, Material> :=
    [("Ladrillo", Ladrillo), ("Loseta", Loseta), ("Espuma", Espuma)]

  const EspaciosMain: Dict<string, Espacio> :=
    [("H1", Espacio("H1", 4, 2, 0, None, None)), ("H2", Espacio("H2", 4, 4, 0, None, None)),
     ("S", Espacio("S", 3, 3, 0, None, None)), ("H3", Espacio("H3", 4, 4, 4, None, None)),
     ("H4", Espacio("H4", 3, 2, 4, None, None)), ("H5", Espacio("H5", 4, 2, 4, None, None)),
     ("E", Espacio("E", 3, 3, 4, None, None))]

  const RuidosMain: Dict<string, Ruido> :=
    [("Avión", Ruido("Avión", 2000, 90.0)), ("Vía", Ruido("Vía", 500, 70.0)),
     ("Gimnasio", Ruido("Gimnasio", 500, 65.0))]

  const UmbralesMain: Dict<string, real> :=
    [("H1", 70.0), ("H2", 40.0), ("H3", 40.0), ("H4", 65.0), ("H5", 50.0), ("S", 35.0), ("E", 50.0)]

  const AristasMain: Dict<Arista, string> :=
    [(("H2", "H3"), "Ladrillo"), (("H1", "S"), "Loseta"), (("H1", "H5"), "Ladrillo"),
     (("S", "H4"), "Ladrillo"), (("S", "E"), "Ladrillo"), (("H4", "E"), "Loseta"),
     (("H5", "E"), "Loseta"), (("H3", "E"), "Loseta")]

  /** A brick wall lets through 90 * 0.04 + 70 * 0.02 + 65 * 0.02 = 6.3. */
  lemma ParedDeLadrillo()
    ensures FuentesSinFactor(Ladrillo, RuidosMain) == 6.3
  {
    AbsorcionDeNuevoMaterial("Ladrillo", 0.02, 0.04, 2000);
    AbsorcionDeNuevoMaterial("Ladrillo", 0.02, 0.04, 500);
    SumaDeTres(TerminosSinFactor(Ladrillo), RuidosMain);
  }

  /** A tile wall lets through 90 * 0.04 + 70 * 0.06 + 65 * 0.06 = 11.7. */
  lemma ParedDeLoseta()
    ensures FuentesSinFactor(Loseta, RuidosMain) == 11.7
  {
    AbsorcionDeNuevoMaterial("Loseta", 0.06, 0.04, 2000);
    AbsorcionDeNuevoMaterial("Loseta", 0.06, 0.04, 500);
    SumaDeTres(TerminosSinFactor(Loseta), RuidosMain);
  }

  /** Every wall of the fixture is of brick or of tile, both registered. */
  lemma MaterialDePared(i: nat)
    requires i < |AristasMain|
    ensures AristasMain[i].1 == "Ladrillo" || AristasMain[i].1 == "Loseta"
    ensures Get(MaterialesMain, AristasMain[i].1)
         == Some(if AristasMain[i].1 == "Ladrillo" then Ladrillo else Loseta)
  {
    if AristasMain[i].1 == "Ladrillo" {
      GetFirst(MaterialesMain, 0, "Ladrillo");
    } else {
      GetFirst(MaterialesMain, 1, "Loseta");
    }
  }

  /** What wall `i` of the fixture adds to space `id`: 6.3 through brick, 11.7 through tile,
      nothing when the wall does not touch the space. */
  lemma AporteDePared(id: string, i: nat)
    requires i < |AristasMain|
    ensures AporteSinFactor(id, MaterialesMain, RuidosMain, AristasMain[i])
         == if !Espacios.Toca(AristasMain[i].0, id) then 0.0
            else if AristasMain[i].1 == "Ladrillo" then 6.3 else 11.7
  {
    MaterialDePared(i);
    ParedDeLadrillo();
    ParedDeLoseta();
  }

  /** The totals of the seven spaces: S 11.7 + 6.3 + 6.3, E 6.3 + 3 * 11.7, H2 only the brick
      wall to H3, and H1, H3, H4 and H5 one brick and one tile wall each. */
  lemma TotalesMain(id: string)
    ensures TotalSinFactor(id, MaterialesMain, RuidosMain, AristasMain)
         == if id == "S" then 24.3
            else if id == "E" then 41.4
            else if id == "H2" then 6.3
            else if id == "H1" || id == "H3" || id == "H4" || id == "H5" then 18.0
            else 0.0
  {
    SumaDeOcho(AportesSinFactor(id, MaterialesMain, RuidosMain), AristasMain);
    AporteDePared(id, 0); AporteDePared(id, 1); AporteDePared(id, 2); AporteDePared(id, 3);
    AporteDePared(id, 4); AporteDePared(id, 5); AporteDePared(id, 6); AporteDePared(id, 7);
  }

  /** The three sources sound at 500 or 2000 Hz, which both wall materials answer. */
  lemma FuentesConBanda()
    ensures ConBanda(Ladrillo, RuidosMain) && ConBanda(Loseta, RuidosMain)
  {
    assert forall k :: 0 <= k < |RuidosMain| ==> RuidosMain[k].1.frecuencia == 500 || RuidosMain[k].1.frecuencia == 2000;
    ConBandaDeDosBandas(Ladrillo, RuidosMain);
    ConBandaDeDosBandas(Loseta, RuidosMain);
  }

  /** Both materials the walls use answer every source's frequency, so no space raises a warning. */
  lemma SinAvisosMain(id: string)
    ensures Avisos(id, MaterialesMain, RuidosMain, AristasMain) == []
  {
    FuentesConBanda();
    forall j | 0 <= j < |AristasMain|
      ensures Get(MaterialesMain, AristasMain[j].1).Some?
      ensures ConBanda(Get(MaterialesMain, AristasMain[j].1).value, RuidosMain)
    {
      MaterialDePared(j);
    }
    SinAvisos(id, MaterialesMain, RuidosMain, AristasMain);
  }

  /** The threshold registered for each of the seven spaces. */
  lemma UmbralMain(id: string)
    requires id == "H1" || id == "H2" || id == "H3" || id == "H4" || id == "H5" || id == "S" || id == "E"
    ensures Get(UmbralesMain, id)
         == Some(if id == "H1" then 70.0 else if id == "H4" then 65.0 else if id == "S" then 35.0
                 else if id == "H5" || id == "E" then 50.0 else 40.0)
  {
    if id == "H1" { GetFirst(UmbralesMain, 0, id); }
    else if id == "H2" { GetFirst(UmbralesMain, 1, id); }
    else if id == "H3" { GetFirst(UmbralesMain, 2, id); }
    else if id == "H4" { GetFirst(UmbralesMain, 3, id); }
    else if id == "H5" { GetFirst(UmbralesMain, 4, id); }
    else if id == "S" { GetFirst(UmbralesMain, 5, id); }
    else { GetFirst(UmbralesMain, 6, id); }
  }

  /** Each registered space's total is within its threshold: S 24.3 <= 35, E 41.4 <= 50,
      H2 6.3 <= 40, and 18 against 70, 40, 65 and 50 for H1, H3, H4 and H5. */
  lemma HabitableMain(id: string)
    requires id == "H1" || id == "H2" || id == "H3" || id == "H4" || id == "H5" || id == "S" || id == "E"
    ensures Habitable(id, MaterialesMain, RuidosMain, UmbralesMain, AristasMain)
  {
    TotalesMain(id);
    UmbralMain(id);
  }

  /** `Main` of Proyecto.py: every one of the seven spaces is habitable and nothing is
      reported missing. */
  lemma TodosHabitablesMain()
    ensures forall i :: 0 <= i < |EspaciosMain| ==>
      var id := EspaciosMain[i].1.idEspacio;
      Habitable(id, MaterialesMain, RuidosMain, UmbralesMain, AristasMain)
      && Avisos(id, MaterialesMain, RuidosMain, AristasMain) == []
  {
    forall i | 0 <= i < |EspaciosMain|
      ensures var id := EspaciosMain[i].1.idEspacio;
        Habitable(id, MaterialesMain, RuidosMain, UmbralesMain, AristasMain)
        && Avisos(id, MaterialesMain, RuidosMain, AristasMain) == []
    {
      var id := EspaciosMain[i].1.idEspacio;
      HabitableMain(id);
      SinAvisosMain(id);
    }
  }
}
