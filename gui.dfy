/**
  The Tk application of gui.py, without its widgets: the building it starts from,
  the "Ajustar" button that raises every threshold above the noise a space receives,
  the "Restablecer" button that brings the original thresholds back, and the
  "Generar Grafo" button that reads the noise entries, rebuilds the building's
  sources and reports the habitability of every space.
 */
module Gui {
  import opened Wrappers
  import opened Dicts
  import opened Ruidos
  import opened Materiales
  import opened Espacios
  import opened Edificios
  import Grafo
  import GrafoDatos
  import ProyectoMain
  import Proyecto

  type DatosRuido = Grafo.DatosRuido

  /** The exception `int(entry.get())` raises on a text that is not an integer. */
  datatype ErrorValor = ValueError

  /** The spaces `inicializar_edificio` registers, with their coordinates. */
  const EspaciosGui: Dict<string, Espacio> :=
    [("H1", Espacio("H1", 4, 2, 0)), ("H2", Espacio("H2", 4, 4, 0)), ("S", Espacio("S", 3, 3, 0)),
     ("H3", Espacio("H3", 4, 4, 4)), ("H4", Espacio("H4", 3, 2, 4)), ("H5", Espacio("H5", 4, 2, 4)),
     ("E", Espacio("E", 3, 3, 4))]

  /** The wall dict every button builds: the same eight walls as the `Main` class of Proyecto.py. */
  const AristasGui: Dict<Arista, string> := ProyectoMain.AristasMain

  /** Python's `max(a, b)`: `a` unless `b` is strictly greater. */
  function Max(a: real, b: real): (m: real)
    ensures m >= a && m >= b
    ensures m == a || m == b
  {
    if b > a then b else a
  }

  /** `max(ruido_total, 40) + 5`: a 5 dB margin over the noise, and never under 45. */
  function UmbralAjustado(ruido: real): (u: real)
    ensures u >= 45.0 && u >= ruido + 5.0
    ensures ruido >= 40.0 ==> u == ruido + 5.0
    ensures ruido <= 40.0 ==> u == 45.0
  {
    Max(ruido, 40.0) + 5.0
  }

  /** The thresholds after the adjusting loop has visited `ids`, in order: each visit
      writes the adjusted threshold of that space. */
  function Ajustar(umbrales: Dict<string, real>, ids: seq<string>, materiales: Dict<string, Material>,
                   ruidos: Dict<string, Ruido>, aristas: Dict<Arista, string>): Dict<string, real>
  {
    if ids == [] then umbrales
    else
      var id := ids[|ids| - 1];
      Put(Ajustar(umbrales, ids[..|ids| - 1], materiales, ruidos, aristas), id,
          UmbralAjustado(RuidoTotal(id, materiales, ruidos, aristas)))
  }

  /** One more visit of the loop. */
  lemma AjustarPaso(umbrales: Dict<string, real>, ids: seq<string>, materiales: Dict<string, Material>,
                    ruidos: Dict<string, Ruido>, aristas: Dict<Arista, string>, i: nat)
    requires i < |ids|
    ensures Ajustar(umbrales, ids[..i + 1], materiales, ruidos, aristas)
         == Put(Ajustar(umbrales, ids[..i], materiales, ruidos, aristas), ids[i],
                UmbralAjustado(RuidoTotal(ids[i], materiales, ruidos, aristas)))
  {
    assert ids[..i + 1][..i] == ids[..i];
  }

  /** One more visit, with the threshold it writes computed apart. */
  lemma AjustarPasoCon(umbrales: Dict<string, real>, ids: seq<string>, materiales: Dict<string, Material>,
                       ruidos: Dict<string, Ruido>, aristas: Dict<Arista, string>, i: nat, u: real)
    requires i < |ids|
    requires u == UmbralAjustado(RuidoTotal(ids[i], materiales, ruidos, aristas))
    ensures Ajustar(umbrales, ids[..i + 1], materiales, ruidos, aristas)
         == Put(Ajustar(umbrales, ids[..i], materiales, ruidos, aristas), ids[i], u)
  {
    AjustarPaso(umbrales, ids, materiales, ruidos, aristas, i);
  }

  /** After the loop, every visited space holds the adjusted threshold for the noise it
      receives, and every other key keeps its threshold. */
  lemma {:induction false} AjustarConsulta(umbrales: Dict<string, real>, ids: seq<string>,
                                           materiales: Dict<string, Material>, ruidos: Dict<string, Ruido>,
                                           aristas: Dict<Arista, string>, k: string)
    ensures Get(Ajustar(umbrales, ids, materiales, ruidos, aristas), k)
         == if k in ids then Some(UmbralAjustado(RuidoTotal(k, materiales, ruidos, aristas)))
            else Get(umbrales, k)
  {
    if ids != [] {
      var p := ids[..|ids| - 1];
      assert ids == p + [ids[|ids| - 1]];
      AjustarConsulta(umbrales, p, materiales, ruidos, aristas, k);
    }
  }

  /** After the loop, every visited space is habitable under a threshold of at least 45. */
  lemma AjustarHabitable(umbrales: Dict<string, real>, ids: seq<string>,
                         materiales: Dict<string, Material>, ruidos: Dict<string, Ruido>,
                         aristas: Dict<Arista, string>, k: string)
    requires k in ids
    ensures Get(Ajustar(umbrales, ids, materiales, ruidos, aristas), k).Some?
    ensures EsHabitable(RuidoTotal(k, materiales, ruidos, aristas), Get(Ajustar(umbrales, ids, materiales, ruidos, aristas), k))
    ensures Get(Ajustar(umbrales, ids, materiales, ruidos, aristas), k).value >= 45.0
  {
    AjustarConsulta(umbrales, ids, materiales, ruidos, aristas, k);
  }

  lemma {:induction false} AjustarDistinto(umbrales: Dict<string, real>, ids: seq<string>,
                                           materiales: Dict<string, Material>, ruidos: Dict<string, Ruido>,
                                           aristas: Dict<Arista, string>)
    requires DistinctKeys(umbrales)
    ensures DistinctKeys(Ajustar(umbrales, ids, materiales, ruidos, aristas))
  {
    if ids != [] {
      var id := ids[|ids| - 1];
      AjustarDistinto(umbrales, ids[..|ids| - 1], materiales, ruidos, aristas);
      PutKeepsDistinct(Ajustar(umbrales, ids[..|ids| - 1], materiales, ruidos, aristas), id,
                       UmbralAjustado(RuidoTotal(id, materiales, ruidos, aristas)));
    }
  }

  /** When every visited space already has a threshold, the keys and their order stay. */
  lemma {:induction false} AjustarClaves(umbrales: Dict<string, real>, ids: seq<string>,
                                         materiales: Dict<string, Material>, ruidos: Dict<string, Ruido>,
                                         aristas: Dict<Arista, string>)
    requires forall i :: 0 <= i < |ids| ==> ids[i] in Keys(umbrales)
    ensures Keys(Ajustar(umbrales, ids, materiales, ruidos, aristas)) == Keys(umbrales)
  {
    if ids != [] {
      var id := ids[|ids| - 1];
      var previo := Ajustar(umbrales, ids[..|ids| - 1], materiales, ruidos, aristas);
      AjustarClaves(umbrales, ids[..|ids| - 1], materiales, ruidos, aristas);
      PutKeys(previo, id, UmbralAjustado(RuidoTotal(id, materiales, ruidos, aristas)));
    }
  }

  /** Pressing "Ajustar" a second time changes nothing: the thresholds depend only on
      the noise, which adjusting does not touch. */
  lemma AjustarIdempotente(umbrales: Dict<string, real>, ids: seq<string>,
                           materiales: Dict<string, Material>, ruidos: Dict<string, Ruido>,
                           aristas: Dict<Arista, string>)
    requires DistinctKeys(umbrales)
    ensures Ajustar(Ajustar(umbrales, ids, materiales, ruidos, aristas), ids, materiales, ruidos, aristas)
         == Ajustar(umbrales, ids, materiales, ruidos, aristas)
  {
    var una := Ajustar(umbrales, ids, materiales, ruidos, aristas);
    var dos := Ajustar(una, ids, materiales, ruidos, aristas);
    AjustarDistinto(umbrales, ids, materiales, ruidos, aristas);
    AjustarDistinto(una, ids, materiales, ruidos, aristas);
    forall i | 0 <= i < |ids| ensures ids[i] in Keys(una) {
      AjustarConsulta(umbrales, ids, materiales, ruidos, aristas, ids[i]);
    }
    AjustarClaves(una, ids, materiales, ruidos, aristas);
    forall k ensures Get(dos, k) == Get(una, k) {
      AjustarConsulta(umbrales, ids, materiales, ruidos, aristas, k);
      AjustarConsulta(una, ids, materiales, ruidos, aristas, k);
    }
    SameLookupsSameDict(dos, una);
  }

  /** The order in which the spaces are visited does not matter, once every
      visited space has a threshold. */
  lemma AjustarSinOrden(umbrales: Dict<string, real>, ids1: seq<string>, ids2: seq<string>,
                        materiales: Dict<string, Material>, ruidos: Dict<string, Ruido>,
                        aristas: Dict<Arista, string>)
    requires DistinctKeys(umbrales)
    requires forall k :: k in ids1 <==> k in ids2
    requires forall i :: 0 <= i < |ids1| ==> ids1[i] in Keys(umbrales)
    ensures Ajustar(umbrales, ids1, materiales, ruidos, aristas) == Ajustar(umbrales, ids2, materiales, ruidos, aristas)
  {
    var a1 := Ajustar(umbrales, ids1, materiales, ruidos, aristas);
    var a2 := Ajustar(umbrales, ids2, materiales, ruidos, aristas);
    forall i | 0 <= i < |ids2| ensures ids2[i] in Keys(umbrales) {
      assert ids2[i] in ids1;
    }
    AjustarDistinto(umbrales, ids1, materiales, ruidos, aristas);
    AjustarDistinto(umbrales, ids2, materiales, ruidos, aristas);
    AjustarClaves(umbrales, ids1, materiales, ruidos, aristas);
    AjustarClaves(umbrales, ids2, materiales, ruidos, aristas);
    forall k ensures Get(a1, k) == Get(a2, k) {
      AjustarConsulta(umbrales, ids1, materiales, ruidos, aristas, k);
      AjustarConsulta(umbrales, ids2, materiales, ruidos, aristas, k);
    }
    SameLookupsSameDict(a1, a2);
  }

  /** Both integer entries of a source parse. */
  predicate Legible(lectura: (Option<int>, Option<int>)) {
    lectura.0.Some? && lectura.1.Some?
  }

  /** The first source whose entries do not both parse: there the loop raises `ValueError`. */
  function PrimeraFalla(lecturas: seq<(Option<int>, Option<int>)>): (r: Option<nat>)
    ensures r.None? <==> forall j :: 0 <= j < |lecturas| ==> Legible(lecturas[j])
    ensures r.Some? ==> r.value < |lecturas| && !Legible(lecturas[r.value])
    ensures r.Some? ==> forall j :: 0 <= j < r.value ==> Legible(lecturas[j])
  {
    if lecturas == [] then None
    else if !Legible(lecturas[0]) then Some(0)
    else match PrimeraFalla(lecturas[1..])
      case None => None
      case Some(j) => Some(j + 1)
  }

  /** A source after its two entries are written into its dict: frequency, intensity. */
  function Leida(entrada: (string, DatosRuido), lectura: (Option<int>, Option<int>)): (string, DatosRuido)
    requires Legible(lectura)
  {
    (entrada.0, entrada.1.(frecuencia := lectura.0.value).(intensidad := lectura.1.value as real))
  }

  /** The sources after the first `n` entries are read: those have the values typed in,
      the others keep theirs, and no source is added, dropped or moved. */
  function Leidos(ruidos: Dict<string, DatosRuido>, lecturas: seq<(Option<int>, Option<int>)>, n: nat)
    : (r: Dict<string, DatosRuido>)
    requires n <= |ruidos| && n <= |lecturas|
    requires forall j :: 0 <= j < n ==> Legible(lecturas[j])
    ensures Keys(r) == Keys(ruidos)
    ensures forall i :: 0 <= i < |ruidos| ==>
      r[i] == if i < n then Leida(ruidos[i], lecturas[i]) else ruidos[i]
  {
    if n == 0 then ruidos
    else Leidos(ruidos, lecturas, n - 1)[n - 1 := Leida(ruidos[n - 1], lecturas[n - 1])]
  }

  /** What the read sources hold: a source already read keeps its name and holds the
      typed frequency and intensity; a source not yet read is untouched. */
  lemma LeidosCampos(ruidos: Dict<string, DatosRuido>, lecturas: seq<(Option<int>, Option<int>)>, n: nat, i: nat)
    requires n <= |ruidos| && n <= |lecturas| && i < |ruidos|
    requires forall j :: 0 <= j < n ==> Legible(lecturas[j])
    ensures var r := Leidos(ruidos, lecturas, n);
            if i < n then
              && r[i].0 == ruidos[i].0
              && lecturas[i] == (Some(r[i].1.frecuencia), lecturas[i].1)
              && lecturas[i].1.Some? && r[i].1.intensidad == lecturas[i].1.value as real
            else r[i] == ruidos[i]
  {
  }

  /** Reading one more source writes its two fields in place. */
  lemma LecturaPaso(ruidos: Dict<string, DatosRuido>, lecturas: seq<(Option<int>, Option<int>)>, i: nat)
    requires DistinctKeys(ruidos) && i < |ruidos| && i < |lecturas|
    requires forall j :: 0 <= j < i ==> Legible(lecturas[j])
    requires Legible(lecturas[i])
    ensures var previo := Leidos(ruidos, lecturas, i);
            var nombre := ruidos[i].0;
            var datos := ruidos[i].1.(frecuencia := lecturas[i].0.value);
            && DistinctKeys(previo) && Get(previo, nombre) == Some(ruidos[i].1)
            && Get(Put(previo, nombre, datos), nombre) == Some(datos)
            && Put(Put(previo, nombre, datos), nombre, datos.(intensidad := lecturas[i].1.value as real))
               == Leidos(ruidos, lecturas, i + 1)
  {
    var previo := Leidos(ruidos, lecturas, i);
    var nombre := ruidos[i].0;
    var datos := ruidos[i].1.(frecuencia := lecturas[i].0.value);
    LeidosDistintos(ruidos, lecturas, i);
    assert previo[i] == ruidos[i];
    GetAt(previo, i);
    PutAt(previo, i, datos);
    var medio := previo[i := (nombre, datos)];
    UpdateKeepsDistinct(previo, i, datos);
    assert medio[i].0 == nombre;
    PutAt(medio, i, datos.(intensidad := lecturas[i].1.value as real));
    assert medio[i := (nombre, datos.(intensidad := lecturas[i].1.value as real))]
        == previo[i := Leida(ruidos[i], lecturas[i])];
  }

  /** Reading the entries keeps one entry per source name. */
  lemma LeidosDistintos(ruidos: Dict<string, DatosRuido>, lecturas: seq<(Option<int>, Option<int>)>, n: nat)
    requires DistinctKeys(ruidos) && n <= |ruidos| && n <= |lecturas|
    requires forall j :: 0 <= j < n ==> Legible(lecturas[j])
    ensures DistinctKeys(Leidos(ruidos, lecturas, n))
  {
    var r := Leidos(ruidos, lecturas, n);
    forall a, b | 0 <= a < b < |r| ensures r[a].0 != r[b].0 {
      assert Keys(r)[a] == Keys(ruidos)[a] == ruidos[a].0;
      assert Keys(r)[b] == Keys(ruidos)[b] == ruidos[b].0;
    }
  }

  /** The building's sources rebuilt from the first `i` entries of `ruidos`: the next one is new. */
  lemma RegistroPaso(ruidos: Dict<string, DatosRuido>, i: nat)
    requires DistinctKeys(ruidos) && i < |ruidos|
    ensures Get(Grafo.ComoRuidos(ruidos[..i]), ruidos[i].0).None?
    ensures Grafo.ComoRuidos(ruidos[..i + 1])
         == Grafo.ComoRuidos(ruidos[..i]) + [(ruidos[i].0, Ruido(ruidos[i].0, ruidos[i].1.frecuencia, ruidos[i].1.intensidad))]
  {
    var antes := Grafo.ComoRuidos(ruidos[..i]);
    forall j | 0 <= j < |antes| ensures Keys(antes)[j] != ruidos[i].0 {
      assert antes[j].0 == ruidos[..i][j].0 == ruidos[j].0;
    }
    var a := Grafo.ComoRuidos(ruidos[..i + 1]);
    var b := antes + [(ruidos[i].0, Ruido(ruidos[i].0, ruidos[i].1.frecuencia, ruidos[i].1.intensidad))];
    forall j | 0 <= j < |a| ensures a[j] == b[j] {
      if j < i {
        assert ruidos[..i + 1][j] == ruidos[..i][j];
      }
    }
  }

  /** `for nombre, datos in ruidos.items(): edificio.agregar_ruido(Ruido(nombre, ...))`
      into an empty registry: the building's sources become `ruidos` as objects. */
  method RegistrarRuidos(edificio: Edificio, ruidos: Dict<string, DatosRuido>)
    requires edificio.Valid() && edificio.ruidos == [] && DistinctKeys(ruidos)
    modifies edificio
    ensures edificio.Valid()
    ensures edificio.ruidos == Grafo.ComoRuidos(ruidos)
    ensures edificio.nombre == old(edificio.nombre) && edificio.espacios == old(edificio.espacios)
    ensures edificio.materiales == old(edificio.materiales) && edificio.umbrales == old(edificio.umbrales)
  {
    for i := 0 to |ruidos|
      invariant edificio.Valid()
      invariant edificio.ruidos == Grafo.ComoRuidos(ruidos[..i])
      invariant edificio.nombre == old(edificio.nombre) && edificio.espacios == old(edificio.espacios)
      invariant edificio.materiales == old(edificio.materiales) && edificio.umbrales == old(edificio.umbrales)
    {
      var nombre := ruidos[i].0;
      var datos := ruidos[i].1;
      RegistroPaso(ruidos, i);
      PutNuevo(edificio.ruidos, nombre, Ruido(nombre, datos.frecuencia, datos.intensidad));
      edificio.AgregarRuido(Ruido(nombre, datos.frecuencia, datos.intensidad));
    }
    assert ruidos[..|ruidos|] == ruidos;
  }

  /** `inicializar_edificio`: the building with the three materials, the seven spaces,
      the three sources and the seven activity thresholds, and the source dict the
      entries are shown from. */
  method InicializarEdificio() returns (edificio: Edificio, ruidos: Dict<string, DatosRuido>)
    ensures fresh(edificio) && edificio.Valid()
    ensures edificio.nombre == "Mi Edificio"
    ensures edificio.materiales == ProyectoMain.MaterialesMain
    ensures edificio.espacios == EspaciosGui
    ensures edificio.ruidos == ProyectoMain.RuidosMain
    ensures edificio.umbrales == ProyectoMain.UmbralesMain
    ensures ruidos == GrafoDatos.RuidosG
  {
    edificio := new Edificio("Mi Edificio");
    AgregarMaterialesIniciales(edificio);
    AgregarEspaciosIniciales(edificio);
    ruidos := GrafoDatos.RuidosG;
    DatosDistintos();
    RegistrarRuidos(edificio, ruidos);
    GrafoDatos.MismosDatos();
    AgregarUmbralesIniciales(edificio);
  }

  /** The identifiers of every starting registry are distinct. */
  lemma DatosDistintos()
    ensures DistinctKeys(ProyectoMain.MaterialesMain)
    ensures DistinctKeys(EspaciosGui)
    ensures DistinctKeys(GrafoDatos.RuidosG)
    ensures DistinctKeys(ProyectoMain.UmbralesMain)
  {
    DistintosMateriales();
    DistintosEspacios();
    DistintosFuentes();
    DistintosUmbrales();
  }

  lemma DistintosMateriales()
    ensures DistinctKeys(ProyectoMain.MaterialesMain)
  {
  }

  lemma DistintosEspacios()
    ensures DistinctKeys(EspaciosGui)
  {
  }

  lemma DistintosFuentes()
    ensures DistinctKeys(GrafoDatos.RuidosG)
  {
  }

  lemma DistintosUmbrales()
    ensures DistinctKeys(ProyectoMain.UmbralesMain)
  {
  }

  /** Writing the next entry of a dict with distinct keys onto its prefix extends the prefix. */
  lemma PrefijoNuevo<V>(d: Dict<string, V>, i: nat)
    requires DistinctKeys(d) && i < |d|
    ensures Put(d[..i], d[i].0, d[i].1) == d[..i + 1]
  {
    GetPrefixNone(d, i);
    PutNuevo(d[..i], d[i].0, d[i].1);
    assert d[..i] + [(d[i].0, d[i].1)] == d[..i + 1];
  }

  /** One `agregar_material` call of the start-up sequence: the registry grows from the
      first `i` entries of `d` to the first `i + 1`. */
  method AgregarMaterialSiguiente(edificio: Edificio, ghost d: Dict<string, Material>, ghost i: nat,
                                  material: Material)
    requires edificio.Valid() && DistinctKeys(d) && i < |d| && d[i] == (material.idMaterial, material)
    requires edificio.materiales == d[..i]
    modifies edificio
    ensures edificio.Valid() && edificio.materiales == d[..i + 1]
    ensures edificio.nombre == old(edificio.nombre) && edificio.espacios == old(edificio.espacios)
    ensures edificio.ruidos == old(edificio.ruidos) && edificio.umbrales == old(edificio.umbrales)
  {
    PrefijoNuevo(d, i);
    edificio.AgregarMaterial(material);
  }

  /** One `agregar_espacio` call of the start-up sequence. */
  method AgregarEspacioSiguiente(edificio: Edificio, ghost d: Dict<string, Espacio>, ghost i: nat,
                                 espacio: Espacio)
    requires edificio.Valid() && DistinctKeys(d) && i < |d| && d[i] == (espacio.idEspacio, espacio)
    requires edificio.espacios == d[..i]
    modifies edificio
    ensures edificio.Valid() && edificio.espacios == d[..i + 1]
    ensures edificio.nombre == old(edificio.nombre) && edificio.materiales == old(edificio.materiales)
    ensures edificio.ruidos == old(edificio.ruidos) && edificio.umbrales == old(edificio.umbrales)
  {
    PrefijoNuevo(d, i);
    edificio.AgregarEspacio(espacio);
  }

  /** One `agregar_actividad` call of the start-up sequence. */
  method AgregarActividadSiguiente(edificio: Edificio, ghost d: Dict<string, real>, ghost i: nat,
                                   espacioId: string, actividad: string, umbral: real)
    requires edificio.Valid() && DistinctKeys(d) && i < |d| && d[i] == (espacioId, umbral)
    requires edificio.umbrales == d[..i]
    modifies edificio
    ensures edificio.Valid() && edificio.umbrales == d[..i + 1]
    ensures edificio.nombre == old(edificio.nombre) && edificio.espacios == old(edificio.espacios)
    ensures edificio.materiales == old(edificio.materiales) && edificio.ruidos == old(edificio.ruidos)
  {
    PrefijoNuevo(d, i);
    edificio.AgregarActividad(espacioId, actividad, umbral);
  }

  method AgregarMaterialesIniciales(edificio: Edificio)
    requires edificio.Valid() && edificio.materiales == []
    modifies edificio
    ensures edificio.Valid()
    ensures edificio.materiales == ProyectoMain.MaterialesMain
    ensures edificio.nombre == old(edificio.nombre) && edificio.espacios == old(edificio.espacios)
    ensures edificio.ruidos == old(edificio.ruidos) && edificio.umbrales == old(edificio.umbrales)
  {
    ghost var m := ProyectoMain.MaterialesMain;
    DistintosMateriales();
    assert m[..0] == [];
    AgregarMaterialSiguiente(edificio, m, 0, NuevoMaterial("Ladrillo", 0.02, 0.04));
    AgregarMaterialSiguiente(edificio, m, 1, NuevoMaterial("Loseta", 0.06, 0.04));
    AgregarMaterialSiguiente(edificio, m, 2, NuevoMaterial("Espuma", 0.55, 0.65));
    assert m[..3] == m;
  }

  /** The spaces of the ground floor (z = 0): H1, H2 and S. */
  method AgregarPlantaBaja(edificio: Edificio)
    requires edificio.Valid() && edificio.espacios == []
    modifies edificio
    ensures edificio.Valid()
    ensures edificio.espacios == EspaciosGui[..3]
    ensures edificio.nombre == old(edificio.nombre) && edificio.materiales == old(edificio.materiales)
    ensures edificio.ruidos == old(edificio.ruidos) && edificio.umbrales == old(edificio.umbrales)
  {
    ghost var e := EspaciosGui;
    DistintosEspacios();
    assert e[..0] == [];
    AgregarEspacioSiguiente(edificio, e, 0, Espacio("H1", 4, 2, 0));
    AgregarEspacioSiguiente(edificio, e, 1, Espacio("H2", 4, 4, 0));
    AgregarEspacioSiguiente(edificio, e, 2, Espacio("S", 3, 3, 0));
  }

  /** The spaces of the upper floor (z = 4): H3, H4, H5 and E. */
  method AgregarPlantaAlta(edificio: Edificio)
    requires edificio.Valid() && edificio.espacios == EspaciosGui[..3]
    modifies edificio
    ensures edificio.Valid()
    ensures edificio.espacios == EspaciosGui
    ensures edificio.nombre == old(edificio.nombre) && edificio.materiales == old(edificio.materiales)
    ensures edificio.ruidos == old(edificio.ruidos) && edificio.umbrales == old(edificio.umbrales)
  {
    ghost var e := EspaciosGui;
    DistintosEspacios();
    AgregarEspacioSiguiente(edificio, e, 3, Espacio("H3", 4, 4, 4));
    AgregarEspacioSiguiente(edificio, e, 4, Espacio("H4", 3, 2, 4));
    AgregarEspacioSiguiente(edificio, e, 5, Espacio("H5", 4, 2, 4));
    AgregarEspacioSiguiente(edificio, e, 6, Espacio("E", 3, 3, 4));
    assert e[..7] == e;
  }

  method AgregarEspaciosIniciales(edificio: Edificio)
    requires edificio.Valid() && edificio.espacios == []
    modifies edificio
    ensures edificio.Valid()
    ensures edificio.espacios == EspaciosGui
    ensures edificio.nombre == old(edificio.nombre) && edificio.materiales == old(edificio.materiales)
    ensures edificio.ruidos == old(edificio.ruidos) && edificio.umbrales == old(edificio.umbrales)
  {
    AgregarPlantaBaja(edificio);
    AgregarPlantaAlta(edificio);
  }

  /** The thresholds of the rooms H1 to H4. */
  method AgregarUmbralesHabitaciones(edificio: Edificio)
    requires edificio.Valid() && edificio.umbrales == []
    modifies edificio
    ensures edificio.Valid()
    ensures edificio.umbrales == ProyectoMain.UmbralesMain[..4]
    ensures edificio.nombre == old(edificio.nombre) && edificio.espacios == old(edificio.espacios)
    ensures edificio.materiales == old(edificio.materiales) && edificio.ruidos == old(edificio.ruidos)
  {
    ghost var u := ProyectoMain.UmbralesMain;
    DistintosUmbrales();
    assert u[..0] == [];
    AgregarActividadSiguiente(edificio, u, 0, "H1", "Tienda", 70.0);
    AgregarActividadSiguiente(edificio, u, 1, "H2", "Dormitorio", 40.0);
    AgregarActividadSiguiente(edificio, u, 2, "H3", "Dormitorio", 40.0);
    AgregarActividadSiguiente(edificio, u, 3, "H4", "Gimnasio", 65.0);
  }

  /** The thresholds of H5, S and E. */
  method AgregarUmbralesRestantes(edificio: Edificio)
    requires edificio.Valid() && edificio.umbrales == ProyectoMain.UmbralesMain[..4]
    modifies edificio
    ensures edificio.Valid()
    ensures edificio.umbrales == ProyectoMain.UmbralesMain
    ensures edificio.nombre == old(edificio.nombre) && edificio.espacios == old(edificio.espacios)
    ensures edificio.materiales == old(edificio.materiales) && edificio.ruidos == old(edificio.ruidos)
  {
    ghost var u := ProyectoMain.UmbralesMain;
    DistintosUmbrales();
    AgregarActividadSiguiente(edificio, u, 4, "H5", "Varios", 50.0);
    AgregarActividadSiguiente(edificio, u, 5, "S", "Estudio", 35.0);
    AgregarActividadSiguiente(edificio, u, 6, "E", "Varios", 50.0);
    assert u[..7] == u;
  }

  method AgregarUmbralesIniciales(edificio: Edificio)
    requires edificio.Valid() && edificio.umbrales == []
    modifies edificio
    ensures edificio.Valid()
    ensures edificio.umbrales == ProyectoMain.UmbralesMain
    ensures edificio.nombre == old(edificio.nombre) && edificio.espacios == old(edificio.espacios)
    ensures edificio.materiales == old(edificio.materiales) && edificio.ruidos == old(edificio.ruidos)
  {
    AgregarUmbralesHabitaciones(edificio);
    AgregarUmbralesRestantes(edificio);
  }

  /** The noise each space of the starting building receives through the walls:
      twice the totals Proyecto.py prints. */
  lemma RuidoInicial(id: string)
    ensures RuidoTotal(id, ProyectoMain.MaterialesMain, ProyectoMain.RuidosMain, AristasGui)
         == if id == "S" then 48.6
            else if id == "E" then 82.8
            else if id == "H2" then 12.6
            else if id == "H1" || id == "H3" || id == "H4" || id == "H5" then 36.0
            else 0.0
  {
    Proyecto.RuidoEsDoble(id, ProyectoMain.MaterialesMain, ProyectoMain.RuidosMain, AristasGui);
    ProyectoMain.TotalesMain(id);
  }

  /** "Ajustar" on the starting building: S gets 53.6, E 87.8, every other space 45. */
  lemma UmbralesAjustadosIniciales(id: string)
    requires id == "H1" || id == "H2" || id == "H3" || id == "H4" || id == "H5" || id == "S" || id == "E"
    ensures Get(Ajustar(ProyectoMain.UmbralesMain, Keys(EspaciosGui), ProyectoMain.MaterialesMain,
                        ProyectoMain.RuidosMain, AristasGui), id)
         == Some(if id == "S" then 53.6 else if id == "E" then 87.8 else 45.0)
  {
    assert Keys(EspaciosGui) == ["H1", "H2", "S", "H3", "H4", "H5", "E"];
    AjustarConsulta(ProyectoMain.UmbralesMain, Keys(EspaciosGui), ProyectoMain.MaterialesMain,
                    ProyectoMain.RuidosMain, AristasGui, id);
    RuidoInicial(id);
  }

  /** After "Ajustar", the report of the same building, its sources unchanged, finds every
      registered space habitable, under a threshold of at least 45 and at least 5 dB over
      the space's noise. */
  lemma InformeAjustado(umbrales: Dict<string, real>, espacios: Dict<string, Espacio>,
                        materiales: Dict<string, Material>, ruidos: Dict<string, Ruido>,
                        aristas: Dict<Arista, string>, i: nat)
    requires i < |espacios| && espacios[i].0 == espacios[i].1.idEspacio
    ensures var l := LineaDe(espacios[i].1.idEspacio, materiales, ruidos,
                             Ajustar(umbrales, Keys(espacios), materiales, ruidos, aristas), aristas);
            && l.habitable && l.umbral.Some?
            && l.umbral.value >= 45.0 && l.umbral.value >= l.ruidoTotal + 5.0
  {
    var id := espacios[i].0;
    assert Keys(espacios)[i] == id;
    AjustarConsulta(umbrales, Keys(espacios), materiales, ruidos, aristas, id);
  }

  /** `espacios[espacio_id]` for the `i`-th key of a registry whose spaces sit under their
      own identifier. */
  function EspacioRegistrado(espacios: Dict<string, Espacio>, i: nat): (e: Espacio)
    requires DistinctKeys(espacios) && i < |espacios|
    requires forall x | x in espacios :: x.0 == x.1.idEspacio
    ensures Get(espacios, espacios[i].0) == Some(e)
    ensures e.idEspacio == Keys(espacios)[i]
  {
    GetAt(espacios, i);
    assert espacios[i] in espacios;
    Get(espacios, espacios[i].0).value
  }

  /** One pass of the loop of `ajustar_espacios`: the space under the `i`-th key gets the
      activity chosen for it and the threshold `max(ruido_total, 40) + 5`. */
  method AjustarEspacio(edificio: Edificio, ghost umbrales0: Dict<string, real>, i: nat, actividadAleatoria: string)
    requires edificio.Valid() && i < |edificio.espacios|
    requires edificio.umbrales
          == Ajustar(umbrales0, Keys(edificio.espacios)[..i], edificio.materiales, edificio.ruidos, AristasGui)
    modifies edificio
    ensures edificio.nombre == old(edificio.nombre) && edificio.espacios == old(edificio.espacios)
    ensures edificio.materiales == old(edificio.materiales) && edificio.ruidos == old(edificio.ruidos)
    ensures edificio.Valid()
    ensures edificio.umbrales
         == Ajustar(umbrales0, Keys(edificio.espacios)[..i + 1], edificio.materiales, edificio.ruidos, AristasGui)
  {
    ghost var llaves := Keys(edificio.espacios);
    var espacioId := Keys(edificio.espacios)[i];
    var espacio := EspacioRegistrado(edificio.espacios, i);
    var ruidoTotal := espacio.CalcularRuido(edificio.materiales, edificio.ruidos, AristasGui);
    var umbralAjustado := Max(ruidoTotal, 40.0) + 5.0;
    AjustarPasoCon(umbrales0, llaves, edificio.materiales, edificio.ruidos, AristasGui, i, umbralAjustado);
    edificio.AgregarActividad(espacioId, actividadAleatoria, umbralAjustado);
  }

  class Aplicacion {
    var edificio: Edificio
    var ruidos: Dict<string, DatosRuido>
    var umbralesOriginales: Dict<string, real>

    ghost predicate Valid()
      reads this, edificio
    {
      edificio.Valid() && DistinctKeys(ruidos) && DistinctKeys(umbralesOriginales)
    }

    /** `__init__`: builds the building and keeps a copy of its thresholds. */
    constructor ()
      ensures Valid() && fresh(edificio)
      ensures edificio.nombre == "Mi Edificio" && edificio.espacios == EspaciosGui
      ensures edificio.materiales == ProyectoMain.MaterialesMain && edificio.ruidos == ProyectoMain.RuidosMain
      ensures edificio.umbrales == ProyectoMain.UmbralesMain
      ensures ruidos == GrafoDatos.RuidosG && umbralesOriginales == ProyectoMain.UmbralesMain
    {
      var e, r := InicializarEdificio();
      DatosDistintos();
      edificio := e;
      ruidos := r;
      umbralesOriginales := e.umbrales;
    }

    /** `ajustar_espacios`: every space, in registry order, gets the activity chosen for
        it and the threshold `max(ruido_total, 40) + 5`, so that every space is habitable. */
    method AjustarEspacios(elecciones: seq<string>)
      requires Valid() && |elecciones| == |edificio.espacios|
      modifies edificio
      ensures Valid()
      ensures edificio.umbrales == Ajustar(old(edificio.umbrales), Keys(edificio.espacios),
                                           edificio.materiales, edificio.ruidos, AristasGui)
      ensures forall i :: 0 <= i < |edificio.espacios| ==>
        EsHabitable(RuidoTotal(edificio.espacios[i].0, edificio.materiales, edificio.ruidos, AristasGui),
                    Get(edificio.umbrales, edificio.espacios[i].0))
      ensures edificio.nombre == old(edificio.nombre) && edificio.espacios == old(edificio.espacios)
      ensures edificio.materiales == old(edificio.materiales) && edificio.ruidos == old(edificio.ruidos)
    {
      var llaves := Keys(edificio.espacios);
      ghost var umbrales0 := edificio.umbrales;
      for i := 0 to |llaves|
        invariant edificio.Valid() && llaves == Keys(edificio.espacios)
        invariant edificio.umbrales == Ajustar(umbrales0, llaves[..i], edificio.materiales, edificio.ruidos, AristasGui)
        invariant edificio.nombre == old(edificio.nombre) && edificio.espacios == old(edificio.espacios)
        invariant edificio.materiales == old(edificio.materiales) && edificio.ruidos == old(edificio.ruidos)
      {
        AjustarEspacio(edificio, umbrales0, i, elecciones[i]);
      }
      assert llaves[..|llaves|] == llaves;
      forall i | 0 <= i < |edificio.espacios|
        ensures EsHabitable(RuidoTotal(edificio.espacios[i].0, edificio.materiales, edificio.ruidos, AristasGui),
                            Get(edificio.umbrales, edificio.espacios[i].0))
      {
        assert llaves[i] == edificio.espacios[i].0;
        AjustarHabitable(umbrales0, llaves, edificio.materiales, edificio.ruidos, AristasGui, llaves[i]);
      }
    }

    /** `restablecer_grafo`: the thresholds go back to the copy taken at start. */
    method RestablecerGrafo()
      requires Valid()
      modifies edificio
      ensures Valid()
      ensures edificio.umbrales == umbralesOriginales
      ensures edificio.nombre == old(edificio.nombre) && edificio.espacios == old(edificio.espacios)
      ensures edificio.materiales == old(edificio.materiales) && edificio.ruidos == old(edificio.ruidos)
    {
      edificio.umbrales := umbralesOriginales;
    }

    /** `actualizar_ruidos_y_generar_grafo`: reads the two entries of every source in
        order; at the first entry that is not an integer `ValueError` is caught, leaving
        the sources read so far updated and the building untouched. Otherwise the
        building's sources are rebuilt from the dict and every space is reported. */
    method ActualizarRuidosYGenerarGrafo(lecturas: seq<(Option<int>, Option<int>)>)
      returns (resultado: Result<seq<Linea>, ErrorValor>)
      requires Valid() && |lecturas| == |ruidos|
      modifies this, edificio
      ensures Valid()
      ensures edificio == old(edificio) && umbralesOriginales == old(umbralesOriginales)
      ensures edificio.nombre == old(edificio.nombre) && edificio.espacios == old(edificio.espacios)
      ensures edificio.materiales == old(edificio.materiales) && edificio.umbrales == old(edificio.umbrales)
      ensures resultado.Err? <==> PrimeraFalla(lecturas).Some?
      ensures resultado.Err? ==>
        && ruidos == Leidos(old(ruidos), lecturas, PrimeraFalla(lecturas).value)
        && edificio.ruidos == old(edificio.ruidos)
      ensures resultado.Ok? ==>
        && ruidos == Leidos(old(ruidos), lecturas, |lecturas|)
        && edificio.ruidos == Grafo.ComoRuidos(ruidos)
        && |resultado.value| == |edificio.espacios|
        && forall i :: 0 <= i < |edificio.espacios| ==>
             resultado.value[i] == LineaDe(edificio.espacios[i].1.idEspacio, edificio.materiales,
                                           edificio.ruidos, edificio.umbrales, AristasGui)
    {
      var nombres := Keys(ruidos);
      ghost var ruidos0 := ruidos;
      for i := 0 to |nombres|
        invariant forall j :: 0 <= j < i ==> Legible(lecturas[j])
        invariant ruidos == Leidos(ruidos0, lecturas, i) && DistinctKeys(ruidos)
        invariant edificio == old(edificio) && umbralesOriginales == old(umbralesOriginales)
        invariant unchanged(edificio)
      {
        var entrada := lecturas[i];
        if entrada.0.None? || entrada.1.None? {
          PrimeraFallaEn(lecturas, i);
          return Err(ValueError);
        }
        var nuevaFrecuencia := entrada.0.value;
        var nuevaIntensidad := entrada.1.value;
        EscribirFuente(ruidos0, lecturas, i, nombres[i], nuevaFrecuencia, nuevaIntensidad);
      }
      assert PrimeraFalla(lecturas).None?;
      var informe := RegenerarRuidos();
      resultado := Ok(informe);
    }

    /** The two writes of one pass of the reading loop: the `i`-th source takes the typed
        frequency, then the typed intensity. */
    method EscribirFuente(ghost ruidos0: Dict<string, DatosRuido>, ghost lecturas: seq<(Option<int>, Option<int>)>,
                          i: nat, nombre: string, nuevaFrecuencia: int, nuevaIntensidad: int)
      requires DistinctKeys(ruidos0) && i < |ruidos0| && i < |lecturas| && nombre == ruidos0[i].0
      requires forall j :: 0 <= j < i ==> Legible(lecturas[j])
      requires lecturas[i] == (Some(nuevaFrecuencia), Some(nuevaIntensidad))
      requires ruidos == Leidos(ruidos0, lecturas, i)
      modifies this
      ensures ruidos == Leidos(ruidos0, lecturas, i + 1) && DistinctKeys(ruidos)
      ensures edificio == old(edificio) && umbralesOriginales == old(umbralesOriginales)
    {
      LecturaPaso(ruidos0, lecturas, i);
      var datos := Get(ruidos, nombre).value;
      ruidos := Put(ruidos, nombre, datos.(frecuencia := nuevaFrecuencia));
      datos := Get(ruidos, nombre).value;
      ruidos := Put(ruidos, nombre, datos.(intensidad := nuevaIntensidad as real));
      LeidosDistintos(ruidos0, lecturas, i + 1);
    }

    /** `edificio.ruidos.clear()`, the sources registered again from `self.ruidos`, and
        `calcular_habitabilidad_espacios(aristas)`. */
    method RegenerarRuidos() returns (informe: seq<Linea>)
      requires Valid()
      modifies edificio
      ensures Valid()
      ensures edificio.nombre == old(edificio.nombre) && edificio.espacios == old(edificio.espacios)
      ensures edificio.materiales == old(edificio.materiales) && edificio.umbrales == old(edificio.umbrales)
      ensures edificio.ruidos == Grafo.ComoRuidos(ruidos)
      ensures |informe| == |edificio.espacios|
      ensures forall i :: 0 <= i < |edificio.espacios| ==>
        informe[i] == LineaDe(edificio.espacios[i].1.idEspacio, edificio.materiales,
                              edificio.ruidos, edificio.umbrales, AristasGui)
    {
      edificio.ruidos := [];
      RegistrarRuidos(edificio, ruidos);
      informe := edificio.CalcularHabitabilidadEspacios(AristasGui);
    }
  }

  /** The loop raises at `i` when every earlier source parsed and this one does not. */
  lemma {:induction false} PrimeraFallaEn(lecturas: seq<(Option<int>, Option<int>)>, i: nat)
    requires i < |lecturas| && !Legible(lecturas[i])
    requires forall j :: 0 <= j < i ==> Legible(lecturas[j])
    ensures PrimeraFalla(lecturas) == Some(i)
  {
    if i > 0 {
      assert lecturas[1..][i - 1] == lecturas[i];
      PrimeraFallaEn(lecturas[1..], i - 1);
    }
  }
}
