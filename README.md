# Building habitability: a Dafny model

The repository evaluates whether the spaces of a building are habitable with respect to
noise. A building has spaces (rooms identified by a string, with 3D coordinates), wall
materials (an identifier and absorption coefficients for the 500 Hz and 2000 Hz bands),
noise sources (an identifier, a frequency in Hz and an intensity in dB) and a habitability
threshold per space. Walls are the keys of a dict mapping a pair of space identifiers to
a material identifier. The noise reaching a space is the sum, over every wall whose key
contains the space and whose material is registered, and over every source, of
`intensity * absorption * 2`; a space is habitable when that total does not exceed its
threshold, a missing threshold standing for `+inf`.

The model covers:

- the canonical evaluator of `espacio.py` and the building aggregate of `edificio.py`
  (modules `Espacios` and `Edificios`), with the material constructor of `material.py`
  (`Materiales`) and the source record of `ruido.py` (`Ruidos`);
- the two earlier variants of the evaluator: `Proyecto.py` (no factor 2, a missing material
  or band is skipped with a warning; modules `Proyecto` and `ProyectoMain`) and `Grafo.py`
  (nested dicts, the factor 2, and direct indexing that raises `KeyError`; modules `Grafo`
  and `GrafoDatos`);
- the gradual colour ratio of `coloracion.py` (`Coloracion`);
- the Welch-Powell colouring of `coloracion_vecinos.py` (`ColoracionVecinos`), with the
  networkx graph it builds written out: nodes in insertion order, neighbours as a set,
  and the degree with a self-loop counted twice;
- the state changes behind the three buttons of the Tk application in `gui.py` (`Gui`):
  start-up, "Ajustar", "Restablecer" and "Generar Grafo".

Python dicts are insertion-ordered sequences of pairs with distinct keys (`Dicts.Dict`).
Writing a key overwrites its entry where it stands, and a new key goes at the end. The
order matters here: it fixes the order of the report lines and of the "Ajustar" loop, and
it breaks ties in the colouring. Sums are left folds over those sequences (`Acumulados`).
Objects whose methods update their attributes (`Edificio` in both files, `Aplicacion`)
are classes. The loops of the source are methods proved against the functions that
specify them.

## Model

| member | source | states |
|---|---|---|
| `Dicts.Get` | espacio.py:33 | `d.get(k)` finds a value exactly when `k` is a key |
| `Dicts.Put` | edificio.py:22-32 | after `d[k] = v`, `k` holds `v` and every other key keeps its value |
| `Dicts.PutKeys` | edificio.py:22-32 | `d[k] = v` keeps the key order: an existing key stays where it is, a new key is appended |
| `Dicts.PutKeepsDistinct` | edificio.py:22-32 | a write keeps one entry per key |
| `Dicts.PutNuevo` | gui.py:52-53 | writing a key that is absent appends exactly its entry |
| `Dicts.PutAt` | gui.py:144-145 | writing a key that is present replaces its entry in place |
| `Ruidos.BandKeyOf` | espacio.py:36 | the key `str(frecuencia) + 'hz'` is "500hz" exactly for 500 Hz and "2000hz" exactly for 2000 Hz |
| `Materiales.NuevoMaterial` | material.py:6-18 | the identifier is kept; the table has the keys "500hz" then "2000hz", holding the first and the second coefficient, with no range check |
| `Materiales.AbsorcionPorFrecuencia` | material.py:15-18 | a table of that shape answers a frequency exactly when it is 500 or 2000 Hz, each with its own band's entry |
| `Materiales.AbsorcionDeNuevoMaterial` | material.py:15-18 | a new material answers 500 Hz with its first coefficient, 2000 Hz with its second, and any other frequency with nothing |
| `Espacios.Espacio.CalcularRuido` | espacio.py:20-39 | the returned total is the sum over the walls touching the space with a registered material, and over all sources, of intensity * coefficient (0 if the band is missing) * 2 |
| `Espacios.RuidoSinParedes` | espacio.py:31-32 | a space that no wall key mentions has total 0 |
| `Espacios.Incidentes` | espacio.py:31-32 | the walls touching a space: every wall of the dict that touches it is kept, every kept wall touches it and comes from the dict; a dict of touching walls is kept whole, one without any gives nothing |
| `Espacios.IncidentesConcat` | espacio.py:31-32 | the touching walls of two dicts put together are those of the first followed by those of the second, so the walls keep their order |
| `Espacios.RuidoDeIncidentes` | espacio.py:31-32 | the total over all walls equals the total over the walls touching the space |
| `Espacios.SoloCuentanIncidentes` | espacio.py:31-32 | two wall dicts with the same walls touching the space give the same total, whatever else they hold |
| `Espacios.MaterialAusente` | espacio.py:33-34 | a wall of an unregistered material adds nothing, wherever it stands in the wall dict |
| `Espacios.TerminoSinBanda` | espacio.py:36-37 | through a material built by the constructor, a source at a frequency other than 500 or 2000 Hz adds 0 |
| `Espacios.AporteFuentesSinBanda` | espacio.py:35-37 | such a source adds nothing to a wall's contribution, wherever it stands among the sources |
| `Espacios.FrecuenciaSinBanda` | espacio.py:31-37 | such a source does not change the total of any space when every material is built by the constructor |
| `Espacios.MismasFuentes` | espacio.py:31-37 | two source dicts that every registered material lets through equally give equal totals |
| `Espacios.RuidoIndependienteDelOrden` | espacio.py:31-37 | the total does not depend on the order of the walls or of the sources |
| `Espacios.TerminoNoNegativo` | espacio.py:36-37 | a non-negative intensity through non-negative coefficients adds a non-negative amount |
| `Espacios.AporteFuentesNoNegativo` | espacio.py:35-37 | a wall's contribution is non-negative under the same conditions |
| `Espacios.RuidoNoNegativo` | espacio.py:20-39 | non-negative intensities and coefficients give a non-negative total |
| `Edificios.Edificio.constructor` | edificio.py:10-20 | the building has its name and four empty registries |
| `Edificios.Edificio.AgregarEspacio` | edificio.py:22-23 | the space is stored under its own identifier; nothing else changes; the registries stay dicts |
| `Edificios.Edificio.AgregarMaterial` | edificio.py:25-26 | the material is stored under its own identifier; nothing else changes |
| `Edificios.Edificio.AgregarRuido` | edificio.py:28-29 | the source is stored under its own identifier; nothing else changes |
| `Edificios.Edificio.AgregarActividad` | edificio.py:31-32 | only the threshold of the given space id is written; the activity is dropped and the id is not checked |
| `Edificios.Edificio.CalcularHabitabilidadEspacios` | edificio.py:34-44 | one line per space in registry order, each `LineaDe` of the space: its total noise, its threshold (none meaning +inf) and the verdict `ruido <= umbral`; the building is unchanged |
| `Coloracion.Min` | coloracion.py:13 | `min(a, b)` is at most both arguments and equal to one of them |
| `Coloracion.Ratio` | coloracion.py:13 | `ZeroDivisionError` exactly for a zero threshold; otherwise at most 1, exactly 1 from the threshold on, 0 for no noise, and noise/threshold in between |
| `Coloracion.ArgumentoColor` | coloracion.py:13-14 | the colormap argument `1 - ratio` is non-negative, 0 (red) at or over the threshold, 1 (green) without noise, and within [0, 1] for a positive threshold |
| `Coloracion.RatioMonotono` | coloracion.py:13 | for a fixed positive threshold, more noise never gives a smaller ratio |
| `ColoracionVecinos.AgregarNodos` | coloracion_vecinos.py:14 | `add_nodes_from` keeps the existing nodes first, adds each new node once, and adds nothing else |
| `ColoracionVecinos.Extremos` | coloracion_vecinos.py:15 | the endpoints are exactly the ends of the wall keys |
| `ColoracionVecinos.NodosGrafo` | coloracion_vecinos.py:13-15 | the graph's nodes are the listed nodes and the wall endpoints, each once |
| `ColoracionVecinos.NodosEnOrden` | coloracion_vecinos.py:14-15 | listed nodes without repeats come first, in the order given |
| `ColoracionVecinos.Vecinos` | coloracion_vecinos.py:24 | `v` is a neighbour of `n` exactly when `(n, v)` or `(v, n)` is a wall key |
| `ColoracionVecinos.VecinosSimetricos` | coloracion_vecinos.py:24 | adjacency is symmetric |
| `ColoracionVecinos.GradoCota` | coloracion_vecinos.py:18 | the degree is the number of other neighbours, plus 2 for a self-loop |
| `ColoracionVecinos.Insertar` | coloracion_vecinos.py:18 | inserting a node adds exactly that node |
| `ColoracionVecinos.InsertarOrdenado` | coloracion_vecinos.py:18 | insertion keeps a sequence in non-increasing key order |
| `ColoracionVecinos.OrdenarPor` | coloracion_vecinos.py:18 | `sorted(..., reverse=True)` returns a permutation of its input in non-increasing key order |
| `ColoracionVecinos.OrdenarSinRepetir` | coloracion_vecinos.py:18 | sorting nodes without repeats leaves no repeats |
| `ColoracionVecinos.InsertarEstable` | coloracion_vecinos.py:18 | the inserted node goes after every node of its own key |
| `ColoracionVecinos.OrdenarEstable` | coloracion_vecinos.py:18 | the sort is stable: nodes of equal key keep their relative order |
| `ColoracionVecinos.OrdenWelchPowell` | coloracion_vecinos.py:18 | the processing order lists every graph node once, by non-increasing degree |
| `ColoracionVecinos.EmpatesEnOrden` | coloracion_vecinos.py:18 | nodes of equal degree are processed in the order `G.nodes` lists them |
| `ColoracionVecinos.Usados` | coloracion_vecinos.py:25 | the used colours are exactly the colours of the already coloured neighbours |
| `ColoracionVecinos.UsadosCota` | coloracion_vecinos.py:25 | there are no more used colours than neighbours |
| `ColoracionVecinos.PaletaLlena` | coloracion_vecinos.py:20 | covering the whole palette takes at least six colours |
| `ColoracionVecinos.PrimerLibreDesde` | coloracion_vecinos.py:28-31 | the search from a palette position finds nothing exactly when all later colours are used, and otherwise the first free one |
| `ColoracionVecinos.PrimerLibre` | coloracion_vecinos.py:28-31 | the chosen colour is the first palette colour not used, and none is chosen exactly when all six are used |
| `ColoracionVecinos.Colorear` | coloracion_vecinos.py:21-31 | the assignment is a dict over processed nodes only, every colour from the palette |
| `ColoracionVecinos.WelchPowell` | coloracion_vecinos.py:4-33 | the result maps only graph nodes, each to a palette colour |
| `ColoracionVecinos.ColorearSinConflictos` | coloracion_vecinos.py:23-31 | no two distinct adjacent coloured nodes share a colour |
| `ColoracionVecinos.ColorDeCadaNodo` | coloracion_vecinos.py:23-31 | each node gets the first colour left free by the neighbours coloured before it |
| `ColoracionVecinos.NodoOmitido` | coloracion_vecinos.py:27-31 | a node gets no colour exactly when its neighbours already use all six |
| `ColoracionVecinos.HayColorLibre` | coloracion_vecinos.py:24-31 | a node of degree at most five always finds a colour |
| `ColoracionVecinos.ColorearCompleto` | coloracion_vecinos.py:23-31 | when every degree is at most five, every processed node is coloured |
| `ColoracionVecinos.WelchPowellSinConflictos` | coloracion_vecinos.py:4-33 | in the result, adjacent distinct nodes never share a colour |
| `ColoracionVecinos.WelchPowellPrimerLibre` | coloracion_vecinos.py:23-31 | each node of the processing order gets the first colour its earlier-coloured neighbours leave free |
| `ColoracionVecinos.WelchPowellCompleto` | coloracion_vecinos.py:4-33 | with all degrees at most five, every listed node and every wall endpoint is coloured |
| `ColoracionVecinos.EspaciosPrimero` | coloracion_vecinos.py:39-40 | a building's space ids come first among the graph nodes, in registry order |
| `ColoracionVecinos.ColorearGrafoWelchPowell` | coloracion_vecinos.py:4-33 | the loops compute exactly the Welch-Powell assignment over the wall keys, so the wall materials do not affect it |
| `ColoracionVecinos.ObtenerColoresVecinos` | coloracion_vecinos.py:35-41 | the building's colouring is the Welch-Powell assignment of its space ids, in registry order |
| `Grafo.SumarFuentes` | Grafo.py:51-55 | the inner loop returns what one wall adds, or the `KeyError` of the first missing material or band |
| `Grafo.CalcularRuidoEspacio` | Grafo.py:47-59 | the result is the strict verdict: the first `KeyError` of the loops, then `KeyError(espacio)` without a threshold, else `total <= umbral` |
| `Grafo.TotalSinError` | Grafo.py:49-55 | the loops raise nothing exactly when every wall touching the space has a registered material with a band for every source |
| `Grafo.VeredictoSinError` | Grafo.py:47-59 | the evaluation raises nothing exactly when nothing is missing and the space has a threshold |
| `Grafo.SinUmbral` | Grafo.py:58 | without a threshold the evaluation raises `KeyError` with the space id |
| `Grafo.MaterialFaltanteG` | Grafo.py:54 | the first touching wall with an unregistered material raises `KeyError` with the material id |
| `Grafo.BandaFaltanteG` | Grafo.py:54 | the first source without a band in that wall's table raises `KeyError` with the band key |
| `Grafo.SinFuentesG` | Grafo.py:49-55 | without sources nothing is indexed and the total is 0 |
| `Grafo.TerminoCanonico` | Grafo.py:52-55 | a term that raises nothing equals the canonical term of `espacio.py` on the same data |
| `Grafo.AporteCanonico` | Grafo.py:50-55 | a wall that raises nothing adds what the canonical evaluator adds |
| `Grafo.TotalCanonico` | Grafo.py:48-55 | when the loops raise nothing, the total is the canonical total |
| `Grafo.VeredictoCanonico` | Grafo.py:47-59 | when nothing raises, the verdict is the canonical total against the threshold |
| `Grafo.SinParedesG` | Grafo.py:47-59 | a space no wall touches totals 0 and is habitable under a non-negative threshold |
| `GrafoDatos.MismosDatos` | Grafo.py:6-45 | the module data are, as objects, the data of `Main` in Proyecto.py |
| `GrafoDatos.TablaDePared` | Grafo.py:6-30 | every wall's material is registered with both bands |
| `GrafoDatos.SinFaltantesPorBandas` | Grafo.py:49-54 | two-band tables and sources at 500 or 2000 Hz leave nothing missing |
| `GrafoDatos.NadaFalta` | Grafo.py:6-54 | on the module data nothing the loops index is missing |
| `GrafoDatos.TotalesG` | Grafo.py:47-55 | the totals on the module data: S 48.6, E 82.8, H2 12.6, 36 for H1, H3, H4 and H5 |
| `GrafoDatos.VeredictosG` | Grafo.py:95-97 | the final loop finds S and E not habitable and the other five spaces habitable |
| `Proyecto.Espacio.CalcularHabitabilidad` | Proyecto.py:18-35 | the verdict is the sum of intensity * coefficient (no factor 2) against `umbrales.get(id, inf)`, and the warnings are those printed, in order |
| `Proyecto.TerminoDoble` | Proyecto.py:28-30 | through a wall, the canonical evaluator counts twice what this variant adds |
| `Proyecto.RuidoEsDoble` | Proyecto.py:20-30 | the canonical total is exactly twice this variant's total |
| `Proyecto.FuenteSinBandaNoSuma` | Proyecto.py:28-32 | a source without a band entry adds nothing, wherever it stands |
| `Proyecto.MaterialAusenteNoSuma` | Proyecto.py:23-34 | a wall of an unregistered material adds nothing, wherever it stands |
| `Proyecto.SinAvisosFuentes` | Proyecto.py:25-32 | a wall prints no band warning exactly when every source has a band entry |
| `Proyecto.SinAvisos` | Proyecto.py:21-34 | no warning at all exactly when every touching wall has a registered material with a band for every source |
| `Proyecto.ConBandaDeDosBandas` | Proyecto.py:7 | with a constructor-built table, a band is missing exactly for frequencies other than 500 and 2000 Hz |
| `Proyecto.Edificio.constructor` | Proyecto.py:44-49 | the building has its name and four empty registries |
| `Proyecto.Edificio.AgregarEspacio` | Proyecto.py:51-52 | the space is stored under its own identifier; nothing else changes |
| `Proyecto.Edificio.AgregarMaterial` | Proyecto.py:54-55 | the material is stored under its own identifier; nothing else changes |
| `Proyecto.Edificio.AgregarRuido` | Proyecto.py:57-58 | the source is stored under its own identifier; nothing else changes |
| `Proyecto.Edificio.AgregarUmbral` | Proyecto.py:60-61 | the threshold of the given id is written; the id need not be a registered space |
| `Proyecto.Edificio.CalcularHabitabilidadEspacios` | Proyecto.py:63-67 | one report per space in registry order, with its warnings and verdict; the building is unchanged |
| `ProyectoMain.ParedDeLadrillo` | Proyecto.py:96-112 | a brick wall lets through 90 * 0.04 + 70 * 0.02 + 65 * 0.02 = 6.3 |
| `ProyectoMain.ParedDeLoseta` | Proyecto.py:97-112 | a tile wall lets through 90 * 0.04 + 70 * 0.06 + 65 * 0.06 = 11.7 |
| `ProyectoMain.MaterialDePared` | Proyecto.py:123-132 | every wall is of brick or tile, both registered |
| `ProyectoMain.AporteDePared` | Proyecto.py:123-132 | each wall adds 6.3 (brick) or 11.7 (tile) to the spaces it touches and nothing to the others |
| `ProyectoMain.TotalesMain` | Proyecto.py:93-132 | the totals: S 24.3, E 41.4, H2 6.3, 18 for H1, H3, H4 and H5, 0 elsewhere |
| `ProyectoMain.FuentesConBanda` | Proyecto.py:96-112 | both wall materials have a band for every source |
| `ProyectoMain.SinAvisosMain` | Proyecto.py:93-132 | no space prints a warning |
| `ProyectoMain.UmbralMain` | Proyecto.py:115-121 | the threshold registered for each of the seven spaces |
| `ProyectoMain.HabitableMain` | Proyecto.py:93-132 | each of the seven spaces is habitable |
| `ProyectoMain.TodosHabitablesMain` | Proyecto.py:134-136 | every registered space is habitable and reports no warning |
| `Gui.Max` | gui.py:123 | `max(a, b)` is at least both arguments and equal to one of them |
| `Gui.UmbralAjustado` | gui.py:123 | the adjusted threshold is at least 45 and at least noise + 5: noise + 5 from 40 dB up, 45 below |
| `Gui.AjustarConsulta` | gui.py:120-124 | after the loop every visited space holds the adjusted threshold for its noise, and every other key keeps its threshold |
| `Gui.AjustarHabitable` | gui.py:120-124 | every visited space ends up habitable under a threshold of at least 45 |
| `Gui.AjustarDistinto` | gui.py:120-124 | the thresholds stay a dict |
| `Gui.AjustarClaves` | gui.py:120-124 | when every visited space already has a threshold, the keys and their order stay |
| `Gui.AjustarIdempotente` | gui.py:104-124 | adjusting twice gives the same thresholds as adjusting once |
| `Gui.AjustarSinOrden` | gui.py:120-124 | the visiting order does not change the outcome once every visited space has a threshold |
| `Gui.PrimeraFalla` | gui.py:140-145 | the failing source is the first whose entries do not both parse, and there is none exactly when all parse |
| `Gui.PrimeraFallaEn` | gui.py:140-145 | when every earlier source parses and source `i` does not, the loop stops at `i` |
| `Gui.Leidos` | gui.py:141-145 | after `n` sources are read, those hold the typed values, the others keep theirs, and the names and their order stay |
| `Gui.LeidosCampos` | gui.py:142-145 | a source already read keeps its name and holds the typed frequency and intensity; one not yet read is untouched |
| `Gui.LecturaPaso` | gui.py:144-145 | the two writes of one pass give the dict with one more source read |
| `Gui.LeidosDistintos` | gui.py:141-145 | the source dict keeps one entry per name |
| `Gui.RegistrarRuidos` | gui.py:148-149 | registering every entry into an empty registry makes the building's sources the entries as objects, in order |
| `Gui.InicializarEdificio` | gui.py:26-64 | the starting building: three materials, seven spaces, three sources and seven thresholds, and the source dict behind the entries |
| `Gui.DatosDistintos` | gui.py:26-64 | the starting registries have distinct identifiers |
| `Gui.AgregarMaterialesIniciales` | gui.py:30-33 | the three materials are registered in order |
| `Gui.AgregarPlantaBaja` | gui.py:36-38 | H1, H2 and S are registered in order |
| `Gui.AgregarPlantaAlta` | gui.py:39-42 | H3, H4, H5 and E follow |
| `Gui.AgregarEspaciosIniciales` | gui.py:35-42 | the seven spaces are registered in order |
| `Gui.AgregarUmbralesHabitaciones` | gui.py:56-59 | the thresholds of H1 to H4 are written in order |
| `Gui.AgregarUmbralesRestantes` | gui.py:60-62 | the thresholds of H5, S and E follow |
| `Gui.AgregarUmbralesIniciales` | gui.py:55-62 | the seven thresholds are written in order |
| `Gui.RuidoInicial` | gui.py:26-64 | the noise of the starting building: S 48.6, E 82.8, H2 12.6, 36 for H1, H3, H4 and H5 |
| `Gui.InformeAjustado` | gui.py:120-124 | after "Ajustar", the report of the same building with its sources unchanged finds every space habitable, under a threshold of at least 45 and at least 5 dB over its noise |
| `Gui.UmbralesAjustadosIniciales` | gui.py:120-124 | "Ajustar" on the starting building sets S to 53.6, E to 87.8 and every other space to 45 |
| `Gui.EspacioRegistrado` | gui.py:122 | `espacios[espacio_id]` is the space stored under that key, whose id is the key |
| `Gui.AjustarEspacio` | gui.py:121-124 | one pass writes the adjusted threshold of the space under the `i`-th key; only the thresholds change |
| `Gui.Aplicacion.constructor` | gui.py:12-21 | the application holds the starting building, the source dict and a copy of the starting thresholds |
| `Gui.Aplicacion.AjustarEspacios` | gui.py:104-124 | every space, in registry order, gets `max(ruido_total, 40) + 5` whatever activities are chosen, so that every space is habitable; nothing else changes |
| `Gui.Aplicacion.RestablecerGrafo` | gui.py:132-135 | the thresholds go back to the copy taken at start; nothing else changes |
| `Gui.Aplicacion.EscribirFuente` | gui.py:142-145 | one pass writes the typed frequency and then the typed intensity of its source |
| `Gui.Aplicacion.RegenerarRuidos` | gui.py:147-163 | the building's sources are rebuilt from the source dict and every space is reported |
| `Gui.Aplicacion.ActualizarRuidosYGenerarGrafo` | gui.py:138-167 | `ValueError` exactly when an entry does not parse, with the sources before it updated and the building untouched; otherwise all sources updated, the building's sources rebuilt and one line per space |

## Left out

- Rendering is not modelled: the 3D plots of `grafo.py`, `Proyecto.py:69-89` and
  `Grafo.py:62-89`, the colormap and hex conversion of `coloracion.py:14`
  (`Coloracion.ArgumentoColor` stops at the argument handed to the colormap), and
  `refrescar_grafo`. They only draw.
- The Tk widgets (`crear_interfaz`, the entries, the buttons, `messagebox`) are left out. Each
  button is the method it calls, and the text of an entry is its parsed value: `Some(n)`
  where `int(...)` succeeds, `None` where it raises `ValueError`.
- Printing is not modelled. `calcular_habitabilidad_espacios` returns the lines it would
  print (`Edificios.Linea`, `Proyecto.Reporte`), and the warnings of `Proyecto.py` are a list
  of `Proyecto.Aviso` values.
- `random.choice` (gui.py:121) becomes the parameter `elecciones` of
  `Gui.Aplicacion.AjustarEspacios`. The chosen activity is dropped by `agregar_actividad`
  in any case.
- gui.py:20 and gui.py:107 read `edificio.actividades`. gui.py:127 calls
  `edificio.ajustar_habitabilidad`, and gui.py:134 writes `edificio.actividades`. The
  `Edificio` of edificio.py defines none of these. As written, `Aplicacion.__init__`
  raises `AttributeError` at line 20, and `ajustar_espacios` raises it at line 107. The
  model leaves these lines out and keeps the rest of each method: the constructor
  keeps the thresholds copy of line 21, "Ajustar" keeps the loop of lines 120-124, and
  "Restablecer" keeps line 135. Line 134 is dropped because, with line 20 left out,
  `self.actividades_originales` is never set, so reading it there would raise
  `AttributeError` before line 135 runs; the write to `edificio.actividades` by
  itself would not raise.
- Numbers are mathematical reals, not IEEE doubles. Totals such as 6.3 are exact. In
  Python they may differ in the last bit, which is far from any of the thresholds.
  Frequencies are integers; intensities, coefficients and thresholds are reals.
- `float('inf')` as the default threshold is represented by a missing threshold
  (`Option.None`), which every verdict treats as habitable.
- The module-level script of `Grafo.py` (lines 93-97) is modelled as the lemma
  `GrafoDatos.VeredictosG` over its data. The class-body script `Main` of `Proyecto.py`
  is modelled as the constants and lemmas of `ProyectoMain`.
- networkx is not modelled as a library. The graph it builds is written out
  directly: nodes in insertion order, neighbour sets, and degrees.
- `if material:` tests a `Material` object, which is always truthy, so it is modelled as
  "the lookup found something".
- The coordinates of a space are kept but only rendering reads them.
