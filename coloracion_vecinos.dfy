/**
  The Welch-Powell colouring of the adjacency graph (coloracion_vecinos.py). The graph
  networkx builds is modelled directly: its nodes in insertion order, the neighbours of
  a node as the set of other ends of the wall keys that touch it, and the degree with
  networkx's convention that a self-loop counts twice.
 */
module ColoracionVecinos {
  import opened Wrappers
  import opened Dicts
  import Espacios
  import Edificios

  type Arista = Espacios.Arista
  type Color = string

  /** `colores_disponibles`, in the order they are tried. */
  const Paleta: seq<Color> := ["red", "blue", "green", "yellow", "purple", "orange"]

  ghost predicate SinRepetir(s: seq<string>) {
    forall i, j :: 0 <= i < j < |s| ==> s[i] != s[j]
  }

  // ---------------------------------------------------------------------------
  // The graph

  /** `add_nodes_from`: each new node goes at the end, a known one is ignored. */
  function AgregarNodos(ns: seq<string>, nuevos: seq<string>): (r: seq<string>)
    ensures forall x :: x in r <==> x in ns || x in nuevos
    ensures SinRepetir(ns) ==> SinRepetir(r)
    ensures |ns| <= |r| && r[..|ns|] == ns
  {
    if nuevos == [] then ns
    else
      var antes := AgregarNodos(ns, nuevos[..|nuevos| - 1]);
      var n := nuevos[|nuevos| - 1];
      assert forall x :: x in nuevos <==> x in nuevos[..|nuevos| - 1] || x == n;
      if n in antes then antes else antes + [n]
  }

  /** The endpoints of the walls, each wall's two ends in order. */
  function Extremos(aristas: seq<Arista>): (r: seq<string>)
    ensures forall x :: x in r <==> exists e :: e in aristas && (x == e.0 || x == e.1)
  {
    if aristas == [] then []
    else
      var e := aristas[|aristas| - 1];
      assert forall f :: f in aristas <==> f in aristas[..|aristas| - 1] || f == e;
      Extremos(aristas[..|aristas| - 1]) + [e.0, e.1]
  }

  /** `G.add_nodes_from(nodos)` then `G.add_edges_from(aristas.keys())`: the nodes of the
      graph in the order `G.nodes` lists them, endpoints missing from `nodos` last. */
  function NodosGrafo(nodos: seq<string>, aristas: seq<Arista>): (r: seq<string>)
    ensures SinRepetir(r)
    ensures forall x :: x in r <==> x in nodos || exists e :: e in aristas && (x == e.0 || x == e.1)
  {
    AgregarNodos([], nodos + Extremos(aristas))
  }

  /** Without repeated ids, the nodes come first in the order given. */
  lemma {:induction false} NodosEnOrden(nodos: seq<string>, aristas: seq<Arista>)
    requires SinRepetir(nodos)
    ensures |nodos| <= |NodosGrafo(nodos, aristas)|
    ensures NodosGrafo(nodos, aristas)[..|nodos|] == nodos
  {
    AgregarSinRepetir(nodos);
    AgregarConcat([], nodos, Extremos(aristas));
  }

  lemma {:induction false} AgregarSinRepetir(xs: seq<string>)
    requires SinRepetir(xs)
    ensures AgregarNodos([], xs) == xs
  {
    if xs != [] {
      var p := xs[..|xs| - 1];
      assert SinRepetir(p);
      AgregarSinRepetir(p);
      assert xs[|xs| - 1] !in p;
      assert p + [xs[|xs| - 1]] == xs;
    }
  }

  lemma {:induction false} AgregarConcat(ns: seq<string>, xs: seq<string>, ys: seq<string>)
    ensures AgregarNodos(ns, xs + ys) == AgregarNodos(AgregarNodos(ns, xs), ys)
    decreases |ys|
  {
    if ys == [] {
      assert xs + ys == xs;
    } else {
      var q := ys[..|ys| - 1];
      assert (xs + ys)[..|xs + ys| - 1] == xs + q;
      assert (xs + ys)[|xs + ys| - 1] == ys[|ys| - 1];
      AgregarConcat(ns, xs, q);
    }
  }

  /** `set(G.neighbors(n))`: the other end of every wall key that has `n` at one end. */
  function Vecinos(aristas: seq<Arista>, n: string): (r: set<string>)
    ensures forall v :: v in r <==> (n, v) in aristas || (v, n) in aristas
  {
    var r := (set e | e in aristas && e.0 == n :: e.1) + (set e | e in aristas && e.1 == n :: e.0);
    assert forall v :: (n, v) in aristas ==> v in r by {
      forall v | (n, v) in aristas ensures v in r {
        var e := (n, v);
        assert e in aristas && e.0 == n;
      }
    }
    assert forall v :: (v, n) in aristas ==> v in r by {
      forall v | (v, n) in aristas ensures v in r {
        var e := (v, n);
        assert e in aristas && e.1 == n;
      }
    }
    r
  }

  /** Adjacency is symmetric: the graph is undirected. */
  lemma VecinosSimetricos(aristas: seq<Arista>, a: string, b: string)
    ensures b in Vecinos(aristas, a) <==> a in Vecinos(aristas, b)
  {
  }

  /** `G.degree[n]`: the number of neighbours, a self-loop counted twice. */
  function Grado(aristas: seq<Arista>, n: string): nat {
    var v := Vecinos(aristas, n);
    |v| + (if n in v then 1 else 0)
  }

  /** The degree bounds the neighbours other than the node itself, and a self-loop
      adds two. */
  lemma GradoCota(aristas: seq<Arista>, n: string)
    ensures Grado(aristas, n) >= |Vecinos(aristas, n) - {n}|
    ensures Grado(aristas, n) == |Vecinos(aristas, n) - {n}| + (if (n, n) in aristas then 2 else 0)
  {
  }

  // ---------------------------------------------------------------------------
  // `sorted(G.nodes, key=degree, reverse=True)`

  /** The key the nodes are sorted on: `lambda x: G.degree[x]`. */
  function GradoEn(aristas: seq<Arista>): string -> int {
    n => Grado(aristas, n)
  }

  /** No node comes after one of smaller key. */
  ghost predicate NoCreciente(g: string -> int, s: seq<string>) {
    forall i, j :: 0 <= i < j < |s| ==> g(s[i]) >= g(s[j])
  }

  /** Puts `x` after every node whose key is at least its own. */
  function Insertar(g: string -> int, x: string, s: seq<string>): (r: seq<string>)
    ensures multiset(r) == multiset(s) + multiset{x}
    ensures forall y :: y in r <==> y == x || y in s
  {
    if s == [] then [x]
    else if g(s[0]) < g(x) then [x] + s
    else
      assert s == [s[0]] + s[1..];
      [s[0]] + Insertar(g, x, s[1..])
  }

  lemma {:induction false} InsertarOrdenado(g: string -> int, x: string, s: seq<string>)
    requires NoCreciente(g, s)
    ensures NoCreciente(g, Insertar(g, x, s))
  {
    var r := Insertar(g, x, s);
    if s == [] {
    } else if g(s[0]) < g(x) {
      forall i, j | 0 <= i < j < |r| ensures g(r[i]) >= g(r[j]) {
        if i == 0 {
          assert r[j] == s[j - 1];
          assert g(s[0]) >= g(s[j - 1]) || j - 1 == 0;
        } else {
          assert r[i] == s[i - 1] && r[j] == s[j - 1];
        }
      }
    } else {
      var resto := Insertar(g, x, s[1..]);
      assert r == [s[0]] + resto;
      assert NoCreciente(g, s[1..]);
      InsertarOrdenado(g, x, s[1..]);
      forall i, j | 0 <= i < j < |r| ensures g(r[i]) >= g(r[j]) {
        if i == 0 {
          assert r[j] == resto[j - 1];
          assert resto[j - 1] in resto;
          if resto[j - 1] != x {
            var k :| 0 <= k < |s[1..]| && s[1..][k] == resto[j - 1];
            assert s[k + 1] == resto[j - 1];
          }
        } else {
          assert r[i] == resto[i - 1] && r[j] == resto[j - 1];
        }
      }
    }
  }

  lemma {:induction false} InsertarSinRepetir(g: string -> int, x: string, s: seq<string>)
    requires SinRepetir(s) && x !in s
    ensures SinRepetir(Insertar(g, x, s))
  {
    var r := Insertar(g, x, s);
    if s == [] {
    } else if g(s[0]) < g(x) {
      forall i, j | 0 <= i < j < |r| ensures r[i] != r[j] {
        assert r[j] == s[j - 1];
        if i > 0 {
          assert r[i] == s[i - 1];
        }
      }
    } else {
      var resto := Insertar(g, x, s[1..]);
      assert r == [s[0]] + resto;
      assert SinRepetir(s[1..]) && x !in s[1..];
      InsertarSinRepetir(g, x, s[1..]);
      assert s[0] !in s[1..];
      forall i, j | 0 <= i < j < |r| ensures r[i] != r[j] {
        assert r[j] == resto[j - 1] && resto[j - 1] in resto;
        if i > 0 {
          assert r[i] == resto[i - 1];
        }
      }
    }
  }

  /** Python's `sorted(s, key=g, reverse=True)`: a stable insertion sort on descending keys. */
  function OrdenarPor(g: string -> int, s: seq<string>): (r: seq<string>)
    ensures multiset(r) == multiset(s)
    ensures forall y :: y in r <==> y in s
    ensures NoCreciente(g, r)
  {
    if s == [] then []
    else
      var p := s[..|s| - 1];
      var x := s[|s| - 1];
      assert s == p + [x];
      assert forall y :: y in s <==> y in p || y == x;
      InsertarOrdenado(g, x, OrdenarPor(g, p));
      Insertar(g, x, OrdenarPor(g, p))
  }

  lemma {:induction false} OrdenarSinRepetir(g: string -> int, s: seq<string>)
    requires SinRepetir(s)
    ensures SinRepetir(OrdenarPor(g, s))
  {
    if s != [] {
      var p := s[..|s| - 1];
      assert SinRepetir(p) && s[|s| - 1] !in p;
      OrdenarSinRepetir(g, p);
      InsertarSinRepetir(g, s[|s| - 1], OrdenarPor(g, p));
    }
  }

  /** `[x]` when `x` has key `k`, nothing otherwise. */
  function Unidad(g: string -> int, x: string, k: int): seq<string> {
    if g(x) == k then [x] else []
  }

  /** The nodes whose key is `k`, in the order of `s`. */
  function ConClave(g: string -> int, s: seq<string>, k: int): seq<string> {
    if s == [] then [] else Unidad(g, s[0], k) + ConClave(g, s[1..], k)
  }

  lemma {:induction false} ConClaveVacio(g: string -> int, s: seq<string>, k: int)
    requires forall y :: y in s ==> g(y) < k
    ensures ConClave(g, s, k) == []
  {
    if s != [] {
      assert s[0] in s;
      assert Unidad(g, s[0], k) == [];
      assert forall y :: y in s[1..] ==> y in s;
      ConClaveVacio(g, s[1..], k);
    }
  }

  lemma {:induction false} ConClaveConcat(g: string -> int, p: seq<string>, x: string, k: int)
    ensures ConClave(g, p + [x], k) == ConClave(g, p, k) + Unidad(g, x, k)
  {
    var q := p + [x];
    if p == [] {
      assert q == [x] && q[1..] == [];
      assert ConClave(g, q, k) == Unidad(g, x, k) + [];
    } else {
      assert q[0] == p[0] && q[1..] == p[1..] + [x];
      ConClaveConcat(g, p[1..], x, k);
      var a, b, c := Unidad(g, p[0], k), ConClave(g, p[1..], k), Unidad(g, x, k);
      assert ConClave(g, q, k) == a + (b + c);
      assert ConClave(g, p, k) == a + b;
      assert a + (b + c) == (a + b) + c;
    }
  }

  /** In a non-increasing sequence the head has the largest key. */
  lemma CabezaMayor(g: string -> int, s: seq<string>)
    requires s != [] && NoCreciente(g, s)
    ensures forall y :: y in s ==> g(y) <= g(s[0])
  {
    forall y | y in s ensures g(y) <= g(s[0]) {
      var i :| 0 <= i < |s| && s[i] == y;
      assert i == 0 || g(s[0]) >= g(s[i]);
    }
  }

  /** Inserting in front of a larger head: no earlier node has the new key. */
  lemma InsertarDelante(g: string -> int, x: string, s: seq<string>, k: int)
    requires s != [] && NoCreciente(g, s) && g(s[0]) < g(x)
    ensures ConClave(g, [x] + s, k) == ConClave(g, s, k) + Unidad(g, x, k)
  {
    var r := [x] + s;
    assert r[0] == x && r[1..] == s;
    assert ConClave(g, r, k) == Unidad(g, x, k) + ConClave(g, s, k);
    if g(x) == k {
      CabezaMayor(g, s);
      ConClaveVacio(g, s, k);
    } else {
      assert Unidad(g, x, k) == [];
    }
  }

  /** Inserting behind the head: the head's own contribution stays in front. */
  lemma InsertarDetras(g: string -> int, x: string, s: seq<string>, k: int, resto: seq<string>)
    requires s != []
    requires ConClave(g, resto, k) == ConClave(g, s[1..], k) + Unidad(g, x, k)
    ensures ConClave(g, [s[0]] + resto, k) == ConClave(g, s, k) + Unidad(g, x, k)
  {
    var r := [s[0]] + resto;
    assert r[0] == s[0] && r[1..] == resto;
    var a, b, c := Unidad(g, s[0], k), ConClave(g, s[1..], k), Unidad(g, x, k);
    assert ConClave(g, r, k) == a + (b + c);
    assert ConClave(g, s, k) == a + b;
    assert a + (b + c) == (a + b) + c;
  }

  lemma {:induction false} InsertarEstable(g: string -> int, x: string, s: seq<string>, k: int)
    requires NoCreciente(g, s)
    ensures ConClave(g, Insertar(g, x, s), k) == ConClave(g, s, k) + Unidad(g, x, k)
  {
    if s == [] {
      assert ConClave(g, [x], k) == Unidad(g, x, k) + ConClave(g, [], k);
    } else if g(s[0]) < g(x) {
      InsertarDelante(g, x, s, k);
    } else {
      assert NoCreciente(g, s[1..]);
      InsertarEstable(g, x, s[1..], k);
      InsertarDetras(g, x, s, k, Insertar(g, x, s[1..]));
    }
  }

  /** The sort is stable: the nodes with any one key keep their relative order. */
  lemma {:induction false} OrdenarEstable(g: string -> int, s: seq<string>, k: int)
    ensures ConClave(g, OrdenarPor(g, s), k) == ConClave(g, s, k)
  {
    if s != [] {
      var p := s[..|s| - 1];
      var x := s[|s| - 1];
      assert s == p + [x];
      OrdenarEstable(g, p, k);
      InsertarEstable(g, x, OrdenarPor(g, p), k);
      ConClaveConcat(g, p, x, k);
    }
  }

  /** The order the nodes are processed in: `nodos_ordenados`. */
  function OrdenWelchPowell(nodos: seq<string>, aristas: seq<Arista>): (r: seq<string>)
    ensures SinRepetir(r)
    ensures forall x :: x in r <==> x in NodosGrafo(nodos, aristas)
    ensures NoCreciente(GradoEn(aristas), r)
  {
    OrdenarSinRepetir(GradoEn(aristas), NodosGrafo(nodos, aristas));
    OrdenarPor(GradoEn(aristas), NodosGrafo(nodos, aristas))
  }

  /** Ties keep the order of `G.nodes`: the nodes of any one degree are processed in
      insertion order. */
  lemma EmpatesEnOrden(nodos: seq<string>, aristas: seq<Arista>, k: int)
    ensures ConClave(GradoEn(aristas), OrdenWelchPowell(nodos, aristas), k)
         == ConClave(GradoEn(aristas), NodosGrafo(nodos, aristas), k)
  {
    OrdenarEstable(GradoEn(aristas), NodosGrafo(nodos, aristas), k);
  }

  // ---------------------------------------------------------------------------
  // The greedy colouring

  /** `colores_usados`: the colours already given to the neighbours. */
  function Usados(asig: Dict<string, Color>, vecinos: set<string>): (u: set<Color>)
    ensures forall v :: v in vecinos && Get(asig, v).Some? ==> Get(asig, v).value in u
    ensures forall c :: c in u ==> exists v :: v in vecinos && Get(asig, v) == Some(c)
  {
    set v | v in vecinos && v in Keys(asig) :: Get(asig, v).value
  }

  /** The palette search from position `k` on. */
  function PrimerLibreDesde(usados: set<Color>, k: nat): (r: Option<Color>)
    requires k <= |Paleta|
    ensures r.None? <==> forall j :: k <= j < |Paleta| ==> Paleta[j] in usados
    ensures r.Some? ==> r.value in Paleta[k..] && r.value !in usados
    ensures forall j :: (k <= j < |Paleta| && Paleta[j] !in usados &&
                         (forall i :: k <= i < j ==> Paleta[i] in usados)) ==> r == Some(Paleta[j])
    decreases |Paleta| - k
  {
    if k == |Paleta| then None
    else if Paleta[k] !in usados then Some(Paleta[k])
    else PrimerLibreDesde(usados, k + 1)
  }

  /** The inner `for color in colores_disponibles` with its `break`: the first colour of
      the palette that is not used, or `None` when all six are. */
  function PrimerLibre(usados: set<Color>): (r: Option<Color>)
    ensures r.None? <==> forall j :: 0 <= j < |Paleta| ==> Paleta[j] in usados
    ensures r.Some? ==> r.value in Paleta && r.value !in usados
    ensures forall j :: (0 <= j < |Paleta| && Paleta[j] !in usados &&
                         (forall i :: 0 <= i < j ==> Paleta[i] in usados)) ==> r == Some(Paleta[j])
  {
    PrimerLibreDesde(usados, 0)
  }

  /** The colour the loop gives `nodo` once `asig` is filled in, if any. */
  function ColorPara(asig: Dict<string, Color>, aristas: seq<Arista>, nodo: string): Option<Color> {
    PrimerLibre(Usados(asig, Vecinos(aristas, nodo)))
  }

  /** One pass of the outer loop: `nodo` gets its colour, or is left out. */
  function Paso(asig: Dict<string, Color>, aristas: seq<Arista>, nodo: string): Dict<string, Color> {
    match ColorPara(asig, aristas, nodo)
    case None => asig
    case Some(c) => Put(asig, nodo, c)
  }

  /** The assignment after processing `orden`: a dict with one entry per coloured node,
      every colour from the palette. */
  function Colorear(orden: seq<string>, aristas: seq<Arista>): (r: Dict<string, Color>)
    ensures DistinctKeys(r)
    ensures forall n :: Get(r, n).Some? ==> n in orden && Get(r, n).value in Paleta
  {
    if orden == [] then []
    else
      var asig := Colorear(orden[..|orden| - 1], aristas);
      var nodo := orden[|orden| - 1];
      assert forall n :: n in orden[..|orden| - 1] ==> n in orden;
      match ColorPara(asig, aristas, nodo)
      case None => asig
      case Some(c) => PutKeepsDistinct(asig, nodo, c); Put(asig, nodo, c)
  }

  /** `colorear_grafo_welch_powell` as a value. */
  function WelchPowell(nodos: seq<string>, aristas: seq<Arista>): (r: Dict<string, Color>)
    ensures DistinctKeys(r)
    ensures forall n :: Get(r, n).Some? ==> n in NodosGrafo(nodos, aristas) && Get(r, n).value in Paleta
  {
    Colorear(OrdenWelchPowell(nodos, aristas), aristas)
  }

  lemma ColorearPaso(orden: seq<string>, aristas: seq<Arista>, i: nat)
    requires i < |orden|
    ensures Colorear(orden[..i + 1], aristas) == Paso(Colorear(orden[..i], aristas), aristas, orden[i])
  {
    assert orden[..i + 1][..i] == orden[..i];
  }

  lemma ColorearUltimo(orden: seq<string>, aristas: seq<Arista>)
    requires orden != []
    ensures Colorear(orden, aristas)
         == Paso(Colorear(orden[..|orden| - 1], aristas), aristas, orden[|orden| - 1])
  {
  }

  /** No two adjacent nodes that are both coloured share a colour. */
  lemma {:induction false} ColorearSinConflictos(orden: seq<string>, aristas: seq<Arista>)
    requires SinRepetir(orden)
    ensures forall a, b :: a != b && b in Vecinos(aristas, a) &&
                           Get(Colorear(orden, aristas), a).Some? && Get(Colorear(orden, aristas), b).Some?
                           ==> Get(Colorear(orden, aristas), a) != Get(Colorear(orden, aristas), b)
  {
    if orden != [] {
      var p := orden[..|orden| - 1];
      var nodo := orden[|orden| - 1];
      assert SinRepetir(p) && nodo !in p;
      ColorearSinConflictos(p, aristas);
      var asig := Colorear(p, aristas);
      var r := Colorear(orden, aristas);
      assert Get(asig, nodo).None?;
      match ColorPara(asig, aristas, nodo)
      case None =>
      case Some(c) =>
        assert r == Put(asig, nodo, c);
        var usados := Usados(asig, Vecinos(aristas, nodo));
        forall a, b | a != b && b in Vecinos(aristas, a) && Get(r, a).Some? && Get(r, b).Some?
          ensures Get(r, a) != Get(r, b)
        {
          if a == nodo {
            assert Get(asig, b).value in usados;
          } else if b == nodo {
            VecinosSimetricos(aristas, a, b);
            assert Get(asig, a).value in usados;
          }
        }
    }
  }

  lemma PasoOtro(asig: Dict<string, Color>, aristas: seq<Arista>, nodo: string, n: string)
    requires n != nodo
    ensures Get(Paso(asig, aristas, nodo), n) == Get(asig, n)
  {
  }

  lemma PasoMismo(asig: Dict<string, Color>, aristas: seq<Arista>, nodo: string)
    requires Get(asig, nodo).None?
    ensures Get(Paso(asig, aristas, nodo), nodo) == ColorPara(asig, aristas, nodo)
  {
  }

  /** Each node gets the first palette colour that none of the neighbours coloured before
      it uses, and nothing later changes it. */
  lemma {:induction false} ColorDeCadaNodo(orden: seq<string>, aristas: seq<Arista>, i: nat)
    requires SinRepetir(orden) && i < |orden|
    ensures Get(Colorear(orden, aristas), orden[i]) == ColorPara(Colorear(orden[..i], aristas), aristas, orden[i])
  {
    var n := |orden| - 1;
    var p := orden[..n];
    var asig := Colorear(p, aristas);
    ColorearUltimo(orden, aristas);
    if i == n {
      assert orden[n] !in p;
      PasoMismo(asig, aristas, orden[n]);
    } else {
      assert SinRepetir(p) && orden[i] != orden[n];
      assert p[i] == orden[i] && p[..i] == orden[..i];
      PasoOtro(asig, aristas, orden[n], orden[i]);
      ColorDeCadaNodo(p, aristas, i);
    }
  }

  /** A node is left out exactly when its coloured neighbours already use all six
      colours. */
  lemma NodoOmitido(orden: seq<string>, aristas: seq<Arista>, i: nat)
    requires SinRepetir(orden) && i < |orden|
    ensures Get(Colorear(orden, aristas), orden[i]).None? <==>
            forall j :: 0 <= j < |Paleta| ==>
              Paleta[j] in Usados(Colorear(orden[..i], aristas), Vecinos(aristas, orden[i]))
  {
    ColorDeCadaNodo(orden, aristas, i);
  }

  lemma {:induction false} UsadosCota(asig: Dict<string, Color>, vecinos: set<string>)
    ensures |Usados(asig, vecinos)| <= |vecinos|
    decreases |vecinos|
  {
    if vecinos != {} {
      var v :| v in vecinos;
      var resto := vecinos - {v};
      UsadosCota(asig, resto);
      var u := Usados(asig, vecinos);
      var w := Usados(asig, resto);
      if Get(asig, v).Some? {
        assert u == w + {Get(asig, v).value};
      } else {
        assert u == w;
      }
    }
  }

  /** Six distinct colours fit only in a set of at least six. */
  lemma PaletaLlena(usados: set<Color>)
    requires forall j :: 0 <= j < |Paleta| ==> Paleta[j] in usados
    ensures |usados| >= 6
  {
    var todos := {"red", "blue", "green", "yellow", "purple", "orange"};
    assert Paleta[0] in usados && Paleta[1] in usados && Paleta[2] in usados;
    assert Paleta[3] in usados && Paleta[4] in usados && Paleta[5] in usados;
    assert todos <= usados;
    assert |todos| == 6;
    assert |usados| == |todos| + |usados - todos|;
  }

  /** A node of degree at most five that is not yet coloured always finds a colour. */
  lemma HayColorLibre(asig: Dict<string, Color>, aristas: seq<Arista>, nodo: string)
    requires Get(asig, nodo).None? && Grado(aristas, nodo) <= 5
    ensures ColorPara(asig, aristas, nodo).Some?
  {
    var vecinos := Vecinos(aristas, nodo);
    var otros := vecinos - {nodo};
    assert Usados(asig, vecinos) == Usados(asig, otros);
    UsadosCota(asig, otros);
    GradoCota(aristas, nodo);
    if ColorPara(asig, aristas, nodo).None? {
      PaletaLlena(Usados(asig, vecinos));
    }
  }

  /** When every node has degree at most five, every node gets a colour. */
  lemma ColorearCompleto(orden: seq<string>, aristas: seq<Arista>)
    requires SinRepetir(orden)
    requires forall i :: 0 <= i < |orden| ==> Grado(aristas, orden[i]) <= 5
    ensures forall n :: n in orden ==> Get(Colorear(orden, aristas), n).Some?
  {
    forall n | n in orden ensures Get(Colorear(orden, aristas), n).Some? {
      var i :| 0 <= i < |orden| && orden[i] == n;
      ColorDeCadaNodo(orden, aristas, i);
      assert n !in orden[..i];
      HayColorLibre(Colorear(orden[..i], aristas), aristas, n);
    }
  }

  // ---------------------------------------------------------------------------
  // The properties of `colorear_grafo_welch_powell`

  /** No two adjacent nodes share a colour. */
  lemma WelchPowellSinConflictos(nodos: seq<string>, aristas: seq<Arista>, a: string, b: string)
    requires a != b && b in Vecinos(aristas, a)
    requires Get(WelchPowell(nodos, aristas), a).Some? && Get(WelchPowell(nodos, aristas), b).Some?
    ensures Get(WelchPowell(nodos, aristas), a) != Get(WelchPowell(nodos, aristas), b)
  {
    ColorearSinConflictos(OrdenWelchPowell(nodos, aristas), aristas);
  }

  /** The node at position `i` of the processing order gets the first colour its
      already coloured neighbours leave free. */
  lemma WelchPowellPrimerLibre(nodos: seq<string>, aristas: seq<Arista>, i: nat)
    requires i < |OrdenWelchPowell(nodos, aristas)|
    ensures var orden := OrdenWelchPowell(nodos, aristas);
            Get(WelchPowell(nodos, aristas), orden[i]) == ColorPara(Colorear(orden[..i], aristas), aristas, orden[i])
  {
    ColorDeCadaNodo(OrdenWelchPowell(nodos, aristas), aristas, i);
  }

  /** With every degree at most five, every listed node and every wall endpoint is
      coloured. */
  lemma WelchPowellCompleto(nodos: seq<string>, aristas: seq<Arista>)
    requires forall x :: x in NodosGrafo(nodos, aristas) ==> Grado(aristas, x) <= 5
    ensures forall x :: x in nodos ==> Get(WelchPowell(nodos, aristas), x).Some?
    ensures forall e :: e in aristas ==>
              Get(WelchPowell(nodos, aristas), e.0).Some? && Get(WelchPowell(nodos, aristas), e.1).Some?
  {
    var orden := OrdenWelchPowell(nodos, aristas);
    assert forall i :: 0 <= i < |orden| ==> orden[i] in NodosGrafo(nodos, aristas);
    ColorearCompleto(orden, aristas);
  }

  /** A building's spaces, which have distinct ids, come first in the graph and in
      registry order. */
  lemma EspaciosPrimero<V>(espacios: Dict<string, V>, aristas: seq<Arista>)
    requires DistinctKeys(espacios)
    ensures |espacios| <= |NodosGrafo(Keys(espacios), aristas)|
    ensures NodosGrafo(Keys(espacios), aristas)[..|espacios|] == Keys(espacios)
  {
    NodosEnOrden(Keys(espacios), aristas);
  }

  // ---------------------------------------------------------------------------
  // The loops

  /** `colorear_grafo_welch_powell(nodos, aristas)`: only the keys of `aristas` are read. */
  method ColorearGrafoWelchPowell(nodos: seq<string>, aristas: Dict<Arista, string>)
    returns (asignacionColores: Dict<string, Color>)
    ensures asignacionColores == WelchPowell(nodos, Keys(aristas))
  {
    var claves := Keys(aristas);
    var nodosOrdenados := OrdenWelchPowell(nodos, claves);
    asignacionColores := [];
    for i := 0 to |nodosOrdenados|
      invariant asignacionColores == Colorear(nodosOrdenados[..i], claves)
    {
      var nodo := nodosOrdenados[i];
      var vecinos := Vecinos(claves, nodo);
      var coloresUsados := Usados(asignacionColores, vecinos);
      ghost var antes := asignacionColores;
      var k := 0;
      while k < |Paleta|
        invariant 0 <= k <= |Paleta|
        invariant asignacionColores == antes
        invariant PrimerLibreDesde(coloresUsados, k) == PrimerLibre(coloresUsados)
      {
        if Paleta[k] !in coloresUsados {
          asignacionColores := Put(asignacionColores, nodo, Paleta[k]);
          break;
        }
        k := k + 1;
      }
      assert asignacionColores == Paso(antes, claves, nodo);
      ColorearPaso(nodosOrdenados, claves, i);
    }
    assert nodosOrdenados[..|nodosOrdenados|] == nodosOrdenados;
  }

  /** `obtener_colores_vecinos`: the colouring of the building's space ids, in registry
      order, returned as it is. */
  method ObtenerColoresVecinos(edificio: Edificios.Edificio, aristas: Dict<Arista, string>)
    returns (colores: Dict<string, Color>)
    ensures colores == WelchPowell(Keys(edificio.espacios), Keys(aristas))
  {
    var nodos := Keys(edificio.espacios);
    colores := ColorearGrafoWelchPowell(nodos, aristas);
  }
}
