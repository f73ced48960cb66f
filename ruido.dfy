/** A noise source (ruido.py): a plain record. */
module Ruidos {
  import PyStr

  /** `Ruido(id_ruido, frecuencia, intensidad)`; the frequency is in Hz. */
  datatype Ruido = Ruido(idRuido: string, frecuencia: int, intensidad: real)

  /** The absorption-table key a source's frequency is looked up under,
      `str(frecuencia) + 'hz'`. */
  function BandKey(frecuencia: int): string {
    PyStr.IntStr(frecuencia) + "hz"
  }

  /** The key is "500hz" exactly for 500 Hz and "2000hz" exactly for 2000 Hz. */
  lemma BandKeyOf(f: int)
    ensures BandKey(f) == "500hz" <==> f == 500
    ensures BandKey(f) == "2000hz" <==> f == 2000
  {
    assert PyStr.NatStr(5) == "5";
    assert PyStr.NatStr(50) == "50";
    assert PyStr.NatStr(500) == "500";
    assert PyStr.NatStr(2) == "2";
    assert PyStr.NatStr(20) == "20";
    assert PyStr.NatStr(200) == "200";
    assert PyStr.NatStr(2000) == "2000";
    var s := PyStr.IntStr(f);
    assert BandKey(f)[..|s|] == s;
    if BandKey(f) == "500hz" {
      assert |s| == 3 && s == "500";
      PyStr.IntStrInjective(f, 500);
    }
    if BandKey(f) == "2000hz" {
      assert |s| == 4 && s == "2000";
      PyStr.IntStrInjective(f, 2000);
    }
  }

  /** `intensidad * absorcion`: the part of a source's intensity that a wall of the given
      absorption coefficient lets through. */
  function Atenuado(intensidad: real, absorcion: real): real {
    intensidad * absorcion
  }

  /** A non-negative intensity through a non-negative coefficient stays non-negative. */
  lemma AtenuadoNoNegativo(intensidad: real, absorcion: real)
    requires intensidad >= 0.0 && absorcion >= 0.0
    ensures Atenuado(intensidad, absorcion) >= 0.0
  {
  }
}
