/** String helpers the organizer relies on: ASCII lower-casing, the
    `suffix` / `stem` split of a file name as the path library computes it,
    and the decimal rendering of a positive counter. */
module Texto {

  /** Lower-cases one ASCII letter; every other character is left alone. */
  function MinusculaChar(c: char): char
  {
    if 'A' <= c <= 'Z' then (c as int - 'A' as int + 'a' as int) as char else c
  }

  /** `s.lower()`, restricted to ASCII letters. */
  function Minusculas(s: string): (r: string)
    ensures |r| == |s|
  {
    if s == [] then [] else [MinusculaChar(s[0])] + Minusculas(s[1..])
  }

  /** Lower-casing works character by character. */
  lemma {:induction false} MinusculasIndice(s: string)
    ensures forall i :: 0 <= i < |s| ==> Minusculas(s)[i] == MinusculaChar(s[i])
  {
    if s != [] {
      MinusculasIndice(s[1..]);
    }
  }

  /** `s.startswith(p)` */
  predicate EmpiezaCon(s: string, p: string)
  {
    |p| <= |s| && s[..|p|] == p
  }

  /** Index of the last '.' in `s`, or -1 when there is none (`str.rfind('.')`). */
  function UltimoPunto(s: string): (i: int)
    ensures -1 <= i < |s|
    ensures 0 <= i ==> s[i] == '.'
  {
    if |s| == 0 then -1
    else if s[|s| - 1] == '.' then |s| - 1
    else UltimoPunto(s[..|s| - 1])
  }

  /** True when the last dot really starts an extension: it is neither the
      first character (a hidden name such as ".bashrc") nor the last one. */
  predicate TieneSufijo(nombre: string)
  {
    var i := UltimoPunto(nombre);
    0 < i < |nombre| - 1
  }

  /** `Path(nombre).suffix`: from the last dot to the end, or empty. */
  function Sufijo(nombre: string): (r: string)
    ensures r == [] || (r[0] == '.' && 2 <= |r| < |nombre|)
  {
    if TieneSufijo(nombre) then nombre[UltimoPunto(nombre)..] else ""
  }

  /** `Path(nombre).stem`: the name without its suffix. */
  function Raiz(nombre: string): string
  {
    if TieneSufijo(nombre) then nombre[..UltimoPunto(nombre)] else nombre
  }

  /** No dot follows the one `UltimoPunto` finds. */
  lemma {:induction false} UltimoPuntoEsUltimo(s: string)
    ensures forall j :: UltimoPunto(s) < j < |s| ==> s[j] != '.'
  {
    if |s| > 0 && s[|s| - 1] != '.' {
      UltimoPuntoEsUltimo(s[..|s| - 1]);
    }
  }

  /** A non-empty suffix holds exactly one dot, at its start. */
  lemma SufijoUnSoloPunto(nombre: string)
    ensures forall j :: 0 < j < |Sufijo(nombre)| ==> Sufijo(nombre)[j] != '.'
  {
    UltimoPuntoEsUltimo(nombre);
  }

  /** The other half of the suffix: when the last dot of a name sits
      strictly inside it, the suffix runs from that dot to the end, so
      "photo.jpg" has suffix ".jpg" and "a.tar.gz" has ".gz". */
  lemma SufijoCompleto(nombre: string, i: int)
    requires 0 < i < |nombre| - 1 && nombre[i] == '.'
    requires forall j :: i < j < |nombre| ==> nombre[j] != '.'
    ensures Sufijo(nombre) == nombre[i..]
  {
    UltimoPuntoEsUltimo(nombre);
    assert UltimoPunto(nombre) == i;
  }

  /** The stem followed by the suffix gives back the whole name, and a
      non-empty suffix leaves a non-empty stem. */
  lemma RaizMasSufijo(nombre: string)
    ensures Raiz(nombre) + Sufijo(nombre) == nombre
    ensures Sufijo(nombre) != [] ==> Raiz(nombre) != []
  {
  }

  lemma {:induction false} UltimoPuntoMinusculas(s: string)
    ensures UltimoPunto(Minusculas(s)) == UltimoPunto(s)
  {
    if |s| > 0 {
      MinusculasIndice(s);
      MinusculasIndice(s[..|s| - 1]);
      assert Minusculas(s)[..|s| - 1] == Minusculas(s[..|s| - 1]);
      UltimoPuntoMinusculas(s[..|s| - 1]);
    }
  }

  /** Lower-casing a name and then taking its suffix is the same as taking
      the suffix and lower-casing it: '.' is not a letter. */
  lemma SufijoMinusculas(nombre: string)
    ensures Sufijo(Minusculas(nombre)) == Minusculas(Sufijo(nombre))
  {
    UltimoPuntoMinusculas(nombre);
    if TieneSufijo(nombre) {
      var i := UltimoPunto(nombre);
      MinusculasIndice(nombre);
      MinusculasIndice(nombre[i..]);
      assert Minusculas(nombre)[i..] == Minusculas(nombre[i..]);
    }
  }

  /** Lower-casing is idempotent. */
  lemma MinusculasIdempotente(s: string)
    ensures Minusculas(Minusculas(s)) == Minusculas(s)
  {
    MinusculasIndice(s);
    MinusculasIndice(Minusculas(s));
  }

  /** The ASCII digit for `d`. */
  function Digito(d: nat): char
    requires d < 10
  {
    ('0' as int + d) as char
  }

  /** The decimal notation of `n`, as an f-string renders an int. */
  function Decimal(n: nat): (s: string)
    ensures 1 <= |s|
    ensures n >= 10 ==> 2 <= |s|
  {
    if n < 10 then [Digito(n)] else Decimal(n / 10) + [Digito(n % 10)]
  }

  /** Two different numbers never print alike. */
  lemma {:induction false} DecimalInyectivo(a: nat, b: nat)
    requires Decimal(a) == Decimal(b)
    ensures a == b
  {
    if a < 10 && b < 10 {
      assert Decimal(a)[0] == Digito(a);
    } else if a >= 10 && b >= 10 {
      var da, db := Decimal(a), Decimal(b);
      assert da[|da| - 1] == Digito(a % 10);
      assert db[|db| - 1] == Digito(b % 10);
      assert da[..|da| - 1] == Decimal(a / 10);
      assert db[..|db| - 1] == Decimal(b / 10);
      DecimalInyectivo(a / 10, b / 10);
    }
  }
}
