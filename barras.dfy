/** Bars (`LCD_Barra`): a value between a minimum and a maximum shown as a horizontal filled
    length and as text (a prefix, the integer part and at most one truncated decimal digit). */
module Barras {
  import opened LcdBase

  /** The decimal digit character for `d`. */
  function DigitChar(d: int): (c: char)
    requires 0 <= d <= 9
    ensures '0' <= c <= '9' && c as int - '0' as int == d
  {
    (48 + d) as char
  }

  predicate IsDigits(s: string) {
    forall i :: 0 <= i < |s| ==> '0' <= s[i] <= '9'
  }

  /** `printf("%d")` of a non-negative value: decimal digits without leading zeros. */
  function NatText(n: nat): (s: string)
    ensures |s| >= 1 && IsDigits(s)
    ensures s[0] == '0' ==> n == 0
    decreases n
  {
    if n < 10 then [DigitChar(n)] else NatText(n / 10) + [DigitChar(n % 10)]
  }

  /** The number a string of decimal digits denotes. */
  function DigitsValue(s: string): nat
    requires IsDigits(s)
    decreases |s|
  {
    if s == [] then 0 else 10 * DigitsValue(s[..|s| - 1]) + (s[|s| - 1] as int - '0' as int)
  }

  /** Reading the digits back gives the number that was printed. */
  lemma {:induction false} NatTextRoundTrip(n: nat)
    ensures DigitsValue(NatText(n)) == n
    decreases n
  {
    if n >= 10 {
      var s := NatText(n);
      assert s[..|s| - 1] == NatText(n / 10);
      NatTextRoundTrip(n / 10);
    }
  }

  /** `printf("%d")` of any value: a minus sign before the digits of a negative value. */
  function IntText(n: int): string {
    if n < 0 then "-" + NatText(-n) else NatText(n)
  }

  /** The number an optional minus sign followed by decimal digits denotes. */
  function IntValue(s: string): int
    requires |s| >= 1
    requires if s[0] == '-' then IsDigits(s[1..]) else IsDigits(s)
  {
    if s[0] == '-' then -(DigitsValue(s[1..]) as int) else DigitsValue(s)
  }

  /** Reading a printed integer back gives the integer. */
  lemma {:induction false} IntTextRoundTrip(n: int)
    ensures var s := IntText(n); |s| >= 1 && (if s[0] == '-' then IsDigits(s[1..]) else IsDigits(s))
    ensures IntValue(IntText(n)) == n
  {
    var s := IntText(n);
    if n < 0 {
      var d := NatText(-n);
      assert s == "-" + d;
      assert s[1..] == d;
      NatTextRoundTrip(-n);
    } else {
      assert s == NatText(n);
      assert s[0] != '-';
      NatTextRoundTrip(n);
    }
  }

  /** `parteDecimal` of `LCD_atiendeBarra`: the fractional part times ten, truncated, with its
      sign dropped. */
  function PrimerDecimal(valor: real): (d: int)
    ensures 0 <= d <= 9
  {
    var bruto := TruncReal((valor - TruncReal(valor) as real) * 10.0);
    if bruto < 0 then -bruto else bruto
  }

  /** For a non-negative value, the integer part and the digit together are the value
      truncated to tenths. */
  lemma DecimasNoNegativas(v: real)
    requires v >= 0.0
    ensures TruncReal(v) * 10 + PrimerDecimal(v) == TruncReal(v * 10.0)
  {
    var n := TruncReal(v);
    var b := TruncReal((v - n as real) * 10.0);
    var m := TruncReal(v * 10.0);
    assert b >= 0;
    assert (b + 10 * n) as real <= v * 10.0 < (b + 10 * n) as real + 1.0;
    assert m as real <= v * 10.0 < m as real + 1.0;
  }

  /** The digit is the first decimal digit of the magnitude, truncated rather than rounded,
      and the integer part keeps the sign: integer part and digit together are always the
      value truncated toward zero to tenths. */
  lemma DecimasTruncadas(v: real)
    ensures PrimerDecimal(v) == PrimerDecimal(-v)
    ensures TruncReal(v) * 10 + (if v < 0.0 then -PrimerDecimal(v) else PrimerDecimal(v)) == TruncReal(v * 10.0)
  {
    if v < 0.0 {
      DecimasNoNegativas(-v);
      assert TruncReal(v) == -TruncReal(-v);
      assert TruncReal(v * 10.0) == -TruncReal(-v * 10.0);
    } else if v > 0.0 {
      DecimasNoNegativas(v);
      assert TruncReal(-v) == -TruncReal(v);
    } else {
      DecimasNoNegativas(v);
    }
  }

  /** The text `LCD_atiendeBarra` prints before padding: the prefix, the integer part of the
      value truncated toward zero, and a point and the first decimal digit when that digit is
      not 0. */
  function TextoValor(prefijo: string, valor: real): string {
    var d := PrimerDecimal(valor);
    prefijo + IntText(TruncReal(valor)) + (if d > 0 then "." + [DigitChar(d)] else "")
  }

  /** A value strictly between -1 and 0 with a non-zero first decimal is printed without its
      minus sign, because its integer part is 0 (for example -0.5 shows as "0.5"). */
  lemma SignoPerdido(prefijo: string, valor: real)
    requires -1.0 < valor < 0.0 && PrimerDecimal(valor) > 0
    ensures TextoValor(prefijo, valor) == prefijo + "0." + [DigitChar(PrimerDecimal(valor))]
    ensures '-' !in TextoValor(prefijo, valor)[|prefijo|..]
  {
    assert TruncReal(valor) == 0;
    var s := TextoValor(prefijo, valor);
    assert s[|prefijo|..] == "0." + [DigitChar(PrimerDecimal(valor))];
  }

  /** Examples: the digit is truncated, not rounded; a zero digit prints no point; the sign of
      -1.5 survives and that of -0.5 does not. */
  lemma TextoValorEjemplos()
    ensures TextoValor("Dato:", 2.75) == "Dato:2.7"
    ensures TextoValor("", 3.04) == "3"
    ensures TextoValor("", -1.5) == "-1.5"
    ensures TextoValor("", -0.5) == "0.5"
  {
    assert TruncReal(2.75) == 2 && TruncReal((2.75 - 2.0) * 10.0) == 7;
    assert TruncReal(3.04) == 3 && TruncReal((3.04 - 3.0) * 10.0) == 0;
    assert TruncReal(-1.5) == -1 && TruncReal((-1.5 - (-1.0)) * 10.0) == -5;
    assert TruncReal(-0.5) == 0 && TruncReal((-0.5 - 0.0) * 10.0) == -5;
  }

  /** Points of bar per unit of value, `largo / (maximo - minimo)`, as the initialisation
      stores it in `escala`. */
  function Escala(minimo: real, maximo: real, largo: nat): real
    requires maximo != minimo
  {
    largo as real / (maximo - minimo)
  }

  /** The scale has the sign of the range, and spans the range in exactly `largo` points. */
  lemma EscalaSigno(minimo: real, maximo: real, largo: nat)
    requires maximo != minimo
    ensures minimo < maximo ==> Escala(minimo, maximo, largo) >= 0.0
    ensures maximo < minimo ==> Escala(minimo, maximo, largo) <= 0.0
    ensures (maximo - minimo) * Escala(minimo, maximo, largo) == largo as real
  {
  }

  /** The bar's filled length before truncation, `(valor - minimo) * escala`. */
  function Relleno(valor: real, minimo: real, maximo: real, largo: nat): real
    requires maximo != minimo
  {
    (valor - minimo) * Escala(minimo, maximo, largo)
  }

  /** The bar's filled length, `(valor - minimo) * largo / (maximo - minimo)` truncated toward
      zero as the store into `uint8_t puntosValor` does. */
  function Puntos(valor: real, minimo: real, maximo: real, largo: nat): int
    requires maximo != minimo
  {
    TruncReal(Relleno(valor, minimo, maximo, largo))
  }

  /** The minimum fills nothing and the maximum fills the whole bar. */
  lemma PuntosExtremos(minimo: real, maximo: real, largo: nat)
    requires maximo != minimo
    ensures Puntos(minimo, minimo, maximo, largo) == 0
    ensures Puntos(maximo, minimo, maximo, largo) == largo
  {
    EscalaSigno(minimo, maximo, largo);
  }

  /** A value between the minimum and the maximum (in either order) fills between 0 and the
      whole length of the bar. */
  lemma PuntosEnRango(valor: real, minimo: real, maximo: real, largo: nat)
    requires maximo != minimo
    requires minimo <= valor <= maximo || maximo <= valor <= minimo
    ensures 0 <= Puntos(valor, minimo, maximo, largo) <= largo
  {
    RellenoEnRango(valor, minimo, maximo, largo);
    TruncMono(0.0, Relleno(valor, minimo, maximo, largo));
    TruncMono(Relleno(valor, minimo, maximo, largo), largo as real);
  }

  /** The same bound before truncation. */
  lemma RellenoEnRango(valor: real, minimo: real, maximo: real, largo: nat)
    requires maximo != minimo
    requires minimo <= valor <= maximo || maximo <= valor <= minimo
    ensures 0.0 <= Relleno(valor, minimo, maximo, largo) <= largo as real
  {
    var e := Escala(minimo, maximo, largo);
    var r := Relleno(valor, minimo, maximo, largo);
    assert r == (valor - minimo) * e;
    EscalaSigno(minimo, maximo, largo);
    if minimo < maximo {
      EntreCeroYLargo(valor - minimo, maximo - minimo, e, largo as real);
    } else {
      EntreCeroYLargo(minimo - valor, minimo - maximo, -e, largo as real);
      assert (minimo - valor) * -e == r;
    }
  }

  /** A share `a` of a span `b` that maps onto `l` points maps onto between 0 and `l` points. */
  lemma EntreCeroYLargo(a: real, b: real, e: real, l: real)
    requires 0.0 <= a <= b && 0.0 <= e && b * e == l
    ensures 0.0 <= a * e <= l
  {
    MulMono(0.0, a, e);
    MulMono(a, b, e);
  }

  lemma MulMono(a: real, b: real, e: real)
    requires a <= b && 0.0 <= e
    ensures a * e <= b * e
  {
    assert (b - a) * e >= 0.0;
  }

  /** With the maximum above the minimum, a larger value is not filled less before truncation. */
  lemma RellenoMonotono(v1: real, v2: real, minimo: real, maximo: real, largo: nat)
    requires minimo < maximo && v1 <= v2
    ensures Relleno(v1, minimo, maximo, largo) <= Relleno(v2, minimo, maximo, largo)
  {
    var e := Escala(minimo, maximo, largo);
    EscalaSigno(minimo, maximo, largo);
    MulMono(v1 - minimo, v2 - minimo, e);
    assert Relleno(v1, minimo, maximo, largo) == (v1 - minimo) * e;
    assert Relleno(v2, minimo, maximo, largo) == (v2 - minimo) * e;
  }

  /** With the maximum above the minimum, a larger value never fills less. */
  lemma PuntosMonotonos(v1: real, v2: real, minimo: real, maximo: real, largo: nat)
    requires minimo < maximo && v1 <= v2
    ensures Puntos(v1, minimo, maximo, largo) <= Puntos(v2, minimo, maximo, largo)
  {
    RellenoMonotono(v1, v2, minimo, maximo, largo);
    TruncMono(Relleno(v1, minimo, maximo, largo), Relleno(v2, minimo, maximo, largo));
  }

  /** Range [0, 100] on a 120-point bar: the value 25 fills 30 points. */
  lemma PuntosEjemplo()
    ensures Puntos(25.0, 0.0, 100.0, 120) == 30
  {
    assert (25.0 - 0.0) * (120 as real / (100.0 - 0.0)) == 30.0;
  }

  function Max(a: int, b: int): int {
    if a >= b then a else b
  }

  class Barra {
    var texto: string
    var minimo: real
    var maximo: real
    var valor: real
    var escala: real
    var x: U16
    var y: U16
    var margenTextoX: U8
    var margenTextoY: U8
    var largo: U8
    var grosor: U8
    var inicializada: U8
    var visible: U8
    var colorTexto: Color
    var colorBarra: Color
    var colorFondo: Color
    var juegoCaracteres: Font
    var separacion: U8

    /** The prefix is a C string (no NUL inside, so `strlen` sees all of it), the range is not
        degenerate, `escala` converts a value difference into points of bar length, and the
        text margins are those set at initialisation. */
    ghost predicate Valid()
      reads this
    {
      '\0' !in texto &&
      maximo != minimo &&
      escala == Escala(minimo, maximo, largo) &&
      margenTextoX == 5 &&
      margenTextoY == ToU8(CDiv(grosor - juegoCaracteres.alto, 2))
    }

    /** `LCD_inicializaBarra`. The value starts at the minimum. `visible` is not set: it keeps
        whatever the record held. */
    constructor (texto: string, minimo: real, maximo: real, largo: U8, grosor: U8, x: U16, y: U16,
                 colorTexto: Color, colorBarra: Color, colorFondo: Color,
                 juegoCaracteres: Font, separacion: U8)
      requires '\0' !in texto && maximo != minimo
      ensures Valid()
      ensures this.texto == texto && this.minimo == minimo && this.maximo == maximo && valor == minimo
      ensures this.largo == largo && this.grosor == grosor && this.x == x && this.y == y
      ensures this.colorTexto == colorTexto && this.colorBarra == colorBarra && this.colorFondo == colorFondo
      ensures this.juegoCaracteres == juegoCaracteres && this.separacion == separacion
      ensures inicializada == 0
    {
      this.texto := texto;
      this.minimo := minimo;
      this.valor := minimo;
      this.maximo := maximo;
      this.largo := largo;
      this.grosor := grosor;
      this.escala := Escala(minimo, maximo, largo);
      this.x := x;
      this.y := y;
      this.colorTexto := colorTexto;
      this.colorBarra := colorBarra;
      this.colorFondo := colorFondo;
      this.juegoCaracteres := juegoCaracteres;
      this.separacion := separacion;
      this.inicializada := 0;
      this.margenTextoX := 5;
      this.margenTextoY := ToU8(CDiv(grosor - juegoCaracteres.alto, 2));
    }

    /** `LCD_setVisibilidadBarra`: the `int` argument is stored in a `uint8_t`. */
    method SetVisibilidad(v: int)
      requires Valid()
      modifies this`visible
      ensures Valid() && visible == ToU8(v)
    {
      visible := ToU8(v);
    }

    /** `LCD_setColorTextoBarra`. */
    method SetColorTexto(c: Color)
      requires Valid()
      modifies this`colorTexto
      ensures Valid() && colorTexto == c
    {
      colorTexto := c;
    }

    /** `LCD_setColorBarra`. */
    method SetColorBarra(c: Color)
      requires Valid()
      modifies this`colorBarra
      ensures Valid() && colorBarra == c
    {
      colorBarra := c;
    }

    /** `LCD_setColorFondoBarra`. */
    method SetColorFondo(c: Color)
      requires Valid()
      modifies this`colorFondo
      ensures Valid() && colorFondo == c
    {
      colorFondo := c;
    }

    /** `LCD_setValorBarra`. */
    method SetValor(v: real)
      requires Valid()
      modifies this`valor
      ensures Valid() && valor == v
    {
      valor := v;
    }

    /** `LCD_atiendeBarra`. An invisible bar clears its whole footprint to 0x00000000. A visible
        one draws the filled part of the bar in the bar colour, the rest of the bar right
        after it in the background colour, and the value text, padded with spaces to at least
        6 characters, opaque and in colour. The filled length must be convertible to the
        `uint8_t` it is stored in: its integral part must lie between 0 and 255. */
    method Atiende() returns (cmds: seq<DrawCmd>)
      requires Valid()
      requires visible != 0 ==> -1.0 < (valor - minimo) * escala < 256.0
      ensures visible == 0 ==> cmds == [FillRectOpaque(x, y, largo, grosor, 0)]
      ensures visible != 0 ==>
        var p := Puntos(valor, minimo, maximo, largo);
        var t := TextoValor(texto, valor);
        |cmds| == 3 &&
        cmds[0] == FillRectOpaque(x, y, p, grosor, colorBarra) &&
        cmds[1] == FillRectOpaque(x + p, y, largo - p, grosor, colorFondo) &&
        cmds[0].w + cmds[1].w == largo &&
        cmds[2].DrawText? && cmds[2].x == x + 5 && cmds[2].y == y + margenTextoY &&
        cmds[2].color == colorTexto && cmds[2].spacing == separacion &&
        cmds[2].font == juegoCaracteres && cmds[2].look == Look(false, 100) &&
        |cmds[2].text| == Max(6, |t|) && cmds[2].text[..|t|] == t &&
        forall i :: |t| <= i < |cmds[2].text| ==> cmds[2].text[i] == ' '
    {
      if visible != 0 {
        assert (valor - minimo) * escala == Relleno(valor, minimo, maximo, largo);
        var puntosValor: U8 := TruncReal((valor - minimo) * escala);
        assert puntosValor == Puntos(valor, minimo, maximo, largo);
        cmds := [FillRectOpaque(x, y, puntosValor, grosor, colorBarra),
                 FillRectOpaque(x + puntosValor, y, largo - puntosValor, grosor, colorFondo)];
        var parteEntera := TruncReal(valor);
        var parteDecimal := TruncReal((valor - parteEntera as real) * 10.0);
        if parteDecimal < 0 {
          parteDecimal := -parteDecimal;
        }
        var cadena: string;
        if parteDecimal > 0 {
          cadena := texto + IntText(parteEntera) + "." + IntText(parteDecimal);
        } else {
          cadena := texto + IntText(parteEntera);
        }
        ghost var t := cadena;
        assert t == TextoValor(texto, valor);
        while |cadena| < 6
          invariant |t| <= |cadena| <= Max(6, |t|)
          invariant cadena[..|t|] == t
          invariant forall i :: |t| <= i < |cadena| ==> cadena[i] == ' '
          decreases 6 - |cadena|
        {
          cadena := cadena + " ";
        }
        cmds := cmds + [DrawText(x + margenTextoX, y + margenTextoY, cadena, colorTexto, separacion,
                                 juegoCaracteres, Look(false, 100))];
      } else {
        cmds := [FillRectOpaque(x, y, largo, grosor, 0)];
      }
    }
  }
}
