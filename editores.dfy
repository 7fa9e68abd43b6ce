/** Value editors (`LCD_Editor`): a number shown as text in a box whose width is split into four
    zones; a press in a zone applies, once per press, a major decrement, a minor decrement, a
    minor increment or a major increment, from left to right. */
module Editores {
  import opened LcdBase
  import opened PressLatch

  /** The four zones, from left to right. */
  datatype Zona = DecrementoMayor | DecrementoMenor | IncrementoMenor | IncrementoMayor

  /** Position of a zone from the left, 0 to 3. */
  function Rango(z: Zona): nat {
    match z
    case DecrementoMayor => 0
    case DecrementoMenor => 1
    case IncrementoMenor => 2
    case IncrementoMayor => 3
  }

  /** The zone the horizontal touch coordinate `xp` falls in, tested in the order
      `LCD_atiendeEditor` tests them: the first zone is open on both sides, the other three
      include their left boundary and exclude their right one. */
  function ZonaDe(xp: int, x: int, x25: int, x50: int, x75: int, x100: int): Option<Zona> {
    if xp > x && xp < x25 then Some(DecrementoMayor)
    else if xp >= x25 && xp < x50 then Some(DecrementoMenor)
    else if xp >= x50 && xp < x75 then Some(IncrementoMenor)
    else if xp >= x75 && xp < x100 then Some(IncrementoMayor)
    else None
  }

  /** The change a zone applies to the value: the minor amount belongs to the two central
      zones and the major amount to the two extremes; the left half subtracts, the right half
      adds. */
  function Delta(z: Zona, menor: real, mayor: real): real {
    match z
    case DecrementoMayor => -mayor
    case DecrementoMenor => -menor
    case IncrementoMenor => menor
    case IncrementoMayor => mayor
  }

  /** The zone boundaries `LCD_inicializaEditor` stores, in `uint16_t` fields. */
  function Limites(x: U16, ancho: U16): (l: (U16, U16, U16, U16)) {
    (ToU16(x + ancho / 4), ToU16(x + ancho / 2), ToU16(x + ancho * 3 / 4), ToU16(x + ancho))
  }

  /** When the editor does not run past coordinate 65535, the boundaries are in order, the
      first zone is exactly a quarter of the width (rounded down) and each of the other three
      is a quarter or a quarter plus one point. */
  lemma LimitesCuartos(x: U16, ancho: U16)
    requires x + ancho < 0x1_0000
    ensures var (x25, x50, x75, x100) := Limites(x, ancho);
      x <= x25 <= x50 <= x75 <= x100 == x + ancho &&
      x25 - x == ancho / 4 &&
      ancho / 4 <= x50 - x25 <= ancho / 4 + 1 &&
      ancho / 4 <= x75 - x50 <= ancho / 4 + 1 &&
      ancho / 4 <= x100 - x75 <= ancho / 4 + 1
  {
  }

  /** The four zones cover exactly the inside of the editor's horizontal extent, edges
      excluded, except in an editor narrower than 4 points: there the first zone is empty and
      the left edge itself falls in a later zone, whose left boundary is inclusive. */
  lemma ZonasCubren(x: U16, ancho: U16, xp: int)
    requires x + ancho < 0x1_0000
    ensures var (x25, x50, x75, x100) := Limites(x, ancho);
      ZonaDe(xp, x, x25, x50, x75, x100).Some? <==>
        (x < xp < x + ancho || (xp == x && 1 <= ancho <= 3))
  {
    LimitesCuartos(x, ancho);
  }

  /** The cascade of tests agrees with a direct description of the zones: a touch left of
      the middle subtracts and one right of it adds, and the major amount applies in the
      outer quarters and the minor amount in the two inner ones. */
  lemma ZonaSentidoYMagnitud(x: U16, ancho: U16, xp: int, menor: real, mayor: real)
    requires x + ancho < 0x1_0000
    ensures var (x25, x50, x75, x100) := Limites(x, ancho);
      var z := ZonaDe(xp, x, x25, x50, x75, x100);
      z.Some? ==>
        Delta(z.value, menor, mayor) ==
          (if xp < x50 then -1.0 else 1.0) * (if xp < x25 || xp >= x75 then mayor else menor)
  {
    LimitesCuartos(x, ancho);
  }

  /** Zones follow one another from left to right: a touch further right never falls in a
      zone further left. */
  lemma ZonasOrdenadas(x: U16, ancho: U16, xp1: int, xp2: int)
    requires x + ancho < 0x1_0000 && xp1 <= xp2
    ensures var (x25, x50, x75, x100) := Limites(x, ancho);
      var z1, z2 := ZonaDe(xp1, x, x25, x50, x75, x100), ZonaDe(xp2, x, x25, x50, x75, x100);
      z1.Some? && z2.Some? ==> Rango(z1.value) <= Rango(z2.value)
  {
    LimitesCuartos(x, ancho);
  }

  /** What decides the zone a touch selects: the stored horizontal zone boundaries and the
      vertical extent of the editor. */
  datatype Marco = Marco(x: int, x25: int, x50: int, x75: int, x100: int, y: int, alto: int)

  /** The zone a frame's touch selects in `LCD_atiendeEditor`: both coordinates are first
      stored in `uint16_t` variables, the press must be strictly inside vertically, and then
      the horizontal coordinate picks the zone. There is no enablement or visibility test. */
  function ZonaEn(m: Marco, t: Touch): Option<Zona> {
    var xp, yp := ToU16(t.tx), ToU16(t.ty);
    if t.pulsando && yp > m.y && yp < m.y + m.alto then ZonaDe(xp, m.x, m.x25, m.x50, m.x75, m.x100) else None
  }

  /** Zone selected in each of the given frames. */
  function ZonasEn(m: Marco, ts: seq<Touch>): (zs: seq<Option<Zona>>)
    ensures |zs| == |ts| && forall i :: 0 <= i < |ts| ==> zs[i] == ZonaEn(m, ts[i])
  {
    seq(|ts|, i requires 0 <= i < |ts| => ZonaEn(m, ts[i]))
  }

  /** Whether some zone is pressed, frame by frame. */
  function Pulsados(zs: seq<Option<Zona>>): (a: seq<bool>)
    ensures |a| == |zs| && forall i :: 0 <= i < |zs| ==> a[i] == zs[i].Some?
  {
    seq(|zs|, i requires 0 <= i < |zs| => zs[i].Some?)
  }

  /** Total change of the value over several frames: the change of the zone touched in each
      frame that fires. */
  function SumaDeltas(f: seq<bool>, zs: seq<Option<Zona>>, menor: real, mayor: real): real
    requires |f| == |zs|
    decreases |f|
  {
    if f == [] then 0.0
    else
      SumaDeltas(f[..|f| - 1], zs[..|zs| - 1], menor, mayor) +
      (if f[|f| - 1] && zs[|zs| - 1].Some? then Delta(zs[|zs| - 1].value, menor, mayor) else 0.0)
  }

  /** One more frame adds its own change to the total. */
  lemma SumaDeltasSnoc(f: seq<bool>, zs: seq<Option<Zona>>, b: bool, z: Option<Zona>, menor: real, mayor: real)
    requires |f| == |zs|
    ensures SumaDeltas(f + [b], zs + [z], menor, mayor) ==
      SumaDeltas(f, zs, menor, mayor) + (if b && z.Some? then Delta(z.value, menor, mayor) else 0.0)
  {
    assert (f + [b])[..|f|] == f;
    assert (zs + [z])[..|zs|] == zs;
  }

  lemma PrefixSnoc<T>(s: seq<T>, i: nat)
    requires i < |s|
    ensures s[..i + 1] == s[..i] + [s[i]]
  {
  }

  /** One frame of the display loop over the zones `zs`, with the latch `p0` before the first:
      the frame fires when a zone is touched with the latch clear, its change joins the total
      only then, and the latch becomes whether a zone is touched. */
  lemma PasoFrame(p0: bool, zs: seq<Option<Zona>>, i: nat, menor: real, mayor: real)
    requires i < |zs|
    ensures var act := Pulsados(zs);
      var c := zs[i].Some? && !Latch(p0, act[..i]);
      Fires(p0, act[..i + 1]) == Fires(p0, act[..i]) + [c] &&
      Latch(p0, act[..i + 1]) == zs[i].Some? &&
      SumaDeltas(Fires(p0, act[..i]) + [c], zs[..i + 1], menor, mayor) ==
        SumaDeltas(Fires(p0, act[..i]), zs[..i], menor, mayor) +
        (if c then Delta(zs[i].value, menor, mayor) else 0.0)
  {
    var act := Pulsados(zs);
    FiresStep(p0, act, i);
    PrefixSnoc(zs, i);
    SumaDeltasSnoc(Fires(p0, act[..i]), zs[..i], zs[i].Some? && !Latch(p0, act[..i]), zs[i], menor, mayor);
  }

  /** `n` frames touching zone `z`. */
  function ZonaRepetida(z: Zona, n: nat): (zs: seq<Option<Zona>>)
    ensures |zs| == n && forall i :: 0 <= i < n ==> zs[i] == Some(z)
  {
    seq(n, _ => Some(z))
  }

  /** A press held for `n` frames in one zone of a released editor changes the value by that
      zone's amount exactly once. */
  lemma {:induction false} PulsacionMantenida(z: Zona, n: nat, menor: real, mayor: real)
    requires n >= 1
    ensures SumaDeltas(Fires(false, Repeat(true, n)), ZonaRepetida(z, n), menor, mayor) == Delta(z, menor, mayor)
    decreases n
  {
    var f := Fires(false, Repeat(true, n));
    var zs := ZonaRepetida(z, n);
    if n == 1 {
      assert Repeat(true, 1) == [true];
      assert f == [true];
      assert f[..0] == [] && zs[..0] == [];
    } else {
      var a := Repeat(true, n - 1);
      assert Repeat(true, n) == a + [true];
      FiresSnoc(false, a, true);
      LatchIsLastActivity(false, a);
      assert f == Fires(false, a) + [false];
      assert f[..n - 1] == Fires(false, a);
      assert zs[..n - 1] == ZonaRepetida(z, n - 1);
      PulsacionMantenida(z, n - 1, menor, mayor);
    }
  }

  class Editor {
    var x: U16
    var x25: U16
    var x50: U16
    var x75: U16
    var x100: U16
    var y: U16
    var ancho: U16
    var alto: U16
    var margenTextoX: U8
    var margenTextoY: U8
    var alineacion: Alineacion
    var valor: real
    var incrementoMenor: real
    var incrementoMayor: real
    var pulsado: bool
    var colorFondo: Color
    var colorTexto: Color
    var pJuego: Font
    var separacion: U8
    var decimales: U8

    /** The stored zone boundaries are those of the editor's position and width. */
    ghost predicate Valid()
      reads this`x, this`x25, this`x50, this`x75, this`x100, this`ancho
    {
      (x25, x50, x75, x100) == Limites(x, ancho)
    }

    /** The editor's touch-sensitive geometry. */
    function Geometria(): Marco
      reads this`x, this`x25, this`x50, this`x75, this`x100, this`y, this`alto
    {
      Marco(x, x25, x50, x75, x100, y, alto)
    }

    /** `LCD_inicializaEditor`. The text margins are `uint16_t` parameters stored in
        `uint8_t` fields. The format string it builds from `decimales` is represented by the
        `formatea` parameter of `Atiende`. */
    constructor (valorInicial: real, incrementoMenor: real, incrementoMayor: real,
                 x: U16, y: U16, ancho: U16, alto: U16, margenTextoX: U16, margenTextoY: U16,
                 alineacion: Alineacion, colorFondo: Color, colorTexto: Color, pJuego: Font,
                 separacion: U8, decimales: U8)
      ensures Valid()
      ensures valor == valorInicial && this.incrementoMenor == incrementoMenor
      ensures this.incrementoMayor == incrementoMayor && this.decimales == decimales
      ensures this.x == x && this.y == y && this.ancho == ancho && this.alto == alto
      ensures this.margenTextoX == ToU8(margenTextoX) && this.margenTextoY == ToU8(margenTextoY)
      ensures this.alineacion == alineacion && this.colorFondo == colorFondo
      ensures this.colorTexto == colorTexto && this.pJuego == pJuego && this.separacion == separacion
      ensures !pulsado
    {
      valor := valorInicial;
      this.incrementoMenor := incrementoMenor;
      this.incrementoMayor := incrementoMayor;
      this.decimales := decimales;
      this.x := x;
      x25 := ToU16(x + ancho / 4);
      x50 := ToU16(x + ancho / 2);
      x75 := ToU16(x + ancho * 3 / 4);
      x100 := ToU16(x + ancho);
      this.y := y;
      this.margenTextoX := ToU8(margenTextoX);
      this.margenTextoY := ToU8(margenTextoY);
      this.alineacion := alineacion;
      this.ancho := ancho;
      this.alto := alto;
      pulsado := false;
      this.colorFondo := colorFondo;
      this.colorTexto := colorTexto;
      this.pJuego := pJuego;
      this.separacion := separacion;
    }

    /** `LCD_getValorEditor`. */
    method GetValor() returns (v: real)
      ensures v == valor
    {
      v := valor;
    }

    /** `LCD_setValorEditor`. */
    method SetValor(v: real)
      requires Valid()
      modifies this`valor
      ensures Valid() && valor == v
    {
      valor := v;
    }

    /** The touch handling of `LCD_atiendeEditor`: when the touch selects a zone the latch is
        set, and the value changes by that zone's amount only if the latch was clear; otherwise
        the latch is cleared and the value is kept. */
    method Pulsa(t: Touch)
      modifies this`valor, this`pulsado
      ensures pulsado == ZonaEn(Geometria(), t).Some?
      ensures valor == old(valor) +
        (if ZonaEn(Geometria(), t).Some? && !old(pulsado)
         then Delta(ZonaEn(Geometria(), t).value, incrementoMenor, incrementoMayor) else 0.0)
    {
      ghost var zona := ZonaEn(Geometria(), t);
      var xPulsacion: U16 := ToU16(t.tx);
      var yPulsacion: U16 := ToU16(t.ty);
      var nuevo := false;
      if t.pulsando && yPulsacion > y && yPulsacion < y + alto {
        if xPulsacion > x && xPulsacion < x25 {
          if !pulsado {
            valor := valor - incrementoMayor;
          }
          nuevo := true;
        } else if xPulsacion >= x25 && xPulsacion < x50 {
          if !pulsado {
            valor := valor - incrementoMenor;
          }
          nuevo := true;
        } else if xPulsacion >= x50 && xPulsacion < x75 {
          if !pulsado {
            valor := valor + incrementoMenor;
          }
          nuevo := true;
        } else if xPulsacion >= x75 && xPulsacion < x100 {
          if !pulsado {
            valor := valor + incrementoMayor;
          }
          nuevo := true;
        }
      }
      pulsado := nuevo;
      assert pulsado == zona.Some?;
    }

    /** `LCD_atiendeEditor` for one frame. The touch is handled as `Pulsa` says. Then the box is
        drawn opaque and the value's text, produced by `formatea` (the `sprintf` with
        `decimales` decimals), is drawn at the origin its alignment gives for the width of that
        text. Nothing else changes. */
    method Atiende(t: Touch, formatea: (real, nat) -> string) returns (cmds: seq<DrawCmd>)
      requires Valid()
      modifies this`valor, this`pulsado
      ensures Valid()
      ensures pulsado == ZonaEn(Geometria(), t).Some?
      ensures valor == old(valor) +
        (if ZonaEn(Geometria(), t).Some? && !old(pulsado)
         then Delta(ZonaEn(Geometria(), t).value, incrementoMenor, incrementoMayor) else 0.0)
      ensures var s := formatea(valor, decimales);
        var origen := TextOriginX(alineacion, x, ancho, margenTextoX, pJuego.anchoCadena(s, separacion));
        cmds == [FillRect(x, y, ancho, alto, colorFondo, Look(false, 100)),
                 DrawText(origen, ToU16(y + margenTextoY), s, colorTexto, separacion, pJuego, Look(false, 100))]
    {
      Pulsa(t);
      var cadena := formatea(valor, decimales);
      var anchoTexto: U16 := pJuego.anchoCadena(cadena, separacion);
      var xTexto: U16;
      if alineacion == Izquierda {
        xTexto := ToU16(x + margenTextoX);
      } else if alineacion == Derecha {
        xTexto := ToU16(x + ancho - margenTextoX - anchoTexto);
      } else {
        xTexto := ToU16(x + ancho / 2 - anchoTexto / 2);
      }
      var yTexto := ToU16(y + margenTextoY);
      cmds := [FillRect(x, y, ancho, alto, colorFondo, Look(false, 100)),
               DrawText(xTexto, yTexto, cadena, colorTexto, separacion, pJuego, Look(false, 100))];
    }

    /** The display loop polling the editor once per frame: the value changes in exactly the
        frames the shared press latch fires in, each time by the amount of the zone touched
        in that frame. */
    method AtiendeFrames(ts: seq<Touch>, formatea: (real, nat) -> string) returns (cambios: seq<bool>)
      requires Valid()
      modifies this`valor, this`pulsado
      ensures Valid()
      ensures cambios == Fires(old(pulsado), Pulsados(ZonasEn(Geometria(), ts)))
      ensures valor == old(valor) + SumaDeltas(cambios, ZonasEn(Geometria(), ts), incrementoMenor, incrementoMayor)
      ensures pulsado == Latch(old(pulsado), Pulsados(ZonasEn(Geometria(), ts)))
    {
      ghost var p0, v0 := pulsado, valor;
      ghost var zs := ZonasEn(Geometria(), ts);
      ghost var act := Pulsados(zs);
      cambios := [];
      for i := 0 to |ts|
        invariant Valid()
        invariant cambios == Fires(p0, act[..i])
        invariant pulsado == Latch(p0, act[..i])
        invariant valor == v0 + SumaDeltas(cambios, zs[..i], incrementoMenor, incrementoMayor)
      {
        var c := ZonaEn(Geometria(), ts[i]).Some? && !pulsado;
        PasoFrame(p0, zs, i, incrementoMenor, incrementoMayor);
        var _ := Atiende(ts[i], formatea);
        cambios := cambios + [c];
      }
      assert act[..|ts|] == act;
      assert zs[..|ts|] == zs;
    }
  }
}
