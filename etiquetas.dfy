/** Text labels (`LCD_Etiqueta`): a bounded text drawn in a box, with a cached text width and a
    background that is skipped when its alpha byte is 0. */
module Etiquetas {
  import opened LcdBase

  /** A C string that fits a buffer of `cap + 1` bytes: at most `cap` characters, none of them
      the terminating NUL. */
  predicate CText(s: string, cap: nat) {
    |s| <= cap && '\0' !in s
  }

  /** `texto[101]`: at most 100 characters. */
  const CAPACIDAD_ETIQUETA: nat := 100

  class Etiqueta {
    var texto: string
    var x: U16
    var y: U16
    var juego: Font
    var separacion: U16
    var ancho: U16
    var alto: U16
    var margenHorizontal: U16
    var margenVertical: U16
    var anchoTexto: U16
    var alineacion: Alineacion
    var color: Color
    var colorFondo: Color
    var transparente: bool
    var visible: bool
    var habilitada: bool

    /** The record's invariant: the text fits its buffer, the cached width is the width of the
        current text, and `transparente` says whether the background's alpha byte is 0. */
    ghost predicate Valid()
      reads this
    {
      CText(texto, CAPACIDAD_ETIQUETA) &&
      anchoTexto == juego.anchoCadena(texto, separacion) &&
      transparente == (Alpha(colorFondo) == 0)
    }

    /** `LCD_inicializaEtiqueta`. */
    constructor (texto: string, x: U16, y: U16, juego: Font, separacion: U16, ancho: U16, alto: U16,
                 margenHorizontal: U16, margenVertical: U16, alineacion: Alineacion,
                 color: Color, colorFondo: Color, visible: bool, habilitada: bool)
      requires CText(texto, CAPACIDAD_ETIQUETA)
      ensures Valid()
      ensures this.texto == texto && this.x == x && this.y == y && this.juego == juego
      ensures this.separacion == separacion && this.ancho == ancho && this.alto == alto
      ensures this.margenHorizontal == margenHorizontal && this.margenVertical == margenVertical
      ensures this.alineacion == alineacion && this.color == color && this.colorFondo == colorFondo
      ensures this.visible == visible && this.habilitada == habilitada
      ensures anchoTexto == juego.anchoCadena(texto, separacion)
      ensures transparente <==> Alpha(colorFondo) == 0
    {
      this.texto := texto;
      this.anchoTexto := juego.anchoCadena(texto, separacion);
      this.x := x;
      this.y := y;
      this.juego := juego;
      this.separacion := separacion;
      this.margenHorizontal := margenHorizontal;
      this.margenVertical := margenVertical;
      this.ancho := ancho;
      this.alto := alto;
      this.alineacion := alineacion;
      this.color := color;
      this.colorFondo := colorFondo;
      this.transparente := colorFondo & 0xFF00_0000 == 0;
      this.visible := visible;
      this.habilitada := habilitada;
    }

    /** `LCD_setVisibilidadEtiqueta`. */
    method SetVisibilidad(visibilidad: bool)
      requires Valid()
      modifies this`visible
      ensures Valid() && visible == visibilidad
    {
      visible := visibilidad;
    }

    /** `LCD_setHabilitacionEtiqueta`. */
    method SetHabilitacion(habilitacion: bool)
      requires Valid()
      modifies this`habilitada
      ensures Valid() && habilitada == habilitacion
    {
      habilitada := habilitacion;
    }

    /** `LCD_setTextoEtiqueta`. The text and its cached width change only when the new text
        differs from the current one; `midio` says whether the glyph metrics provider was
        asked for the width (it is not asked when the text is the same). */
    method SetTexto(s: string) returns (midio: bool)
      requires Valid() && CText(s, CAPACIDAD_ETIQUETA)
      modifies this`texto, this`anchoTexto
      ensures Valid() && texto == s
      ensures midio <==> s != old(texto)
      ensures !midio ==> anchoTexto == old(anchoTexto)
    {
      midio := texto != s;
      if midio {
        texto := s;
        anchoTexto := juego.anchoCadena(s, separacion);
      }
    }

    /** `LCD_setColorTextoEtiqueta`. */
    method SetColorTexto(c: Color)
      requires Valid()
      modifies this`color
      ensures Valid() && color == c
    {
      color := c;
    }

    /** `LCD_setColorFondoEtiqueta`: `transparente` keeps tracking the alpha byte of the
        background; it is untouched when the colour does not change. */
    method SetColorFondo(c: Color)
      requires Valid()
      modifies this`colorFondo, this`transparente
      ensures Valid() && colorFondo == c
      ensures transparente <==> Alpha(c) == 0
      ensures c == old(colorFondo) ==> transparente == old(transparente)
    {
      if colorFondo != c {
        colorFondo := c;
        transparente := c & 0xFF00_0000 == 0;
      }
    }

    /** `LCD_setAlineacionEtiqueta`. */
    method SetAlineacion(al: Alineacion)
      requires Valid()
      modifies this`alineacion
      ensures Valid() && alineacion == al
    {
      alineacion := al;
    }

    /** `LCD_atiendeEtiqueta`: an invisible label issues no draw call. A visible one draws its
        background, unless the background's alpha byte is 0, and then its text at the origin
        its alignment gives for the width of the current text, both with the render policy for
        its enablement. */
    method Atiende() returns (cmds: seq<DrawCmd>)
      requires Valid()
      ensures !visible ==> cmds == []
      ensures visible ==>
        var look := Policy(true, habilitada);
        var origen := TextOriginX(alineacion, x, ancho, margenHorizontal, juego.anchoCadena(texto, separacion));
        cmds == (if Alpha(colorFondo) == 0 then [] else [FillRect(x, y, ancho, alto, colorFondo, look)])
                + [DrawText(origen, ToU16(y + margenVertical), texto, color, separacion, juego, look)]
    {
      cmds := [];
      if visible {
        var enBlancoYNegro, opacidad;
        if habilitada {
          enBlancoYNegro, opacidad := false, 100;
        } else {
          enBlancoYNegro, opacidad := true, 70;
        }
        var xTexto: U16;
        if alineacion == Izquierda {
          xTexto := ToU16(x + margenHorizontal);
        } else if alineacion == Derecha {
          xTexto := ToU16(x + ancho - margenHorizontal - anchoTexto);
        } else {
          xTexto := ToU16(x + ancho / 2 - anchoTexto / 2);
        }
        var yTexto := ToU16(y + margenVertical);
        if !transparente {
          cmds := cmds + [FillRect(x, y, ancho, alto, colorFondo, Look(enBlancoYNegro, opacidad))];
        }
        cmds := cmds + [DrawText(xTexto, yTexto, texto, color, separacion, juego, Look(enBlancoYNegro, opacidad))];
      }
    }
  }
}
