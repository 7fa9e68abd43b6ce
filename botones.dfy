/** Buttons (`LCD_Boton`): an image with a centred text that runs its function once per press. */
module Botones {
  import opened LcdBase
  import opened PressLatch
  import Etiquetas

  /** `texto[31]`: at most 30 characters. */
  const CAPACIDAD_BOTON: nat := 30

  class Boton {
    var x: U16
    var y: U16
    var ancho: U16
    var alto: U16
    var imagen: ImageRef
    var texto: string
    var pJuegoCaracteres: Font
    var separacion: U8
    var colorTexto: Color
    var xTexto: U16
    var yTexto: U16
    var habilitado: bool
    var pulsado: bool
    var visible: bool

    /** The text fits its buffer and the stored text offset centres the current text (its
        width, and the font height) in the button. */
    ghost predicate Valid()
      reads this`texto, this`xTexto, this`yTexto, this`ancho, this`alto, this`pJuegoCaracteres,
            this`separacion
    {
      Etiquetas.CText(texto, CAPACIDAD_BOTON) &&
      xTexto == CenterOffset(ancho, pJuegoCaracteres.anchoCadena(texto, separacion)) &&
      yTexto == CenterOffset(alto, pJuegoCaracteres.alto)
    }

    /** The frame's touch counts for this button: enabled, visible and pressed strictly inside. */
    predicate Activo(t: Touch)
      reads this`habilitado, this`visible, this`x, this`y, this`ancho, this`alto
    {
      Activa(habilitado, visible, x, y, ancho, alto, t)
    }

    /** `LCD_inicializaBoton`; the function pointer is represented by the `disparo` result of
        `Atiende`. */
    constructor (x: U16, y: U16, ancho: U16, alto: U16, imagen: ImageRef, texto: string,
                 pJuegoCaracteres: Font, separacion: U8, colorTexto: Color, habilitado: bool, visible: bool)
      requires Etiquetas.CText(texto, CAPACIDAD_BOTON)
      ensures Valid()
      ensures this.x == x && this.y == y && this.ancho == ancho && this.alto == alto
      ensures this.imagen == imagen && this.texto == texto && this.pJuegoCaracteres == pJuegoCaracteres
      ensures this.separacion == separacion && this.colorTexto == colorTexto
      ensures this.habilitado == habilitado && this.visible == visible && !pulsado
    {
      this.x := x;
      this.y := y;
      this.ancho := ancho;
      this.alto := alto;
      this.imagen := imagen;
      this.texto := texto;
      this.pJuegoCaracteres := pJuegoCaracteres;
      this.separacion := separacion;
      this.xTexto := ToU16(CDiv(ancho - pJuegoCaracteres.anchoCadena(texto, separacion), 2));
      this.yTexto := ToU16(CDiv(alto - pJuegoCaracteres.alto, 2));
      this.colorTexto := colorTexto;
      this.habilitado := habilitado;
      this.pulsado := false;
      this.visible := visible;
    }

    /** `LCD_setVisibilidadBoton`. */
    method SetVisibilidad(v: bool)
      requires Valid()
      modifies this`visible
      ensures Valid() && visible == v
    {
      visible := v;
    }

    /** `LCD_setHabilitacionBoton`. */
    method SetHabilitacion(h: bool)
      requires Valid()
      modifies this`habilitado
      ensures Valid() && habilitado == h
    {
      habilitado := h;
    }

    /** `LCD_setTextoBoton`: the text offset is recomputed for the new text (the vertical offset
        does not depend on the text). */
    method SetTexto(s: string)
      requires Valid() && Etiquetas.CText(s, CAPACIDAD_BOTON)
      modifies this`texto, this`xTexto
      ensures Valid() && texto == s
      ensures xTexto == CenterOffset(ancho, pJuegoCaracteres.anchoCadena(s, separacion))
    {
      texto := s;
      xTexto := ToU16(CDiv(ancho - pJuegoCaracteres.anchoCadena(s, separacion), 2));
    }

    /** `LCD_setColorTextoBoton`. */
    method SetColorTexto(c: Color)
      requires Valid()
      modifies this`colorTexto
      ensures Valid() && colorTexto == c
    {
      colorTexto := c;
    }

    /** `LCD_setImagenBoton`. */
    method SetImagen(im: ImageRef)
      requires Valid()
      modifies this`imagen
      ensures Valid() && imagen == im
    {
      imagen := im;
    }

    /** `LCD_atiendeBoton` for one frame: draws the image and then the text at the stored
        offset, both with the render policy (an invisible button is drawn fully transparent).
        The function runs (`disparo`) exactly when the touch is active and the button was not
        already pressed; the latch then records whether the touch is active. Nothing but
        `pulsado` changes. */
    method Atiende(t: Touch) returns (cmds: seq<DrawCmd>, disparo: bool)
      requires Valid()
      modifies this`pulsado
      ensures Valid()
      ensures cmds == [DrawImage(x, y, ancho, alto, imagen, Policy(visible, habilitado)),
                       DrawText(x + xTexto, y + yTexto, texto, colorTexto, separacion, pJuegoCaracteres,
                                Policy(visible, habilitado))]
      ensures disparo <==> Activo(t) && !old(pulsado)
      ensures pulsado == Activo(t)
    {
      var opacidad: nat;
      var enBlancoYNegro: bool;
      if visible {
        if habilitado {
          opacidad, enBlancoYNegro := 100, false;
        } else {
          opacidad, enBlancoYNegro := 70, true;
        }
      } else {
        opacidad, enBlancoYNegro := 0, false;
      }
      var look := Look(enBlancoYNegro, opacidad);
      assert look == Policy(visible, habilitado);
      cmds := [DrawImage(x, y, ancho, alto, imagen, look),
               DrawText(x + xTexto, y + yTexto, texto, colorTexto, separacion, pJuegoCaracteres, look)];
      disparo := false;
      var nuevo := false;
      if habilitado && visible {
        if t.pulsando && t.tx > x && t.tx < x + ancho && t.ty > y && t.ty < y + alto {
          if !pulsado {
            disparo := true;
          }
          nuevo := true;
        }
      }
      pulsado := nuevo;
    }

    /** The display loop polling the button once per frame (`LCD_atiendeBoton` after each
        touch refresh): the function runs in exactly the frames the press latch fires in, so
        once per press edge. */
    method AtiendeFrames(ts: seq<Touch>) returns (disparos: seq<bool>)
      requires Valid()
      modifies this`pulsado
      ensures Valid()
      ensures disparos == Fires(old(pulsado), Actividades(habilitado, visible, x, y, ancho, alto, ts))
      ensures pulsado == Latch(old(pulsado), Actividades(habilitado, visible, x, y, ancho, alto, ts))
    {
      ghost var p0 := pulsado;
      ghost var act := Actividades(habilitado, visible, x, y, ancho, alto, ts);
      disparos := [];
      for i := 0 to |ts|
        invariant Valid()
        invariant disparos == Fires(p0, act[..i])
        invariant pulsado == Latch(p0, act[..i])
      {
        var _, d := Atiende(ts[i]);
        FiresStep(p0, act, i);
        disparos := disparos + [d];
      }
      assert act[..|ts|] == act;
    }
  }
}
