/** Images (`LCD_Imagen`): a caller-owned pixel buffer drawn at a position, whose buffer and
    position can be changed without reinitialising the record. */
module Imagenes {
  import opened LcdBase

  class Imagen {
    var x: U16
    var y: U16
    var ancho: U16
    var alto: U16
    var colores: ImageRef
    var visible: bool
    var habilitada: bool

    /** `LCD_inicializaImagen`. */
    constructor (x: U16, y: U16, ancho: U16, alto: U16, colores: ImageRef, visible: bool, habilitada: bool)
      ensures this.x == x && this.y == y && this.ancho == ancho && this.alto == alto
      ensures this.colores == colores && this.visible == visible && this.habilitada == habilitada
    {
      this.x := x;
      this.y := y;
      this.ancho := ancho;
      this.alto := alto;
      this.colores := colores;
      this.visible := visible;
      this.habilitada := habilitada;
    }

    /** `LCD_setImagen`: only the buffer address is stored, the pixels are not copied. */
    method SetImagen(c: ImageRef)
      modifies this`colores
      ensures colores == c
    {
      colores := c;
    }

    /** `LCD_setPosicionImagen`. */
    method SetPosicion(nx: U16, ny: U16)
      modifies this`x, this`y
      ensures x == nx && y == ny
    {
      x, y := nx, ny;
    }

    /** `LCD_setVisibilidadImagen`. */
    method SetVisibilidad(v: bool)
      modifies this`visible
      ensures visible == v
    {
      visible := v;
    }

    /** `LCD_setHabilitacionImagen`. */
    method SetHabilitacion(h: bool)
      modifies this`habilitada
      ensures habilitada == h
    {
      habilitada := h;
    }

    /** `LCD_atiendeImagen`: the image is always passed to the driver, with the render policy
        when visible and with opacity 0 when not. In the invisible case the grey-level flag is
        an uninitialised local in the code, so nothing is promised about it. */
    method Atiende() returns (cmds: seq<DrawCmd>)
      ensures |cmds| == 1 && cmds[0].DrawImage?
      ensures cmds[0].x == x && cmds[0].y == y && cmds[0].w == ancho && cmds[0].h == alto
      ensures cmds[0].image == colores
      ensures visible ==> cmds[0].look == Policy(true, habilitada)
      ensures !visible ==> cmds[0].look.opacity == 0
    {
      var transparencia: nat;
      var enBlancoYNegro: bool :| true;
      if visible {
        if habilitada {
          transparencia, enBlancoYNegro := 100, false;
        } else {
          transparencia, enBlancoYNegro := 70, true;
        }
      } else {
        transparencia := 0;
      }
      cmds := [DrawImage(x, y, ancho, alto, colores, Look(enBlancoYNegro, transparencia))];
    }
  }
}
