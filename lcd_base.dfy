/** Vocabulary shared by every widget of interfazLCD: the C integer widths the records use,
    ARGB colours, character sets, the per-frame touch sample, the commands issued to the
    display driver, the render policy and the text layout rules. */
module LcdBase {

  /** C `uint8_t` and `uint16_t`. */
  type U8 = v: int | 0 <= v < 0x100
  type U16 = v: int | 0 <= v < 0x1_0000

  /** A 32-bit ARGB colour; the most significant byte is the alpha channel. */
  type Color = bv32

  /** Address of a caller-owned ARGB8888 pixel buffer (`const uint8_t *`). The core never
      reads the pixels, it only passes the address on to the display driver. */
  type ImageRef = nat

  datatype Option<T> = None | Some(value: T)

  /** Storing an `int` into a `uint16_t` field: reduction modulo 2^16. */
  function ToU16(v: int): (r: U16)
    ensures (v - r) % 0x1_0000 == 0
    ensures 0 <= v < 0x1_0000 ==> r == v
  {
    v % 0x1_0000
  }

  /** Storing an `int` into a `uint8_t` field: reduction modulo 2^8. */
  function ToU8(v: int): (r: U8)
    ensures (v - r) % 0x100 == 0
    ensures 0 <= v < 0x100 ==> r == v
  {
    v % 0x100
  }

  /** C integer division, which truncates toward zero (Dafny's `/` is Euclidean). */
  function CDiv(a: int, b: int): (q: int)
    requires b > 0
    ensures a >= 0 ==> 0 <= a - b * q < b
    ensures a < 0 ==> -b < a - b * q <= 0
  {
    if a >= 0 then a / b else -((-a) / b)
  }

  /** Conversion of a C `float` to an integer type: the fractional part is discarded. */
  function TruncReal(r: real): (t: int)
    ensures r >= 0.0 ==> t as real <= r < t as real + 1.0
    ensures r < 0.0 ==> t as real - 1.0 < r <= t as real
  {
    if r >= 0.0 then r.Floor else -((-r).Floor)
  }

  /** Truncation toward zero never reverses an order. */
  lemma TruncMono(r1: real, r2: real)
    requires r1 <= r2
    ensures TruncReal(r1) <= TruncReal(r2)
  {
  }

  /** Alpha byte of an ARGB colour. A background whose alpha is 0 is not drawn; the code
      tests this with the mask `colour & 0xFF000000`. */
  function Alpha(c: Color): (a: bv8)
    ensures a == 0 <==> c & 0xFF00_0000 == 0
  {
    (c >> 24) as bv8
  }

  /** A character set (`LCD_JuegoCaracteresAlpha`), shared by reference between widgets.
      `alto` is its glyph height; `anchoCadena` is the glyph metrics provider
      `LCD_anchoCadenaCaracteresAlpha(texto, juego, separacion)`, whose body is not part of
      this model. */
  class Font {
    const alto: U16
    const anchoCadena: (string, nat) -> U16

    constructor (alto: U16, anchoCadena: (string, nat) -> U16)
      ensures this.alto == alto && this.anchoCadena == anchoCadena
    {
      this.alto := alto;
      this.anchoCadena := anchoCadena;
    }
  }

  /** The touch driver's state for one frame: `LCD_pulsando()`, `LCD_xPulsacion()`,
      `LCD_yPulsacion()`. Every widget polled in a frame sees the same sample. */
  datatype Touch = Touch(pulsando: bool, tx: int, ty: int)

  /** The frame's touch lies strictly inside the rectangle; its edges do not count. */
  predicate Inside(t: Touch, x: int, y: int, ancho: int, alto: int) {
    t.pulsando && x < t.tx < x + ancho && y < t.ty < y + alto
  }

  /** A button's or switch's view of a frame's touch: it counts when the widget is enabled and
      visible and the touch lies strictly inside its rectangle. */
  predicate Activa(habilitado: bool, visible: bool, x: int, y: int, ancho: int, alto: int, t: Touch) {
    habilitado && visible && Inside(t, x, y, ancho, alto)
  }

  /** That view, frame by frame, for a widget whose fields stay as given. */
  function Actividades(habilitado: bool, visible: bool, x: int, y: int, ancho: int, alto: int,
                       ts: seq<Touch>): (a: seq<bool>)
    ensures |a| == |ts|
    ensures forall i :: 0 <= i < |ts| ==> a[i] == Activa(habilitado, visible, x, y, ancho, alto, ts[i])
  {
    seq(|ts|, i requires 0 <= i < |ts| => Activa(habilitado, visible, x, y, ancho, alto, ts[i]))
  }

  /** How a draw call is composited: in grey levels or not, and the opacity from 0 to 100. */
  datatype Look = Look(gray: bool, opacity: nat)

  /** The commands the widgets issue to the display driver, one constructor per driver call. */
  datatype DrawCmd =
    | FillRect(x: int, y: int, w: int, h: int, color: Color, look: Look)
    | FillRectOpaque(x: int, y: int, w: int, h: int, color: Color)
    | DrawImage(x: int, y: int, w: int, h: int, image: ImageRef, look: Look)
    | DrawText(x: int, y: int, text: string, color: Color, spacing: nat, font: Font, look: Look)

  /** The render policy the label, image, button and switch apply: invisible widgets are fully
      transparent, disabled ones semi-transparent and in grey levels. */
  function Policy(visible: bool, enabled: bool): (l: Look)
    ensures l.opacity in {0, 70, 100}
    ensures l.opacity == 0 <==> !visible
    ensures l.opacity == 100 <==> visible && enabled
    ensures l.gray <==> visible && !enabled
  {
    if !visible then Look(false, 0)
    else if enabled then Look(false, 100)
    else Look(true, 70)
  }

  /** `LCD_Alineacion`: exactly three values. */
  datatype Alineacion = Izquierda | Centro | Derecha

  /** Horizontal origin of a text of width `anchoTexto` inside a box at `x` of width `ancho`,
      stored in a `uint16_t` as the label and the editor do. Any value other than left or
      right is treated as centred. */
  function TextOriginX(al: Alineacion, x: int, ancho: int, margen: int, anchoTexto: int): U16 {
    if al == Izquierda then ToU16(x + margen)
    else if al == Derecha then ToU16(x + ancho - margen - anchoTexto)
    else ToU16(x + ancho / 2 - anchoTexto / 2)
  }

  /** When the text fits (between the margins, for left and right alignment) and the box does not run past coordinate 65535,
      the origin places the text inside the box: left-aligned text starts `margen` points
      after the left edge, right-aligned text ends `margen` points before the right edge,
      and centred text leaves gaps on both sides that differ by at most one point. */
  lemma TextPlacement(al: Alineacion, x: U16, ancho: U16, margen: U16, anchoTexto: U16)
    requires anchoTexto <= ancho && x + ancho < 0x1_0000
    requires al != Centro ==> margen + anchoTexto <= ancho
    ensures var r := TextOriginX(al, x, ancho, margen, anchoTexto);
      x <= r && r + anchoTexto <= x + ancho &&
      (al == Izquierda ==> r - x == margen) &&
      (al == Derecha ==> (x + ancho) - (r + anchoTexto) == margen) &&
      (al == Centro ==> -1 <= (x + ancho - (r + anchoTexto)) - (r - x) <= 1)
  {
  }

  /** Offset that centres something of size `inner` in a box of size `outer`, computed in
      `int` and stored in a `uint16_t`, as the button does for its text. */
  function CenterOffset(outer: int, inner: int): U16 {
    ToU16(CDiv(outer - inner, 2))
  }

  /** When the inner size fits, the offset leaves gaps before and after that are equal or
      differ by one point (the larger one after). */
  lemma CenterOffsetCentres(outer: U16, inner: U16)
    requires inner <= outer
    ensures var r := CenterOffset(outer, inner);
      0 <= r && r + inner <= outer && 0 <= (outer - inner - r) - r <= 1
  {
  }
}
