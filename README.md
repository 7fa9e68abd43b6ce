# interfazLCD widgets in Dafny

This project models the widget layer of `interfazLCD`, a small touch-screen GUI library for an
embedded display. The layer has six caller-owned records: text labels (`LCD_Etiqueta`), images
(`LCD_Imagen`), buttons (`LCD_Boton`), ON/OFF switches (`LCD_Interruptor`), value bars
(`LCD_Barra`) and value editors (`LCD_Editor`). Each operation either updates fields of one
record or reads them and issues calls to the display driver. The application calls an
`LCD_atiende*` function once per frame, after the touch panel has been sampled.

How the C maps to Dafny:

- Each record is a `class` whose fields keep the C names. Each operation is a method that
  `modifies` exactly the fields the C function writes.
- The driver calls a widget makes in a frame are returned as a sequence of `DrawCmd` values.
- The function a button or switch runs is returned as an output: a flag for the button, and
  the argument plus the state visible during the call for the switch.
- The touch sample is a parameter, `Touch(pulsando, tx, ty)`.
- A character set is a `Font` object. Its glyph height is `alto`, and `anchoCadena` stands for
  the glyph metrics provider.
- C-level behaviour is written out explicitly:
  - `uint8_t`/`uint16_t` stores reduce modulo 2^8 and 2^16 (`ToU8`, `ToU16`);
  - C `/` truncates toward zero (`CDiv`);
  - float-to-integer conversion truncates (`TruncReal`);
  - floats are `real`.

Modules follow the sections of `interfazLCD.c`:

- `LcdBase`: widths, colours, draw commands, the render policy and text layout.
- `PressLatch`: the edge-triggered `pulsado` latch, followed over many frames.
- One module per widget: `Etiquetas`, `Imagenes`, `Botones`, `Interruptores`, `Barras`, `Editores`.
- `Escenarios`: the usage examples of `interfazLCD.h`, polled over a few frames.

Where the header's documentation and the code disagree, the model follows the code:

- An invisible button or switch is still passed to the driver, fully transparent. The header
  says it "is not drawn".
- An invisible image is also passed to the driver with opacity 0, and its grey-level flag is
  left unspecified.
- `LCD_inicializaInterruptor` sets neither `estado` nor `pulsado`, and `LCD_inicializaBarra`
  does not set `visible`. Their constructors promise nothing about those fields.

## Model

| member | source | states |
|---|---|---|
| LcdBase.ToU16 | interfazLCD.c:514-517 | storing an int into a `uint16_t` keeps it modulo 2^16, and a value already in range is kept unchanged |
| LcdBase.ToU8 | interfazLCD.c:519-520 | storing an int into a `uint8_t` keeps it modulo 2^8, and a value already in range is kept unchanged |
| LcdBase.CDiv | interfazLCD.c:171-172 | C integer division truncates toward zero: the remainder has the dividend's sign and is smaller than the divisor |
| LcdBase.TruncReal | interfazLCD.c:483-484 | float-to-int conversion drops the fractional part: the result is the floor for non-negative values and the ceiling for negative ones |
| LcdBase.TruncMono | interfazLCD.c:476 | truncation never reverses an order |
| LcdBase.Alpha | interfazLCD.c:27 | the alpha byte is 0 exactly when `colour & 0xFF000000` is 0 |
| LcdBase.Policy | interfazLCD.c:230-242 | opacity is 0, 70 or 100; it is 0 iff invisible and 100 iff visible and enabled; grey levels iff visible and disabled |
| LcdBase.TextPlacement | interfazLCD.c:80-86 | when the text fits and the box stays below coordinate 65536: left text starts `margen` after the left edge, right text ends `margen` before the right edge, centred text has side gaps differing by at most 1, and all of it lies inside the box |
| LcdBase.CenterOffsetCentres | interfazLCD.c:171-172 | the button's stored text offset leaves equal gaps, or gaps one point apart with the larger after, when the text fits |
| PressLatch.Fires | interfazLCD.c:252-266 | polling gives one fire flag per frame |
| PressLatch.LatchIsLastActivity | interfazLCD.c:262-266 | after any number of frames the latch holds the last frame's activity, or the initial latch when there were no frames |
| PressLatch.FiresAt | interfazLCD.c:252-266 | frame i fires iff it is active and the previous frame (or the initial latch) was not |
| PressLatch.FiresSnoc | interfazLCD.c:252-266 | one more frame appends its own flag (active and latch clear) and sets the latch to its activity |
| PressLatch.FiresStep | interfazLCD.c:252-266 | polling frame i after the frames before it appends that frame's fire flag and leaves its activity in the latch |
| PressLatch.FireCountIsRises | interfazLCD.c:252-266 | the number of actions equals the number of false-to-true rises of the activity |
| PressLatch.HeldPressFiresOnce | interfazLCD.c:259-262 | a press held n >= 1 frames on a released widget fires exactly once, in its first frame |
| PressLatch.HeldNeverRefires | interfazLCD.c:259-262 | a press that is already latched never fires, however long it is held |
| PressLatch.OneFirePerPress | interfazLCD.c:252-266 | between any two actions there is an inactive frame |
| PressLatch.ReleaseRearms | interfazLCD.c:264-266 | an inactive frame resets the latch: later frames behave as on a released widget |
| Etiquetas.Etiqueta.constructor | interfazLCD.c:10-30 | copies every parameter; the cached width is the width of the text; `transparente` iff the background's alpha is 0 |
| Etiquetas.Etiqueta.SetVisibilidad | interfazLCD.c:33-35 | sets `visible` and keeps the invariant |
| Etiquetas.Etiqueta.SetHabilitacion | interfazLCD.c:38-40 | sets `habilitada` and keeps the invariant |
| Etiquetas.Etiqueta.SetTexto | interfazLCD.c:43-48 | the text becomes the argument; the metrics provider is asked iff the text differs; an equal text leaves the cached width unchanged; the cache stays consistent |
| Etiquetas.Etiqueta.SetColorTexto | interfazLCD.c:51-53 | sets the text colour |
| Etiquetas.Etiqueta.SetColorFondo | interfazLCD.c:56-61 | sets the background; `transparente` tracks its alpha byte and is untouched when the colour is the same |
| Etiquetas.Etiqueta.SetAlineacion | interfazLCD.c:64-66 | sets the alignment |
| Etiquetas.Etiqueta.Atiende | interfazLCD.c:69-93 | invisible: no draw call; visible: the background only when its alpha is not 0, then the text at the aligned origin for the current text's width, both with the render policy |
| Imagenes.Imagen.constructor | interfazLCD.c:99-108 | copies every parameter |
| Imagenes.Imagen.SetImagen | interfazLCD.c:110-112 | stores the buffer address |
| Imagenes.Imagen.SetPosicion | interfazLCD.c:114-117 | moves the image |
| Imagenes.Imagen.SetVisibilidad | interfazLCD.c:119-121 | sets `visible` |
| Imagenes.Imagen.SetHabilitacion | interfazLCD.c:123-125 | sets `habilitada` |
| Imagenes.Imagen.Atiende | interfazLCD.c:127-140 | exactly one image draw at the record's rectangle: with the render policy when visible, with opacity 0 when not |
| Botones.Boton.constructor | interfazLCD.c:147-187 | copies the parameters, stores the text offset that centres the text, and starts released |
| Botones.Boton.SetVisibilidad | interfazLCD.c:190-195 | sets `visible` |
| Botones.Boton.SetHabilitacion | interfazLCD.c:198-203 | sets `habilitado` |
| Botones.Boton.SetTexto | interfazLCD.c:206-210 | stores the text and recomputes the horizontal offset for it |
| Botones.Boton.SetColorTexto | interfazLCD.c:213-215 | sets the text colour |
| Botones.Boton.SetImagen | interfazLCD.c:218-220 | sets the image |
| Botones.Boton.Atiende | interfazLCD.c:223-267 | image then text at `x+xTexto, y+yTexto` with the render policy; the function runs iff enabled, visible, pressed strictly inside and not already latched; the latch becomes that activity; nothing else changes |
| Botones.Boton.AtiendeFrames | interfazLCD.c:223-267 | polled once per frame, the button runs its function in exactly the frames the latch fires, and ends with the latch of the last frame |
| Interruptores.CNot | interfazLCD.c:364 | C `!` on an int gives 0 or 1, and is non-zero iff its operand is 0 |
| Interruptores.ConmutaParidad | interfazLCD.c:364 | after k >= 1 toggles the state is 0 or 1, and ON iff the initial ON-ness matches whether k is even |
| Interruptores.Interruptor.constructor | interfazLCD.c:274-306 | copies the parameters; nothing is promised about `estado` or `pulsado` |
| Interruptores.Interruptor.SetHabilitacion | interfazLCD.c:309-314 | sets `habilitado` |
| Interruptores.Interruptor.SetVisibilidad | interfazLCD.c:317-322 | sets `visible` |
| Interruptores.Interruptor.Atiende | interfazLCD.c:325-373 | draws the image for the state before the frame, with the render policy; on a press edge it negates `estado` first and then calls with the new state; otherwise the state is untouched and nothing is called; the latch becomes the activity |
| Interruptores.Interruptor.GetEstado | interfazLCD.c:376-380 | returns the state |
| Interruptores.Interruptor.SetEstado | interfazLCD.c:383-391 | calls iff the new state differs, passing the new state while the old one is still stored; the state ends up as the argument |
| Interruptores.LlamadaAlterna | interfazLCD.c:363-365 | over several frames each call receives 0 or 1, and the k-th call receives ON iff the initial state's ON-ness matches whether k is even |
| Interruptores.Interruptor.AtiendeFrames | interfazLCD.c:325-373 | polled once per frame, the switch calls in exactly the latch's fire frames; the call of the k-th such frame receives, and sees stored, the initial state negated k times, and the state ends negated once per call |
| Barras.NatText | interfazLCD.c:486-488 | `%d` of a non-negative value is a non-empty run of decimal digits with no leading zero |
| Barras.NatTextRoundTrip | interfazLCD.c:486-488 | reading the printed digits back gives the number |
| Barras.IntTextRoundTrip | interfazLCD.c:486-488 | `%d` of any int reads back as that int |
| Barras.PrimerDecimal | interfazLCD.c:484-485 | the printed decimal digit is between 0 and 9 |
| Barras.DecimasNoNegativas | interfazLCD.c:483-485 | for a non-negative value, integer part times ten plus the digit is the value truncated to tenths |
| Barras.DecimasTruncadas | interfazLCD.c:483-485 | the digit ignores the sign; integer part and signed digit together are the value truncated toward zero to tenths |
| Barras.SignoPerdido | interfazLCD.c:483-488 | a value in (-1, 0) with a non-zero digit prints as prefix + "0." + digit, with no minus sign |
| Barras.TextoValorEjemplos | interfazLCD.c:483-488 | "Dato:" and 2.75 print "Dato:2.7"; 3.04 prints "3"; -1.5 prints "-1.5"; -0.5 prints "0.5" |
| Barras.EscalaSigno | interfazLCD.c:421 | the stored scale has the sign of the range and maps the whole range onto exactly `largo` points |
| Barras.PuntosExtremos | interfazLCD.c:421 | with `escala = largo/(maximo-minimo)`, the minimum fills 0 points and the maximum the whole length |
| Barras.PuntosEnRango | interfazLCD.c:475-476 | a value between the bounds, in either order, fills between 0 and `largo` points |
| Barras.RellenoEnRango | interfazLCD.c:475-476 | before truncation, a value between the bounds, in either order, gives a filled length between 0 and `largo` |
| Barras.RellenoMonotono | interfazLCD.c:475-476 | with the maximum above the minimum, a larger value never gives a smaller filled length before truncation |
| Barras.PuntosMonotonos | interfazLCD.c:475-476 | with the maximum above the minimum, a larger value never fills less |
| Barras.PuntosEjemplo | interfazLCD.c:475-476 | on a 0..100 bar 120 points long, 25 fills 30 points |
| Barras.Barra.constructor | interfazLCD.c:398-435 | copies the parameters (the prefix is a C string, without NUL); `escala` is `largo/(maximo-minimo)`; the value starts at the minimum; margins 5 and `(grosor-alto)/2`; `visible` unspecified |
| Barras.Barra.SetVisibilidad | interfazLCD.c:438-442 | stores the `int` argument in the `uint8_t` field |
| Barras.Barra.SetColorTexto | interfazLCD.c:445-448 | sets the text colour |
| Barras.Barra.SetColorBarra | interfazLCD.c:451-454 | sets the bar colour |
| Barras.Barra.SetColorFondo | interfazLCD.c:457-460 | sets the background colour |
| Barras.Barra.SetValor | interfazLCD.c:463-466 | sets the value |
| Barras.Barra.Atiende | interfazLCD.c:469-496 | invisible: the footprint is filled with 0x00000000; visible: the filled part, the rest right after it (lengths summing to `largo`), and the value text at margin 5, padded with spaces to at least 6 characters |
| Editores.LimitesCuartos | interfazLCD.c:514-517 | without wrap-around the four boundaries are ordered; the first zone is a quarter of the width and the others a quarter or a quarter plus one |
| Editores.ZonasCubren | interfazLCD.c:546-562 | the zones cover exactly the open horizontal extent; an editor 1 to 3 points wide also accepts its left edge |
| Editores.ZonaSentidoYMagnitud | interfazLCD.c:546-561 | left of the middle subtracts and right of it adds; the outer quarters use the major amount and the inner ones the minor amount |
| Editores.ZonasOrdenadas | interfazLCD.c:546-561 | a touch further right never selects a zone further left |
| Editores.PulsacionMantenida | interfazLCD.c:545-563 | a press held n >= 1 frames in one zone of a released editor changes the value by that zone's amount exactly once |
| Editores.Editor.constructor | interfazLCD.c:502-529 | copies the parameters; the zone boundaries are those of `x` and `ancho` stored as `uint16_t`; the margins are stored as `uint8_t`; starts released |
| Editores.Editor.GetValor | interfazLCD.c:532-534 | returns the value |
| Editores.Editor.SetValor | interfazLCD.c:537-539 | sets the value |
| Editores.Editor.Pulsa | interfazLCD.c:542-563 | the latch becomes whether a zone is pressed; the value changes by that zone's amount only when the latch was clear |
| Editores.Editor.Atiende | interfazLCD.c:542-580 | the latch becomes whether a zone is pressed; the value changes by that zone's amount only when the latch was clear; then the opaque box and the value's text at the aligned origin for that text's width |
| Editores.Editor.AtiendeFrames | interfazLCD.c:542-580 | polled once per frame, the value changes in exactly the frames the shared latch fires, by the amount of the zone touched in each |
| Escenarios.BotonEjemplo | interfazLCD.h:135-136 | the example "Reset" button is released, enabled, visible and consistent |
| Escenarios.BotonReset | interfazLCD.c:252-266 | no touch, two held frames inside, one outside: the function runs only in the second frame |
| Escenarios.InterruptorPulsado | interfazLCD.c:354-372 | after OFF and an idle frame, a press calls with ON once, the held press calls nothing, the state reads ON, and setting ON again calls nothing |
| Escenarios.EditorEjemplo | interfazLCD.h:283-284 | the example editor has boundaries 35, 60, 85, 110 and value 10 |
| Escenarios.EditorDeDato | interfazLCD.c:545-563 | holding the second quarter for two frames and then sliding into the last quarter leaves 9.9 |
| Escenarios.BarraEjemplo | interfazLCD.h:245-246 | the example bar, made visible |
| Escenarios.BarraDato | interfazLCD.c:469-496 | at 25.5 the example bar draws 30 red points, 90 black points and the text "Dato:25.5" |
| Escenarios.EtiquetaMensaje | interfazLCD.c:43-48 | setting a new text asks for a width; repeating it does not |

## Left out

- Display and touch drivers (`LCD_dibuja*`, `LCD_pulsando`, `LCD_xPulsacion`, `LCD_yPulsacion`): foreign code. Draw calls become `DrawCmd` values and the touch sample is a parameter. The width of the driver's parameters is not modelled, so drawn coordinates such as `x + xTexto` are unbounded integers.
- Glyph metrics (`LCD_anchoCadenaCaracteresAlpha`, `juego->alto`): foreign code, represented by the `Font` object's `anchoCadena` function and `alto` constant. The metric is assumed to return a 16-bit value.
- Floating point: `float` is `real`, and IEEE rounding is not modelled.
- Barras.Barra.Atiende requires that the filled length `(valor-minimo)*escala` of a visible bar lies in (-1, 256), so that its integral part fits the `uint8_t` it is stored in. Outside that range the C conversion is undefined (section 6.3.1.4 of C11), so such values are left out.
- Barras.Barra.constructor requires `maximo != minimo`. With equal bounds, `escala` would be a float division by zero.
- Barras.Barra.Atiende does not model overflow of its 30-byte `cadena` buffer by a long prefix.
- Editores.Editor.Atiende does not model overflow of its 30-byte `cadena` buffer.
- The bar keeps only the address of its prefix. Here the prefix is copied as a value, so later changes to the caller's string are not reflected.
- The bar's `numCaracteres` and `decimales` parameters and its `formato` string are not modelled: `LCD_atiendeBarra` never uses `formato`.
- The `sprintf` with `%.Nf` that the editor uses to print its value is not modelled, because it rounds floats. It is the `formatea` parameter of `Editores.Editor.Atiende`, given the value and `decimales`.
- Callback bodies and reentrancy: a callback may change other widgets. The model records only that it ran, and with which argument.
- Text capacities are preconditions (`CText`: at most 100 characters for a label, 30 for a button, no NUL) instead of modelling `strcpy` overflow.
- Text is `seq<char>`, whose characters are Unicode scalar values, not C bytes. A string with characters above 255 has no exact C counterpart. Texts are required to contain no NUL, so `strlen`, `strcmp` and `strcpy` see the whole string: this holds for labels, buttons and the bar prefix.
- `LCD_setPosicionEtiqueta` is declared in interfazLCD.h:522 but has no definition in interfazLCD.c, so it is not part of this model.
- `inicializaGrafica`, `dibujaGrafica` and `LCD_clearBuffer` are fixed-coordinate chart drawing and a declaration without a body, outside the widget layer.
