/** Switches (`LCD_Interruptor`): an ON/OFF image pair that toggles once per press and passes the
    new state to its function. */
module Interruptores {
  import opened LcdBase
  import opened PressLatch

  /** C logical negation `!e` of an `int` used as a boolean. */
  function CNot(e: int): (r: int)
    ensures r == 0 || r == 1
    ensures r != 0 <==> e == 0
  {
    if e == 0 then 1 else 0
  }

  /** A call of the switch's function: the argument it receives, and the value `estado` holds
      while it runs (the function could read it through `LCD_getEstadoInterruptor`). */
  datatype Llamada = Llamada(argumento: int, estadoVisto: int)

  /** `e` negated `k` times. */
  function Conmuta(e: int, k: nat): int
    decreases k
  {
    if k == 0 then e else CNot(Conmuta(e, k - 1))
  }

  /** After at least one toggle the state is 0 or 1, and it is ON exactly when the initial state
      was ON and the number of toggles is even, or it was OFF and the number is odd. */
  lemma {:induction false} ConmutaParidad(e: int, k: nat)
    requires k >= 1
    ensures Conmuta(e, k) == 0 || Conmuta(e, k) == 1
    ensures Conmuta(e, k) != 0 <==> ((e != 0) <==> k % 2 == 0)
    decreases k
  {
    if k > 1 {
      ConmutaParidad(e, k - 1);
    }
  }

  /** The calls a switch that starts in state `e0` makes over frames whose press-edge flags are
      `fs`: none in a frame without an edge, and in a frame with one a call that receives, and
      sees stored, `e0` negated once for each edge up to and including that frame's. */
  function Esperadas(e0: int, fs: seq<bool>): (ls: seq<Option<Llamada>>)
    ensures |ls| == |fs|
  {
    seq(|fs|, j requires 0 <= j < |fs| =>
      if fs[j] then Some(Llamada(Conmuta(e0, Count(fs[..j + 1])), Conmuta(e0, Count(fs[..j + 1]))))
      else None)
  }

  /** One more frame appends its call, if it has an edge, with the state negated once more,
      and leaves the calls of the earlier frames as they were. */
  lemma EsperadasSnoc(e0: int, fs: seq<bool>, b: bool)
    ensures Esperadas(e0, fs + [b]) == Esperadas(e0, fs) +
      [if b then Some(Llamada(Conmuta(e0, Count(fs) + 1), Conmuta(e0, Count(fs) + 1))) else None]
  {
    var gs := fs + [b];
    forall j | 0 <= j < |fs|
      ensures Esperadas(e0, gs)[j] == Esperadas(e0, fs)[j]
    {
      assert gs[..j + 1] == fs[..j + 1];
    }
    assert gs[..|fs| + 1] == gs;
    CountSnoc(fs, b);
  }

  /** Each call receives 0 or 1, and the calls alternate: the k-th (from 1) receives ON exactly
      when the initial state was ON and k is even, or it was OFF and k is odd. */
  lemma LlamadaAlterna(e0: int, fs: seq<bool>, j: nat)
    requires j < |fs| && fs[j]
    ensures var a := Esperadas(e0, fs)[j].value.argumento;
      (a == 0 || a == 1) && (a != 0 <==> ((e0 != 0) <==> Count(fs[..j + 1]) % 2 == 0))
  {
    assert fs[..j + 1] == fs[..j] + [true];
    CountSnoc(fs[..j], true);
    ConmutaParidad(e0, Count(fs[..j + 1]));
  }

  /** One frame of the display loop, frame `i` of the activity `act` with the latch `p0` before
      the first: a frame with an edge negates the state and calls with the result, one without
      leaves both alone, and either way the calls and the state so far stay those of `Esperadas`
      and `Conmuta` over the edges so far. */
  lemma PasoFrame(e0: int, p0: bool, act: seq<bool>, i: nat, e: int, l: Option<Llamada>, e': int)
    requires i < |act|
    requires e == Conmuta(e0, Count(Fires(p0, act[..i])))
    requires act[i] && !Latch(p0, act[..i]) ==> e' == CNot(e) && l == Some(Llamada(e', e'))
    requires !(act[i] && !Latch(p0, act[..i])) ==> e' == e && l == None
    ensures Esperadas(e0, Fires(p0, act[..i + 1])) == Esperadas(e0, Fires(p0, act[..i])) + [l]
    ensures e' == Conmuta(e0, Count(Fires(p0, act[..i + 1])))
    ensures Latch(p0, act[..i + 1]) == act[i]
  {
    var b := act[i] && !Latch(p0, act[..i]);
    FiresStep(p0, act, i);
    EsperadasSnoc(e0, Fires(p0, act[..i]), b);
    CountSnoc(Fires(p0, act[..i]), b);
  }

  class Interruptor {
    var x: U16
    var y: U16
    var ancho: U16
    var alto: U16
    var imagenOn: ImageRef
    var imagenOff: ImageRef
    var estado: int
    var visible: bool
    var habilitado: bool
    var pulsado: bool

    /** The frame's touch counts for this switch: enabled, visible and pressed strictly inside. */
    predicate Activo(t: Touch)
      reads this`habilitado, this`visible, this`x, this`y, this`ancho, this`alto
    {
      Activa(habilitado, visible, x, y, ancho, alto, t)
    }

    /** `LCD_inicializaInterruptor`. It does not set `estado` or `pulsado`: they keep whatever
        the record held, so nothing is promised about them. */
    constructor (x: U16, y: U16, ancho: U16, alto: U16, imagenOn: ImageRef, imagenOff: ImageRef,
                 habilitado: bool, visible: bool)
      ensures this.x == x && this.y == y && this.ancho == ancho && this.alto == alto
      ensures this.imagenOn == imagenOn && this.imagenOff == imagenOff
      ensures this.habilitado == habilitado && this.visible == visible
    {
      this.x := x;
      this.y := y;
      this.ancho := ancho;
      this.alto := alto;
      this.imagenOn := imagenOn;
      this.imagenOff := imagenOff;
      this.habilitado := habilitado;
      this.visible := visible;
    }

    /** `LCD_setHabilitacionInterruptor`. */
    method SetHabilitacion(h: bool)
      modifies this`habilitado
      ensures habilitado == h
    {
      habilitado := h;
    }

    /** `LCD_setVisibilidadInterruptor`. */
    method SetVisibilidad(v: bool)
      modifies this`visible
      ensures visible == v
    {
      visible := v;
    }

    /** `LCD_atiendeInterruptor` for one frame. The image for the state held on entry is drawn
        with the render policy. On a press edge (active, latch clear) the state is negated
        first and the function then receives the new state; otherwise the state is untouched
        and nothing is called. The latch records whether the touch is active, so a disabled or
        invisible switch always ends up released. */
    method Atiende(t: Touch) returns (cmds: seq<DrawCmd>, llamada: Option<Llamada>)
      modifies this`estado, this`pulsado
      ensures cmds == [DrawImage(x, y, ancho, alto, if old(estado) != 0 then imagenOn else imagenOff,
                                 Policy(visible, habilitado))]
      ensures Activo(t) && !old(pulsado) ==>
                estado == CNot(old(estado)) && llamada == Some(Llamada(estado, estado))
      ensures !(Activo(t) && !old(pulsado)) ==> estado == old(estado) && llamada == None
      ensures pulsado == Activo(t)
    {
      var opacidad: nat;
      var enBlancoYNegro: bool;
      if visible {
        if habilitado {
          opacidad, enBlancoYNegro := 100, false;
        } else {
          opacidad, enBlancoYNegro := 70, true;
        }
      } else {
        opacidad, enBlancoYNegro := 0, false;
      }
      var imagen := if estado != 0 then imagenOn else imagenOff;
      var look := Look(enBlancoYNegro, opacidad);
      assert look == Policy(visible, habilitado);
      cmds := [DrawImage(x, y, ancho, alto, imagen, look)];
      llamada := None;
      var nuevo := false;
      if habilitado && visible {
        if t.pulsando && t.tx > x && t.tx < x + ancho && t.ty > y && t.ty < y + alto {
          if !pulsado {
            estado := CNot(estado);
            llamada := Some(Llamada(estado, estado));
          }
          nuevo := true;
        }
      }
      pulsado := nuevo;
    }

    /** `LCD_getEstadoInterruptor`. */
    method GetEstado() returns (e: int)
      ensures e == estado
    {
      e := estado;
    }

    /** `LCD_setEstadoInterruptor`: the function is called, with the new state, only when it
        differs from the current one, and it runs before the state is stored. An equal state
        changes nothing and calls nothing. */
    method SetEstado(e: int) returns (llamada: Option<Llamada>)
      modifies this`estado
      ensures estado == e
      ensures llamada == if old(estado) != e then Some(Llamada(e, old(estado))) else None
    {
      llamada := None;
      if estado != e {
        llamada := Some(Llamada(e, estado));
        estado := e;
      }
    }

    /** The display loop polling the switch once per frame: the calls are those a switch
        starting from the state on entry makes on the press latch's edges, and the state ends
        up negated once per edge. */
    method AtiendeFrames(ts: seq<Touch>) returns (llamadas: seq<Option<Llamada>>)
      modifies this`estado, this`pulsado
      ensures llamadas == Esperadas(old(estado), Fires(old(pulsado), Actividades(habilitado, visible, x, y, ancho, alto, ts)))
      ensures estado == Conmuta(old(estado), Count(Fires(old(pulsado), Actividades(habilitado, visible, x, y, ancho, alto, ts))))
      ensures pulsado == Latch(old(pulsado), Actividades(habilitado, visible, x, y, ancho, alto, ts))
    {
      ghost var p0, e0 := pulsado, estado;
      ghost var act := Actividades(habilitado, visible, x, y, ancho, alto, ts);
      llamadas := [];
      for i := 0 to |ts|
        invariant llamadas == Esperadas(e0, Fires(p0, act[..i]))
        invariant estado == Conmuta(e0, Count(Fires(p0, act[..i])))
        invariant pulsado == Latch(p0, act[..i])
      {
        ghost var antes := estado;
        var _, l := Atiende(ts[i]);
        PasoFrame(e0, p0, act, i, antes, l, estado);
        llamadas := llamadas + [l];
      }
      assert act[..|ts|] == act;
    }
  }
}
