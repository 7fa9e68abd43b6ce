/** Display loops built from the widgets of the usage examples in interfazLCD.h, polled over a
    few frames of touch samples, with what they are guaranteed to do. */
module Escenarios {
  import opened LcdBase
  import opened PressLatch
  import Etiquetas
  import Botones
  import Interruptores
  import Barras
  import Editores

  /** The "Reset" button of the usage example: at (10, 10), 80 by 29 points, enabled and
      visible. */
  method BotonEjemplo() returns (boton: Botones.Boton)
    ensures fresh(boton) && boton.Valid() && !boton.pulsado
    ensures boton.x == 10 && boton.y == 10 && boton.ancho == 80 && boton.alto == 29
    ensures boton.habilitado && boton.visible
  {
    var juego := new Font(15, (s: string, sep: nat) => 0);
    boton := new Botones.Boton(10, 10, 80, 29, 0, "Reset", juego, 1, 0xFF00_0000, true, true);
  }

  /** The example button polled over four frames: no touch, a press held inside for two
      frames, then a touch outside. The function runs once, in the first pressed frame. */
  method BotonReset() returns (disparos: seq<bool>)
    ensures disparos == [false, true, false, false]
  {
    var boton := BotonEjemplo();
    var ts := [Touch(false, 0, 0), Touch(true, 50, 20), Touch(true, 51, 21), Touch(true, 5, 5)];
    disparos := boton.AtiendeFrames(ts);
    var act := Actividades(true, true, 10, 10, 80, 29, ts);
    assert act == [false, true, true, false];
    FiresAt(false, act, 0);
    FiresAt(false, act, 1);
    FiresAt(false, act, 2);
    FiresAt(false, act, 3);
  }

  /** The switch at (10, 10), 50 by 24 points, first set to OFF (neither its state nor its
      latch is initialised), polled for a frame without touch and then for two frames pressed
      inside: the first press calls its function with ON, the held press calls nothing and
      toggles nothing. Setting ON again calls nothing either. */
  method InterruptorPulsado() returns (primera: Option<Interruptores.Llamada>, segunda: Option<Interruptores.Llamada>,
                                       estado: int, repetida: Option<Interruptores.Llamada>)
    ensures primera == Some(Interruptores.Llamada(1, 1))
    ensures segunda == None
    ensures estado == 1
    ensures repetida == None
  {
    var sw := new Interruptores.Interruptor(10, 10, 50, 24, 1, 2, true, true);
    var _ := sw.SetEstado(0);
    var p := Touch(true, 30, 20);
    var cmds, ninguna := sw.Atiende(Touch(false, 0, 0));
    cmds, primera := sw.Atiende(p);
    cmds, segunda := sw.Atiende(p);
    estado := sw.GetEstado();
    repetida := sw.SetEstado(1);
  }

  /** The editor of the usage example: value 10, minor step 0.1, major step 1, at (10, 10),
      100 by 20 points, so its zone boundaries are at 35, 60, 85 and 110. */
  method EditorEjemplo() returns (editor: Editores.Editor)
    ensures fresh(editor) && editor.Valid()
    ensures editor.valor == 10.0 && !editor.pulsado
    ensures editor.incrementoMenor == 0.1 && editor.incrementoMayor == 1.0
    ensures editor.Geometria() == Editores.Marco(10, 35, 60, 85, 110, 10, 20)
  {
    var juego := new Font(15, (s: string, sep: nat) => 0);
    editor := new Editores.Editor(10.0, 0.1, 1.0, 10, 10, 100, 20, 5, 4, Centro,
                                  0xFF00_0000, 0xFFFF_FFFF, juego, 1, 1);
  }

  /** A press held for two frames in the second quarter of the example editor subtracts the
      minor step once, and sliding the held press into the last quarter changes nothing,
      because the four zones share one latch. */
  method EditorDeDato() returns (valor: real)
    ensures valor == 9.9
  {
    var editor := EditorEjemplo();
    var formatea := (v: real, d: nat) => "";
    var p, q := Touch(true, 40, 20), Touch(true, 100, 15);
    assert Editores.ZonaEn(editor.Geometria(), p) == Some(Editores.DecrementoMenor);
    assert Editores.ZonaEn(editor.Geometria(), q) == Some(Editores.IncrementoMayor);
    var cmds := editor.Atiende(p, formatea);
    cmds := editor.Atiende(p, formatea);
    cmds := editor.Atiende(q, formatea);
    valor := editor.GetValor();
  }

  /** The bar of the usage example: "Dato:", 0 to 100, 120 by 30 points at (10, 10), red on
      black; it is made visible, since its initialisation leaves the visibility unset. */
  method BarraEjemplo() returns (barra: Barras.Barra)
    ensures fresh(barra) && barra.Valid() && barra.visible == 1
    ensures barra.texto == "Dato:" && barra.minimo == 0.0 && barra.maximo == 100.0
    ensures barra.largo == 120 && barra.grosor == 30 && barra.x == 10 && barra.y == 10
    ensures barra.colorBarra == 0xFFFF_0000 && barra.colorFondo == 0xFF00_0000
  {
    var juego := new Font(15, (s: string, sep: nat) => 0);
    barra := new Barras.Barra("Dato:", 0.0, 100.0, 120, 30, 10, 10, 0xFFFF_FF00, 0xFFFF_0000,
                              0xFF00_0000, juego, 1);
    barra.SetVisibilidad(1);
  }

  /** The example bar showing 25.5: the red part is 30 points, the black part the other 90,
      and the text is "Dato:25.5". */
  method BarraDato() returns (cmds: seq<DrawCmd>)
    ensures |cmds| == 3
    ensures cmds[0] == FillRectOpaque(10, 10, 30, 30, 0xFFFF_0000)
    ensures cmds[1] == FillRectOpaque(40, 10, 90, 30, 0xFF00_0000)
    ensures cmds[2].DrawText? && cmds[2].text == "Dato:25.5"
  {
    var barra := BarraEjemplo();
    barra.SetValor(25.5);
    assert barra.escala == 1.2;
    assert TruncReal(25.5 * 1.2) == 30;
    assert TruncReal(25.5) == 25 && TruncReal((25.5 - 25.0) * 10.0) == 5;
    assert Barras.TextoValor("Dato:", 25.5) == "Dato:25.5";
    cmds := barra.Atiende();
  }

  /** The message label of the switch example: setting the same text again does not ask the
      glyph metrics provider for a width; a different text does. */
  method EtiquetaMensaje() returns (primera: bool, segunda: bool)
    ensures primera && !segunda
  {
    var juego := new Font(15, (s: string, sep: nat) => 0);
    var etiqueta := new Etiquetas.Etiqueta("", 10, 50, juego, 1, 100, 20, 5, 4, Izquierda,
                                           0xFFFF_FF00, 0x0000_0000, true, true);
    primera := etiqueta.SetTexto("ON");
    segunda := etiqueta.SetTexto("ON");
  }
}
