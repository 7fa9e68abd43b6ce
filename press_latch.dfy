/** The edge-triggered press latch (`pulsado`) shared by the button, the switch and the
    editor, followed over many frames. Frame i is described by one boolean, `act[i]`: whether
    the touch is active for the widget in that frame (pressed strictly inside, and for the
    button and switch also enabled and visible). The widgets' `Atiende` methods perform one
    step of this machine; the lemmas here say what a sequence of frames does. */
module PressLatch {

  /** The latch a frame finds: the initial `pulsado` for frame 0, otherwise the activity of
      the previous frame (every poll stores the frame's activity into `pulsado`). */
  function Prev(p0: bool, act: seq<bool>, i: nat): bool
    requires i <= |act|
  {
    if i == 0 then p0 else act[i - 1]
  }

  /** The action flags of polling once per frame, starting with latch `p0`: a frame fires when
      it is active and the latch is clear, and the latch becomes the frame's activity. */
  function Fires(p0: bool, act: seq<bool>): (f: seq<bool>)
    ensures |f| == |act|
    decreases |act|
  {
    if act == [] then [] else [act[0] && !p0] + Fires(act[0], act[1..])
  }

  /** The latch after polling every frame of `act`. */
  function Latch(p0: bool, act: seq<bool>): bool
    decreases |act|
  {
    if act == [] then p0 else Latch(act[0], act[1..])
  }

  /** The latch only remembers the last frame: after the frames it holds the activity of the
      last one (or the initial latch if there were none). */
  lemma {:induction false} LatchIsLastActivity(p0: bool, act: seq<bool>)
    ensures Latch(p0, act) == Prev(p0, act, |act|)
    decreases |act|
  {
    if act != [] {
      LatchIsLastActivity(act[0], act[1..]);
    }
  }

  /** Both directions of the edge trigger: frame i fires exactly when it is active and the
      frame before it was not (for frame 0: the initial latch was clear). */
  lemma {:induction false} FiresAt(p0: bool, act: seq<bool>, i: nat)
    requires i < |act|
    ensures Fires(p0, act)[i] <==> act[i] && !Prev(p0, act, i)
    decreases i
  {
    if i > 0 {
      FiresAt(act[0], act[1..], i - 1);
    }
  }

  /** Polling one more frame appends that frame's fire flag to the earlier ones. */
  lemma {:induction false} FiresSnoc(p0: bool, a: seq<bool>, b: bool)
    ensures Fires(p0, a + [b]) == Fires(p0, a) + [b && !Latch(p0, a)]
    ensures Latch(p0, a + [b]) == b
    decreases |a|
  {
    if a == [] {
      assert a + [b] == [b];
    } else {
      assert (a + [b])[0] == a[0];
      assert (a + [b])[1..] == a[1..] + [b];
      FiresSnoc(a[0], a[1..], b);
      assert Fires(p0, a + [b]) == [a[0] && !p0] + Fires(a[0], a[1..] + [b]);
    }
  }

  /** One step of the display loop over the frames of `act`: extending the polled prefix by
      frame i appends that frame's fire flag and latches its activity. */
  lemma FiresStep(p0: bool, act: seq<bool>, i: nat)
    requires i < |act|
    ensures Fires(p0, act[..i + 1]) == Fires(p0, act[..i]) + [act[i] && !Latch(p0, act[..i])]
    ensures Latch(p0, act[..i + 1]) == act[i]
  {
    assert act[..i + 1] == act[..i] + [act[i]];
    FiresSnoc(p0, act[..i], act[i]);
  }

  /** Number of true entries. */
  function Count(s: seq<bool>): nat
    decreases |s|
  {
    if s == [] then 0 else (if s[0] then 1 else 0) + Count(s[1..])
  }

  lemma {:induction false} CountSnoc(s: seq<bool>, b: bool)
    ensures Count(s + [b]) == Count(s) + (if b then 1 else 0)
    decreases |s|
  {
    if s == [] {
      assert s + [b] == [b];
    } else {
      assert (s + [b])[1..] == s[1..] + [b];
      CountSnoc(s[1..], b);
    }
  }

  /** Reference count of press edges, taken frame by frame from the last frame backwards:
      the frames that are active while the frame before them was not. */
  function Rises(p0: bool, act: seq<bool>): nat
    decreases |act|
  {
    if act == [] then 0
    else Rises(p0, act[..|act| - 1]) + (if act[|act| - 1] && !Prev(p0, act, |act| - 1) then 1 else 0)
  }

  /** The number of actions equals the number of frames in which the activity rises from
      false to true. */
  lemma {:induction false} FireCountIsRises(p0: bool, act: seq<bool>)
    ensures Count(Fires(p0, act)) == Rises(p0, act)
    decreases |act|
  {
    if act != [] {
      var a, b := act[..|act| - 1], act[|act| - 1];
      assert act == a + [b];
      FireCountIsRises(p0, a);
      FiresSnoc(p0, a, b);
      CountSnoc(Fires(p0, a), b && !Latch(p0, a));
      LatchIsLastActivity(p0, a);
      assert Prev(p0, a, |a|) == Prev(p0, act, |act| - 1);
      calc {
        Count(Fires(p0, act));
        Count(Fires(p0, a) + [b && !Latch(p0, a)]);
        Count(Fires(p0, a)) + (if b && !Latch(p0, a) then 1 else 0);
        Rises(p0, a) + (if b && !Prev(p0, act, |act| - 1) then 1 else 0);
        Rises(p0, act);
      }
    }
  }

  /** `n` copies of `b`. */
  function Repeat(b: bool, n: nat): (s: seq<bool>)
    ensures |s| == n && forall i :: 0 <= i < n ==> s[i] == b
  {
    seq(n, _ => b)
  }

  /** A press held for `n` frames on a released widget fires exactly once, in its first frame. */
  lemma {:induction false} HeldPressFiresOnce(n: nat)
    requires n >= 1
    ensures Fires(false, Repeat(true, n))[0]
    ensures Count(Fires(false, Repeat(true, n))) == 1
  {
    assert Repeat(true, n)[1..] == Repeat(true, n - 1);
    HeldNeverRefires(n - 1);
  }

  /** A press that is already latched does not fire again however long it is held. */
  lemma {:induction false} HeldNeverRefires(n: nat)
    ensures Count(Fires(true, Repeat(true, n))) == 0
    decreases n
  {
    if n > 0 {
      assert Repeat(true, n)[1..] == Repeat(true, n - 1);
      HeldNeverRefires(n - 1);
    }
  }

  /** Between two actions there is a frame that is not active: at most one action per
      continuous press. */
  lemma OneFirePerPress(p0: bool, act: seq<bool>, i: nat, j: nat)
    requires i < j < |act|
    requires Fires(p0, act)[i] && Fires(p0, act)[j]
    ensures exists k :: i < k < j && !act[k]
  {
    FiresAt(p0, act, i);
    FiresAt(p0, act, j);
    assert i < j - 1 && !act[j - 1];
  }

  /** A frame that is not active re-arms the latch: what follows behaves exactly as polling a
      released widget. */
  lemma {:induction false} ReleaseRearms(p0: bool, a: seq<bool>, b: seq<bool>)
    ensures Fires(p0, a + [false] + b) == Fires(p0, a) + [false] + Fires(false, b)
    decreases |a|
  {
    if a == [] {
      assert a + [false] + b == [false] + b;
      assert ([false] + b)[1..] == b;
    } else {
      assert (a + [false] + b)[1..] == a[1..] + [false] + b;
      ReleaseRearms(a[0], a[1..], b);
    }
  }
}
