/**
 * The set of held keys (`keyPressed` in DeckComponent): `keydown` adds the
 * event's key, `keyup` removes it, and the window's `blur` clears the set.
 */
module Keys {

  /** A window event that changes the set of held keys. */
  datatype KeyEvent = KeyDown(key: string) | KeyUp(key: string) | Blur

  /** True when event `e` ends the hold of key `k`. */
  predicate Releases(e: KeyEvent, k: string) {
    e == KeyUp(k) || e == Blur
  }

  /** The held-key set after one event. */
  function Apply(held: set<string>, e: KeyEvent): (r: set<string>)
    ensures forall k :: k in r <==> e == KeyDown(k) || (k in held && !Releases(e, k))
  {
    match e
    case KeyDown(k) => held + {k}
    case KeyUp(k) => held - {k}
    case Blur => {}
  }

  /** The held-key set after the events `evs`, oldest first. */
  function ApplyAll(held: set<string>, evs: seq<KeyEvent>): set<string>
    decreases |evs|
  {
    if evs == [] then held else Apply(ApplyAll(held, evs[..|evs| - 1]), evs[|evs| - 1])
  }

  /**
   * Reference definition: `k` is held after `evs` when it was pressed (or
   * held at the start) and no later event released it.
   */
  ghost predicate HeldAfter(held: set<string>, evs: seq<KeyEvent>, k: string) {
    (k in held && forall j :: 0 <= j < |evs| ==> !Releases(evs[j], k))
    || exists i :: 0 <= i < |evs| && evs[i] == KeyDown(k) &&
                   forall j :: i < j < |evs| ==> !Releases(evs[j], k)
  }

  /** Replaying the handlers agrees with the reference definition, key by key. */
  lemma {:induction false} HeldIffPressedSinceRelease(held: set<string>, evs: seq<KeyEvent>, k: string)
    ensures k in ApplyAll(held, evs) <==> HeldAfter(held, evs, k)
  {
    if evs != [] {
      var n := |evs| - 1;
      var pre, e := evs[..n], evs[n];
      HeldIffPressedSinceRelease(held, pre, k);
      if e == KeyDown(k) {
        assert evs[n] == KeyDown(k);
      } else if Releases(e, k) {
        assert Releases(evs[n], k);
      } else {
        assert k in ApplyAll(held, evs) <==> k in ApplyAll(held, pre);
        if HeldAfter(held, pre, k) {
          if k in held && forall j :: 0 <= j < |pre| ==> !Releases(pre[j], k) {
            assert forall j :: 0 <= j < |evs| ==> !Releases(evs[j], k) by {
              forall j | 0 <= j < |evs| ensures !Releases(evs[j], k) {
                if j < n { assert evs[j] == pre[j]; }
              }
            }
          } else {
            var i :| 0 <= i < |pre| && pre[i] == KeyDown(k) &&
                     forall j :: i < j < |pre| ==> !Releases(pre[j], k);
            assert evs[i] == KeyDown(k);
            forall j | i < j < |evs| ensures !Releases(evs[j], k) {
              if j < n { assert evs[j] == pre[j]; }
            }
          }
        }
        if HeldAfter(held, evs, k) {
          if k in held && forall j :: 0 <= j < |evs| ==> !Releases(evs[j], k) {
            assert forall j :: 0 <= j < |pre| ==> !Releases(pre[j], k) by {
              forall j | 0 <= j < |pre| ensures !Releases(pre[j], k) {
                assert pre[j] == evs[j];
              }
            }
          } else {
            var i :| 0 <= i < |evs| && evs[i] == KeyDown(k) &&
                     forall j :: i < j < |evs| ==> !Releases(evs[j], k);
            assert i != n;
            assert pre[i] == KeyDown(k);
            forall j | i < j < |pre| ensures !Releases(pre[j], k) {
              assert pre[j] == evs[j];
            }
          }
        }
      }
    }
  }

  /** After a blur only keys pressed since then are held, whatever was held before. */
  lemma {:induction false} BlurForgetsEarlierKeys(held: set<string>, before: seq<KeyEvent>, after: seq<KeyEvent>, k: string)
    requires forall j :: 0 <= j < |after| ==> after[j] != KeyDown(k)
    ensures k !in ApplyAll(held, before + [Blur] + after)
  {
    var evs := before + [Blur] + after;
    var b := |before|;
    HeldIffPressedSinceRelease(held, evs, k);
    assert Releases(evs[b], k);
    assert forall j :: b < j < |evs| ==> evs[j] == after[j - b - 1];
  }
}
