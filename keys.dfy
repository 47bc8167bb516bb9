/** The BLE keyboard as the sketch sees it: an append-only log of the key
    events it was asked to send, and what that log means for which keys the
    host believes are held down. */
module Keys {

  /** A key the sketch presses: a character of a typed text, or Enter
      (KEY_RETURN of the keyboard library). */
  datatype Key = Char(c: char) | Return

  /** One call into the keyboard: releaseAll(), press(k) or release(k). */
  datatype Event = ReleaseAll | Press(key: Key) | Release(key: Key)

  /** The keys of a text, in order, as they are handed to press(). */
  function Chars(s: string): seq<Key>
  {
    seq(|s|, j requires 0 <= j < |s| => Char(s[j]))
  }

  /** The keys pressed in a log, in the order they were pressed. */
  function Pressed(e: seq<Event>): seq<Key>
  {
    if e == [] then []
    else (if e[0].Press? then [e[0].key] else []) + Pressed(e[1..])
  }

  /** The keys held down after replaying a log on a keyboard with no key down. */
  function KeysDown(e: seq<Event>): set<Key>
  {
    if e == [] then {}
    else
      match e[|e| - 1]
      case ReleaseAll => {}
      case Press(k) => KeysDown(e[..|e| - 1]) + {k}
      case Release(k) => KeysDown(e[..|e| - 1]) - {k}
  }

  /** The release discipline: every press is followed at once by the
      release of the same key. */
  predicate PairedPresses(e: seq<Event>)
  {
    forall j :: 0 <= j < |e| ==> ReleasedNext(e, j)
  }

  /** The event at j, if a press, is followed by the release of its key. */
  predicate ReleasedNext(e: seq<Event>, j: nat)
    requires j < |e|
  {
    e[j].Press? ==> j + 1 < |e| && e[j + 1] == Release(e[j].key)
  }

  lemma PairedConcat(a: seq<Event>, b: seq<Event>)
    requires PairedPresses(a) && PairedPresses(b)
    ensures PairedPresses(a + b)
  {
    forall j | 0 <= j < |a + b| ensures ReleasedNext(a + b, j) {
      if j < |a| {
        assert ReleasedNext(a, j);
      } else {
        assert ReleasedNext(b, j - |a|);
      }
    }
  }

  lemma {:induction false} PressedConcat(a: seq<Event>, b: seq<Event>)
    ensures Pressed(a + b) == Pressed(a) + Pressed(b)
  {
    if a == [] {
      assert a + b == b;
    } else {
      var ab := a + b;
      assert ab[0] == a[0] && ab[1..] == a[1..] + b;
      PressedConcat(a[1..], b);
      assert Pressed(ab) == (if a[0].Press? then [a[0].key] else []) + Pressed(a[1..] + b);
    }
  }

  lemma AppendAssoc(x: seq<Event>, a: seq<Event>, b: seq<Event>, c: seq<Event>)
    ensures x + a + b + c == x + (a + b + c)
  {
  }

  /** The events a log gained by three appends. */
  lemma AppendedSuffix(x: seq<Event>, a: seq<Event>, b: seq<Event>, c: seq<Event>)
    ensures (x + a + b + c)[|x|..] == a + b + c
  {
    AppendAssoc(x, a, b, c);
  }

  /** Under the discipline, at every point of the log the only key that can
      be down is the one pressed by the last event. */
  lemma {:induction false} KeysDownPaired(e: seq<Event>, j: nat)
    requires PairedPresses(e)
    requires j <= |e|
    ensures KeysDown(e[..j]) == if j > 0 && e[j - 1].Press? then {e[j - 1].key} else {}
  {
    if j > 0 {
      KeysDownPaired(e, j - 1);
      assert e[..j][..j - 1] == e[..j - 1];
      assert e[..j][j - 1] == e[j - 1];
      if j > 1 {
        assert ReleasedNext(e, j - 2);
      }
    }
  }

  /** No key is ever stuck: at most one key is down at any moment, and none
      once the log is complete. */
  lemma NoKeyStuck(e: seq<Event>)
    requires PairedPresses(e)
    ensures KeysDown(e) == {}
    ensures forall j :: 0 <= j <= |e| ==> |KeysDown(e[..j])| <= 1
  {
    KeysDownPaired(e, |e|);
    assert e[..|e|] == e;
    if e != [] {
      assert ReleasedNext(e, |e| - 1);
    }
    forall j | 0 <= j <= |e| ensures |KeysDown(e[..j])| <= 1 {
      KeysDownPaired(e, j);
    }
  }
}
