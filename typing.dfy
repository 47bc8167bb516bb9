/** What typeReliablySafe and pressEnterSafe send, as functions of the text
    and of the answers the connection check gives. The connection status is
    an oracle `link`: the answer to the q-th isConnected() query of the run
    is link(q), so the link may drop between any two characters. */
module Typing {
  import opened Keys

  /** The characters of a C string: everything before the first NUL; the end
      of `s` stands for a terminator when `s` holds none. */
  function CString(s: string): (r: string)
    ensures r <= s
    ensures '\0' !in r
    ensures |r| < |s| ==> s[|r|] == '\0'
  {
    if s == [] || s[0] == '\0' then [] else [s[0]] + CString(s[1..])
  }

  /** How many consecutive queries, from query q on and at most n of them,
      report the link as connected. */
  function ConnectedRun(link: nat -> bool, q: nat, n: nat): (k: nat)
    ensures k <= n
    ensures forall j :: q <= j < q + k ==> link(j)
    ensures k < n ==> !link(q + k)
    decreases n
  {
    if n == 0 || !link(q) then 0 else 1 + ConnectedRun(link, q + 1, n - 1)
  }

  /** One press immediately followed by the release of the same key, per
      character, in text order. */
  function Keystrokes(s: string): (r: seq<Event>)
    ensures |r| == 2 * |s|
  {
    if s == [] then [] else [Press(Char(s[0])), Release(Char(s[0]))] + Keystrokes(s[1..])
  }

  /** Character j of the text is pressed at position 2j and released at 2j+1. */
  lemma {:induction false} KeystrokesAt(s: string, j: nat)
    requires j < |s|
    ensures Keystrokes(s)[2 * j] == Press(Char(s[j]))
    ensures Keystrokes(s)[2 * j + 1] == Release(Char(s[j]))
  {
    if j > 0 {
      KeystrokesAt(s[1..], j - 1);
    }
  }

  /** The log of one typing run that pressed exactly the characters of `s`:
      the opening barrier, the keystrokes, and the closing (or emergency)
      release-all. */
  function TypeEvents(s: string): (r: seq<Event>)
    ensures |r| == 2 * |s| + 2
    ensures r[0] == ReleaseAll && r[|r| - 1] == ReleaseAll
  {
    [ReleaseAll] + Keystrokes(s) + [ReleaseAll]
  }

  /** What pressEnterSafe sends, given the answer of its connection check. */
  function EnterEvents(connected: bool): (r: seq<Event>)
    ensures connected <==> r != []
    ensures r != [] ==> Press(Return) in r && r[|r| - 1] == ReleaseAll
  {
    if connected then [Press(Return), Release(Return), ReleaseAll] else []
  }

  /** The events of a run and the index of the next unasked query. */
  datatype Run = Run(events: seq<Event>, next: nat)

  /** typeReliablySafe(text) starting at query q: one query per character
      until the first one that reports a disconnect (that query is the last),
      or until the terminator. */
  function TypeRun(text: string, link: nat -> bool, q: nat): (r: Run)
    ensures q <= r.next <= q + |CString(text)|
    ensures |r.events| >= 2 && r.events[0] == ReleaseAll && r.events[|r.events| - 1] == ReleaseAll
  {
    var s := CString(text);
    var k := ConnectedRun(link, q, |s|);
    Run(TypeEvents(s[..k]), if k < |s| then q + k + 1 else q + k)
  }

  lemma {:induction false} KeystrokesSnoc(s: string, c: char)
    ensures Keystrokes(s + [c]) == Keystrokes(s) + [Press(Char(c)), Release(Char(c))]
  {
    if s == [] {
      assert s + [c] == [c];
    } else {
      assert (s + [c])[0] == s[0];
      assert (s + [c])[1..] == s[1..] + [c];
      KeystrokesSnoc(s[1..], c);
    }
  }

  lemma {:induction false} PressedKeystrokes(s: string)
    ensures Pressed(Keystrokes(s)) == Chars(s)
  {
    if s != [] {
      var pr := [Press(Char(s[0])), Release(Char(s[0]))];
      PressedKeystrokes(s[1..]);
      PressedConcat(pr, Keystrokes(s[1..]));
      assert Pressed(pr) == [Char(s[0])] by {
        assert pr[1..] == [Release(Char(s[0]))];
        assert pr[1..][1..] == [];
      }
      assert Chars(s) == [Char(s[0])] + Chars(s[1..]);
    }
  }

  lemma KeystrokesHaveNoReleaseAll(s: string)
    ensures ReleaseAll !in Keystrokes(s)
  {
    var r := Keystrokes(s);
    forall i | 0 <= i < |r| ensures r[i] != ReleaseAll {
      KeystrokesAt(s, i / 2);
    }
  }

  lemma TypeEventsPaired(s: string)
    ensures PairedPresses(TypeEvents(s))
  {
    var e := TypeEvents(s);
    var ks := Keystrokes(s);
    forall j | 0 <= j < |e| ensures ReleasedNext(e, j) {
      if 1 <= j <= |ks| {
        var i := j - 1;
        KeystrokesAt(s, i / 2);
        var c := Char(s[i / 2]);
        assert e[j] == ks[i] == if i % 2 == 0 then Press(c) else Release(c);
      }
    }
  }

  lemma PressedSingle(x: Event)
    ensures Pressed([x]) == if x.Press? then [x.key] else []
  {
    assert [x][1..] == [];
  }

  lemma TypeEventsPressed(s: string)
    ensures Pressed(TypeEvents(s)) == Chars(s)
  {
    var ks := Keystrokes(s);
    PressedKeystrokes(s);
    PressedConcat([ReleaseAll], ks);
    PressedConcat([ReleaseAll] + ks, [ReleaseAll]);
    PressedSingle(ReleaseAll);
  }

  lemma EnterEventsDiscipline(connected: bool)
    ensures PairedPresses(EnterEvents(connected))
    ensures Pressed(EnterEvents(connected)) == if connected then [Return] else []
  {
    if connected {
      PressedSingle(Press(Return));
      PressedSingle(Release(Return));
      PressedSingle(ReleaseAll);
      PressedConcat([Press(Return)], [Release(Return)]);
      PressedConcat([Press(Return), Release(Return)], [ReleaseAll]);
      assert EnterEvents(connected) == [Press(Return), Release(Return)] + [ReleaseAll];
    }
  }

  /** Whatever the link does, a typing run opens and closes with a release-all,
      keeps the release discipline, presses only characters whose preceding
      query reported connected, and presses a prefix of the text in order. */
  lemma TypeRunDiscipline(text: string, link: nat -> bool, q: nat)
    ensures var r := TypeRun(text, link, q);
      && r.events[0] == ReleaseAll
      && r.events[|r.events| - 1] == ReleaseAll
      && PairedPresses(r.events)
      && Pressed(r.events) <= Chars(CString(text))
      && (forall j :: q <= j < q + |Pressed(r.events)| ==> link(j))
      && r.next == q + |Pressed(r.events)| + (if |Pressed(r.events)| < |CString(text)| then 1 else 0)
  {
    var s := CString(text);
    var k := ConnectedRun(link, q, |s|);
    TypeEventsPaired(s[..k]);
    TypeEventsPressed(s[..k]);
    assert Chars(s[..k]) == Chars(s)[..k];
  }

  /** If every query reports connected, the whole text is typed: one press
      per character, in order, closed by a release-all. */
  lemma TypeRunCompletes(text: string, link: nat -> bool, q: nat)
    requires forall j :: q <= j < q + |CString(text)| ==> link(j)
    ensures var r := TypeRun(text, link, q);
      && r.events == TypeEvents(CString(text))
      && Pressed(r.events) == Chars(CString(text))
      && |Pressed(r.events)| == |CString(text)|
      && r.next == q + |CString(text)|
  {
    var s := CString(text);
    var k := ConnectedRun(link, q, |s|);
    assert s[..k] == s;
    TypeEventsPressed(s);
  }

  /** If query q + i is the first that reports a disconnect, exactly the
      characters before index i are pressed, a single release-all follows
      them, and no further query is asked. */
  lemma TypeRunAborts(text: string, link: nat -> bool, q: nat, i: nat)
    requires i < |CString(text)|
    requires forall j :: q <= j < q + i ==> link(j)
    requires !link(q + i)
    ensures var r := TypeRun(text, link, q);
      && r.events == [ReleaseAll] + Keystrokes(CString(text)[..i]) + [ReleaseAll]
      && ReleaseAll !in Keystrokes(CString(text)[..i])
      && Pressed(r.events) == Chars(CString(text)[..i])
      && r.next == q + i + 1
  {
    var s := CString(text);
    var k := ConnectedRun(link, q, |s|);
    assert k == i;
    KeystrokesHaveNoReleaseAll(s[..i]);
    TypeEventsPressed(s[..i]);
  }
}
