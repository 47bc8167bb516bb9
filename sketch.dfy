/** The keep-alive sketch: the globals wasConnected and lastSendTime, the
    keyboard it drives, and one pass of loop(). The pure functions below say
    what one pass does to the whole state; the class Device runs it step by
    step, as the firmware does, and is proved to agree with them. */
module Sketch {
  import opened Keys
  import opened Typing
  import opened Interval

  /** Typed once per connection. */
  const GREETING: string := "Hello from ESP32C3 Bluetooth Keyboard!"
  /** Typed every SEND_INTERVAL while connected. */
  const REPORT: string := "Serial Number "

  /** The globals, the keyboard log, and how many connection queries have
      been asked so far. */
  datatype State = State(wasConnected: bool, lastSendTime: U32, trace: seq<Event>, queries: nat)

  /** typeReliablySafe(text) followed by pressEnterSafe(). */
  function Deliver(s: State, text: string, link: nat -> bool): (r: State)
    ensures s.trace <= r.trace
  {
    var t := TypeRun(text, link, s.queries);
    s.(trace := s.trace + t.events + EnterEvents(link(t.next)), queries := t.next + 1)
  }

  /** The new-connection block: mark connected, restart the interval at the
      clock reading tConnect, release all keys, greet, press Enter. */
  function OnConnect(s: State, connected: bool, link: nat -> bool, greeting: string, tConnect: U32): (r: State)
    ensures r.wasConnected == (s.wasConnected || connected)
    ensures s.trace <= r.trace && s.queries <= r.queries
    ensures connected && !s.wasConnected ==>
      r.lastSendTime == tConnect && |r.trace| > |s.trace| && r.trace[|s.trace|] == ReleaseAll
    ensures !connected || s.wasConnected ==> r == s
  {
    if connected && !s.wasConnected then
      Deliver(s.(wasConnected := true, lastSendTime := tConnect, trace := s.trace + [ReleaseAll]), greeting, link)
    else s
  }

  /** The disconnection block: mark disconnected and release all keys. */
  function OnDisconnect(s: State, connected: bool): (r: State)
    ensures r.wasConnected == (s.wasConnected && connected)
    ensures r.lastSendTime == s.lastSendTime && r.queries == s.queries
    ensures r.trace == s.trace + (if r.wasConnected == s.wasConnected then [] else [ReleaseAll])
  {
    if !connected && s.wasConnected then s.(wasConnected := false, trace := s.trace + [ReleaseAll])
    else s
  }

  /** The periodic block: when the interval has elapsed at clock reading tNow
      and a second check still reports connected, release all keys, type the
      report, press Enter and restart the interval. */
  function OnInterval(s: State, connected: bool, link: nat -> bool, report: string, tNow: U32): (r: State)
    ensures s.trace <= r.trace
    ensures var sent := connected && s.wasConnected && Due(tNow, s.lastSendTime) && link(s.queries);
      && r.wasConnected == s.wasConnected
      && r.lastSendTime == (if sent then tNow else s.lastSendTime)
      && (!sent ==> r.trace == s.trace)
  {
    if connected && s.wasConnected && Due(tNow, s.lastSendTime) then
      if link(s.queries) then
        Deliver(s.(trace := s.trace + [ReleaseAll], queries := s.queries + 1), report, link).(lastSendTime := tNow)
      else s.(queries := s.queries + 1)
    else s
  }

  /** One pass of loop(), typing `greeting` on a new connection and `report`
      every interval: sample the connection once, then the three blocks in
      order. */
  function Step(s: State, link: nat -> bool, greeting: string, report: string, tConnect: U32, tNow: U32): (r: State)
    ensures r.wasConnected == link(s.queries)
    ensures s.trace <= r.trace
    ensures s.queries < r.queries
  {
    var connected := link(s.queries);
    var s1 := OnConnect(s.(queries := s.queries + 1), connected, link, greeting, tConnect);
    OnInterval(OnDisconnect(s1, connected), connected, link, report, tNow)
  }

  lemma DeliverPaired(s: State, text: string, link: nat -> bool)
    requires PairedPresses(s.trace)
    ensures PairedPresses(Deliver(s, text, link).trace)
  {
    var t := TypeRun(text, link, s.queries);
    TypeRunDiscipline(text, link, s.queries);
    EnterEventsDiscipline(link(t.next));
    PairedConcat(s.trace, t.events);
    PairedConcat(s.trace + t.events, EnterEvents(link(t.next)));
  }

  lemma ReleaseAllPaired(e: seq<Event>)
    requires PairedPresses(e)
    ensures PairedPresses(e + [ReleaseAll])
  {
    PairedConcat(e, [ReleaseAll]);
  }

  lemma OnConnectPaired(s: State, connected: bool, link: nat -> bool, greeting: string, tConnect: U32)
    requires PairedPresses(s.trace)
    ensures PairedPresses(OnConnect(s, connected, link, greeting, tConnect).trace)
  {
    if connected && !s.wasConnected {
      ReleaseAllPaired(s.trace);
      DeliverPaired(s.(wasConnected := true, lastSendTime := tConnect, trace := s.trace + [ReleaseAll]), greeting, link);
    }
  }

  lemma OnIntervalPaired(s: State, connected: bool, link: nat -> bool, report: string, tNow: U32)
    requires PairedPresses(s.trace)
    ensures PairedPresses(OnInterval(s, connected, link, report, tNow).trace)
  {
    if connected && s.wasConnected && Due(tNow, s.lastSendTime) && link(s.queries) {
      ReleaseAllPaired(s.trace);
      DeliverPaired(s.(trace := s.trace + [ReleaseAll], queries := s.queries + 1), report, link);
    }
  }

  /** Every pass keeps the release discipline of the whole log, so after any
      number of passes no key is left down, and at most one key was ever
      down at a time. */
  lemma StepKeepsKeysReleased(s: State, link: nat -> bool, greeting: string, report: string, tConnect: U32, tNow: U32)
    requires PairedPresses(s.trace)
    ensures var r := Step(s, link, greeting, report, tConnect, tNow);
      && PairedPresses(r.trace)
      && KeysDown(r.trace) == {}
      && forall j :: 0 <= j <= |r.trace| ==> |KeysDown(r.trace[..j])| <= 1
  {
    var connected := link(s.queries);
    var s1 := OnConnect(s.(queries := s.queries + 1), connected, link, greeting, tConnect);
    OnConnectPaired(s.(queries := s.queries + 1), connected, link, greeting, tConnect);
    var s2 := OnDisconnect(s1, connected);
    if !connected && s1.wasConnected {
      ReleaseAllPaired(s1.trace);
    }
    OnIntervalPaired(s2, connected, link, report, tNow);
    NoKeyStuck(OnInterval(s2, connected, link, report, tNow).trace);
  }

  /** A falling edge only marks the link as down and releases all keys. */
  lemma FallingEdge(s: State, link: nat -> bool, greeting: string, report: string, tConnect: U32, tNow: U32)
    requires s.wasConnected && !link(s.queries)
    ensures Step(s, link, greeting, report, tConnect, tNow)
      == s.(wasConnected := false, trace := s.trace + [ReleaseAll], queries := s.queries + 1)
  {
  }

  /** While disconnected nothing is sent and the interval is left alone. */
  lemma StaysDisconnected(s: State, link: nat -> bool, greeting: string, report: string, tConnect: U32, tNow: U32)
    requires !s.wasConnected && !link(s.queries)
    ensures Step(s, link, greeting, report, tConnect, tNow) == s.(queries := s.queries + 1)
  {
  }

  /** While connected and before the interval has elapsed, a pass sends
      nothing and changes nothing but the query count. */
  lemma QuietUntilDue(s: State, link: nat -> bool, greeting: string, report: string, tConnect: U32, tNow: U32)
    requires s.wasConnected && link(s.queries) && !Due(tNow, s.lastSendTime)
    ensures Step(s, link, greeting, report, tConnect, tNow) == s.(queries := s.queries + 1)
  {
  }

  /** Outside a rising edge, lastSendTime moves exactly when the report is
      sent: connected before and now, interval elapsed, second check passed;
      it then becomes the clock reading of this pass. */
  lemma SendTimeMovesOnlyOnSend(s: State, link: nat -> bool, greeting: string, report: string, tConnect: U32, tNow: U32)
    requires s.wasConnected || !link(s.queries)
    ensures var sent := s.wasConnected && link(s.queries) && Due(tNow, s.lastSendTime) && link(s.queries + 1);
      Step(s, link, greeting, report, tConnect, tNow).lastSendTime == if sent then tNow else s.lastSendTime
  {
  }

  /** A rising edge restarts the interval at the connect reading; the same
      pass moves it again to tNow exactly when tNow is a full interval after
      the connect reading and the second check, asked right after the
      greeting, reports connected. Its first two events are the explicit
      release-all and the opening barrier of the greeting. */
  lemma RisingEdge(s: State, link: nat -> bool, greeting: string, report: string, tConnect: U32, tNow: U32)
    requires !s.wasConnected && link(s.queries)
    ensures var r := Step(s, link, greeting, report, tConnect, tNow);
      var d := Deliver(s.(queries := s.queries + 1, wasConnected := true, lastSendTime := tConnect,
                          trace := s.trace + [ReleaseAll]), greeting, link);
      && r.wasConnected
      && r.lastSendTime == (if Due(tNow, tConnect) && link(d.queries) then tNow else tConnect)
      && (!(Due(tNow, tConnect) && link(d.queries)) ==> r.trace == d.trace)
      && |r.trace| >= |s.trace| + 2
      && r.trace[|s.trace|] == ReleaseAll && r.trace[|s.trace| + 1] == ReleaseAll
  {
    var s0 := s.(queries := s.queries + 1);
    var s1 := s0.(wasConnected := true, lastSendTime := tConnect, trace := s.trace + [ReleaseAll]);
    var d := Deliver(s1, greeting, link);
    assert OnDisconnect(OnConnect(s0, true, link, greeting, tConnect), true) == d;
    var t := TypeRun(greeting, link, s1.queries);
    assert d.trace == s.trace + [ReleaseAll] + t.events + EnterEvents(link(t.next));
    assert d.trace[|s.trace|] == ReleaseAll && d.trace[|s.trace| + 1] == t.events[0];
    var r := OnInterval(d, true, link, report, tNow);
    assert d.trace <= r.trace;
  }

  /** When the interval has elapsed but the second check reports a
      disconnect, the pass sends nothing and leaves the interval running: only
      the two queries are spent, and the next pass tries again. */
  lemma SecondCheckFails(s: State, link: nat -> bool, greeting: string, report: string, tConnect: U32, tNow: U32)
    requires s.wasConnected && link(s.queries) && Due(tNow, s.lastSendTime) && !link(s.queries + 1)
    ensures Step(s, link, greeting, report, tConnect, tNow) == s.(queries := s.queries + 2)
  {
  }

  /** Delivery is best effort: if the link drops right after the second
      check and stays down, nothing of the report is typed, not even Enter,
      yet the interval restarts at
      tNow, so the report is not retried before the next interval. */
  lemma DroppedReportNotRetried(s: State, link: nat -> bool, greeting: string, report: string, tConnect: U32, tNow: U32)
    requires s.wasConnected && Due(tNow, s.lastSendTime)
    requires link(s.queries) && link(s.queries + 1) && !link(s.queries + 2) && !link(s.queries + 3)
    requires CString(report) != []
    ensures var r := Step(s, link, greeting, report, tConnect, tNow);
      && r.lastSendTime == tNow
      && r.trace == s.trace + [ReleaseAll, ReleaseAll, ReleaseAll]
      && r.queries == s.queries + 4
  {
    var s0 := s.(queries := s.queries + 1);
    assert OnDisconnect(OnConnect(s0, true, link, greeting, tConnect), true) == s0;
    TypeRunAborts(report, link, s.queries + 2, 0);
    assert CString(report)[..0] == [] && Keystrokes([]) == [];
    assert TypeRun(report, link, s.queries + 2) == Run([ReleaseAll, ReleaseAll], s.queries + 3);
    var s1 := s0.(trace := s.trace + [ReleaseAll], queries := s.queries + 2);
    assert Deliver(s1, report, link) == s1.(trace := s1.trace + [ReleaseAll, ReleaseAll], queries := s.queries + 4);
    assert s1.trace + [ReleaseAll, ReleaseAll] == s.trace + [ReleaseAll, ReleaseAll, ReleaseAll];
  }

  /** The pressed keys of a release-all, a typing log and an Enter. */
  lemma PressedMessage(text: string)
    ensures Pressed([ReleaseAll] + TypeEvents(text) + EnterEvents(true)) == Chars(text) + [Return]
  {
    PressedSingle(ReleaseAll);
    TypeEventsPressed(text);
    EnterEventsDiscipline(true);
    PressedConcat([ReleaseAll], TypeEvents(text));
    PressedConcat([ReleaseAll] + TypeEvents(text), EnterEvents(true));
  }

  /** With the link up throughout, a delivery types the whole text and one
      Enter. */
  lemma DeliverStable(s: State, text: string, link: nat -> bool)
    requires CString(text) == text
    requires forall j :: s.queries <= j <= s.queries + |text| ==> link(j)
    ensures Deliver(s, text, link)
      == s.(trace := s.trace + TypeEvents(text) + EnterEvents(true), queries := s.queries + |text| + 1)
  {
    TypeRunCompletes(text, link, s.queries);
    assert link(s.queries + |text|);
  }

  /** On a stable new connection the pass sends the whole greeting and one
      Enter, and leaves the interval starting at the connect reading. */
  lemma GreetingOnStableConnect(s: State, link: nat -> bool, greeting: string, report: string, tConnect: U32, tNow: U32)
    requires CString(greeting) == greeting
    requires !s.wasConnected && !Due(tNow, tConnect)
    requires forall j :: s.queries <= j <= s.queries + |greeting| + 1 ==> link(j)
    ensures var r := Step(s, link, greeting, report, tConnect, tNow);
      && r.wasConnected && r.lastSendTime == tConnect
      && r.trace == s.trace + [ReleaseAll] + TypeEvents(greeting) + [Press(Return), Release(Return), ReleaseAll]
      && Pressed(r.trace[|s.trace|..]) == Chars(greeting) + [Return]
  {
    assert link(s.queries);
    var s0 := s.(queries := s.queries + 1);
    var s1 := s0.(wasConnected := true, lastSendTime := tConnect, trace := s.trace + [ReleaseAll]);
    DeliverStable(s1, greeting, link);
    var d := Deliver(s1, greeting, link);
    assert OnConnect(s0, true, link, greeting, tConnect) == d;
    assert OnInterval(OnDisconnect(d, true), true, link, report, tNow) == d;
    AppendedSuffix(s.trace, [ReleaseAll], TypeEvents(greeting), EnterEvents(true));
    PressedMessage(greeting);
  }

  /** Once the interval has elapsed on a stable link, the pass sends the whole
      report and one Enter, and restarts the interval at tNow. */
  lemma ReportOnStableLink(s: State, link: nat -> bool, greeting: string, report: string, tConnect: U32, tNow: U32)
    requires CString(report) == report
    requires s.wasConnected && Due(tNow, s.lastSendTime)
    requires forall j :: s.queries <= j <= s.queries + |report| + 2 ==> link(j)
    ensures var r := Step(s, link, greeting, report, tConnect, tNow);
      && r.wasConnected && r.lastSendTime == tNow
      && r.trace == s.trace + [ReleaseAll] + TypeEvents(report) + [Press(Return), Release(Return), ReleaseAll]
      && Pressed(r.trace[|s.trace|..]) == Chars(report) + [Return]
  {
    assert link(s.queries) && link(s.queries + 1);
    var s0 := s.(queries := s.queries + 1);
    assert OnDisconnect(OnConnect(s0, true, link, greeting, tConnect), true) == s0;
    var s1 := s0.(trace := s.trace + [ReleaseAll], queries := s.queries + 2);
    DeliverStable(s1, report, link);
    var d := Deliver(s1, report, link);
    assert OnInterval(s0, true, link, report, tNow) == d.(lastSendTime := tNow);
    AppendedSuffix(s.trace, [ReleaseAll], TypeEvents(report), EnterEvents(true));
    PressedMessage(report);
  }

  /** The sketch's two messages hold no NUL, so they are typed in full. */
  lemma MessagesHaveNoNul()
    ensures CString(GREETING) == GREETING
    ensures CString(REPORT) == REPORT
  {
    assert forall i :: 0 <= i < |GREETING| ==> GREETING[i] != '\0';
    assert forall i :: 0 <= i < |REPORT| ==> REPORT[i] != '\0';
  }

  /** The firmware: the BLE keyboard (its log and its connection oracle) and
      the two globals of the sketch. */
  class Device {
    /** Answer of the q-th isConnected() query. */
    const link: nat -> bool
    /** The two string literals the sketch types. */
    const greeting: string
    const report: string
    var wasConnected: bool
    var lastSendTime: U32
    var trace: seq<Event>
    var queries: nat

    function Snapshot(): State
      reads this
    {
      State(wasConnected, lastSendTime, trace, queries)
    }

    /** The log keeps the release discipline (so, by Keys.NoKeyStuck, no key
        is down between calls). */
    predicate Valid()
      reads this
    {
      PairedPresses(trace)
    }

    constructor (link: nat -> bool)
      ensures this.link == link && greeting == GREETING && report == REPORT && Valid()
      ensures Snapshot() == State(false, 0, [], 0)
    {
      this.link := link;
      greeting := GREETING;
      report := REPORT;
      wasConnected := false;
      lastSendTime := 0;
      trace := [];
      queries := 0;
    }

    /** bleKeyboard.isConnected(): the next answer of the oracle. */
    method IsConnected() returns (connected: bool)
      modifies this
      ensures connected == link(old(queries))
      ensures queries == old(queries) + 1 && trace == old(trace)
      ensures wasConnected == old(wasConnected) && lastSendTime == old(lastSendTime)
    {
      connected := link(queries);
      queries := queries + 1;
    }

    /** bleKeyboard.press(k). */
    method PressKey(k: Key)
      modifies this
      ensures trace == old(trace) + [Press(k)] && queries == old(queries)
      ensures wasConnected == old(wasConnected) && lastSendTime == old(lastSendTime)
    {
      trace := trace + [Press(k)];
    }

    /** bleKeyboard.release(k). */
    method ReleaseKey(k: Key)
      modifies this
      ensures trace == old(trace) + [Release(k)] && queries == old(queries)
      ensures wasConnected == old(wasConnected) && lastSendTime == old(lastSendTime)
    {
      trace := trace + [Release(k)];
    }

    /** bleKeyboard.releaseAll(). */
    method ReleaseAllKeys()
      modifies this
      ensures trace == old(trace) + [ReleaseAll] && queries == old(queries)
      ensures wasConnected == old(wasConnected) && lastSendTime == old(lastSendTime)
    {
      trace := trace + [ReleaseAll];
    }

    /** typeReliablySafe(text): barrier, then per character a connection
        check and a press/release pair, aborting with a release-all on the
        first failed check; a final release-all on completion. */
    method TypeReliablySafe(text: string)
      requires Valid()
      modifies this
      ensures Valid()
      ensures var r := TypeRun(text, link, old(queries));
        trace == old(trace) + r.events && queries == r.next
      ensures wasConnected == old(wasConnected) && lastSendTime == old(lastSendTime)
    {
      ghost var s := CString(text);
      ghost var t0, q0 := trace, queries;
      ReleaseAllKeys();
      var i := 0;
      while i < |text| && text[i] != '\0'
        invariant i <= |s|
        invariant forall j :: q0 <= j < q0 + i ==> link(j)
        invariant trace == t0 + [ReleaseAll] + Keystrokes(s[..i]) && queries == q0 + i
        invariant wasConnected == old(wasConnected) && lastSendTime == old(lastSendTime)
        decreases |text| - i
      {
        var connected := IsConnected();
        if !connected {
          ReleaseAllKeys();
          TypeRunAborts(text, link, q0, i);
          AppendAssoc(t0, [ReleaseAll], Keystrokes(s[..i]), [ReleaseAll]);
          TypeEventsPaired(s[..i]);
          PairedConcat(t0, TypeEvents(s[..i]));
          return;
        }
        PressKey(Char(text[i]));
        ReleaseKey(Char(text[i]));
        KeystrokesSnoc(s[..i], text[i]);
        assert s[..i + 1] == s[..i] + [text[i]];
        i := i + 1;
      }
      ReleaseAllKeys();
      assert i == |s| && s[..i] == s;
      TypeRunCompletes(text, link, q0);
      AppendAssoc(t0, [ReleaseAll], Keystrokes(s), [ReleaseAll]);
      TypeEventsPaired(s);
      PairedConcat(t0, TypeEvents(s));
    }

    /** pressEnterSafe(): nothing when the check reports disconnected,
        otherwise press and release Enter and release all. */
    method PressEnterSafe()
      requires Valid()
      modifies this
      ensures Valid()
      ensures trace == old(trace) + EnterEvents(link(old(queries))) && queries == old(queries) + 1
      ensures wasConnected == old(wasConnected) && lastSendTime == old(lastSendTime)
    {
      ghost var t0 := trace;
      var connected := IsConnected();
      if !connected {
        return;
      }
      PressKey(Return);
      ReleaseKey(Return);
      ReleaseAllKeys();
      assert trace == t0 + EnterEvents(true);
      EnterEventsDiscipline(true);
      PairedConcat(t0, EnterEvents(true));
    }

    /** One pass of loop(). tConnect is what millis() reads in the
        new-connection block, tNow what it reads in the periodic block. */
    method Loop(tConnect: U32, tNow: U32)
      requires Valid()
      modifies this
      ensures Valid()
      ensures Snapshot() == Step(old(Snapshot()), link, greeting, report, tConnect, tNow)
    {
      var isConnected := IsConnected();
      ConnectBlock(isConnected, tConnect);
      DisconnectBlock(isConnected);
      IntervalBlock(isConnected, tNow);
    }

    /** The new-connection block of loop(). */
    method ConnectBlock(isConnected: bool, tConnect: U32)
      requires Valid()
      modifies this
      ensures Valid()
      ensures Snapshot() == OnConnect(old(Snapshot()), isConnected, link, greeting, tConnect)
    {
      if isConnected && !wasConnected {
        wasConnected := true;
        lastSendTime := tConnect;
        ReleaseAllPaired(trace);
        ReleaseAllKeys();
        TypeReliablySafe(greeting);
        PressEnterSafe();
      }
    }

    /** The disconnection block of loop(). */
    method DisconnectBlock(isConnected: bool)
      requires Valid()
      modifies this
      ensures Valid()
      ensures Snapshot() == OnDisconnect(old(Snapshot()), isConnected)
    {
      if !isConnected && wasConnected {
        wasConnected := false;
        ReleaseAllPaired(trace);
        ReleaseAllKeys();
      }
    }

    /** The periodic block of loop(). */
    method IntervalBlock(isConnected: bool, tNow: U32)
      requires Valid()
      modifies this
      ensures Valid()
      ensures Snapshot() == OnInterval(old(Snapshot()), isConnected, link, report, tNow)
    {
      if isConnected && wasConnected {
        var currentTime := tNow;
        if Sub(currentTime, lastSendTime) >= SEND_INTERVAL {
          var stillConnected := IsConnected();
          if stillConnected {
            ReleaseAllPaired(trace);
            ReleaseAllKeys();
            TypeReliablySafe(report);
            PressEnterSafe();
            lastSendTime := currentTime;
          }
        }
      }
    }
  }
}
