/** What samsung_ac/client.py promises, proved about the `Client` model. */
module ClientProperties {
  import opened Wrappers
  import opened Messages
  import opened Pairing
  import opened Client

  /** What the line loop does with the line it stops at. */
  function React(o: Options, s: Session, line: Line): Session {
    if RejectsVersion(line) then RejectVersion(s) else HandleDocument(o, s, line.doc)
  }

  /** Lines that are neither a rejected version nor a document are passed over without any effect. */
  lemma {:induction false} SkippedLinesChangeNothing(o: Options, s: Session, lines: seq<Line>)
    requires NoStop(lines)
    ensures HandleLines(o, s, lines) == s
    decreases |lines|
  {
    if lines != [] {
      assert !Stops(lines[0]);
      SkippedLinesChangeNothing(o, s, lines[1..]);
    }
  }

  /** At most one line per chunk is acted on: the first rejected version or document decides the chunk. */
  lemma {:induction false} FirstStopDecides(o: Options, s: Session, lines: seq<Line>, i: int)
    requires FirstStopAt(lines, i)
    ensures HandleLines(o, s, lines) == React(o, s, lines[i])
    decreases |lines|
  {
    if i > 0 {
      assert !Stops(lines[0]);
      assert FirstStopAt(lines[1..], i - 1) by {
        forall j | 0 <= j < i - 1 ensures !Stops(lines[1..][j]) {
          assert lines[1..][j] == lines[j + 1];
        }
      }
      FirstStopDecides(o, s, lines[1..], i - 1);
    }
  }

  /** A chunk with nothing to act on leaves every flag as it was and keeps the connection open. */
  lemma QuietChunkKeepsConnection(o: Options, s: Session, lines: seq<Line>)
    requires NoStop(lines)
    ensures ReceiveChunk(o, s, lines) == s.(link := s.link.(stayConnected := true))
  {
    SkippedLinesChangeNothing(o, s.(link := s.link.(stayConnected := true)), lines);
  }

  /** A version line other than `DPLUG-1.6` ends the session: the transport closes and nothing is written. */
  lemma UnsupportedVersionCloses(o: Options, s: Session, lines: seq<Line>, i: int)
    requires FirstStopAt(lines, i) && RejectsVersion(lines[i])
    ensures ReceiveChunk(o, s, lines)
            == s.(link := s.link.(stayConnected := false, closed := true,
                                  notices := s.link.notices + [VersionUnsupported]))
  {
    FirstStopDecides(o, s.(link := s.link.(stayConnected := true)), lines, i);
  }

  /** While unauthenticated with a token, InvalidateAccount writes exactly one AuthToken request bearing it. */
  lemma InvalidateAccountSendsToken(o: Options, s: Session, lines: seq<Line>, i: int)
    requires FirstStopAt(lines, i) && IsDocument(lines[i]) && IsInvalidateAccount(lines[i].doc)
    requires !s.authenticated && TokenConfigured(o)
    ensures var r := ReceiveChunk(o, s, lines);
            r.link.written == s.link.written + [AuthTokenRequest(o.token.value)]
            && r.link.stayConnected && r.link.closed == s.link.closed && !r.authenticated
  {
    FirstStopDecides(o, s.(link := s.link.(stayConnected := true)), lines, i);
  }

  /** Without a token, InvalidateAccount writes exactly one GetToken request and keeps the connection. */
  lemma InvalidateAccountStartsPairing(o: Options, s: Session, lines: seq<Line>, i: int)
    requires FirstStopAt(lines, i) && IsDocument(lines[i]) && IsInvalidateAccount(lines[i].doc)
    requires !s.authenticated && !TokenConfigured(o)
    ensures var r := ReceiveChunk(o, s, lines);
            r.link.written == s.link.written + [GetTokenRequest]
            && r.link.stayConnected && r.link.closed == s.link.closed
  {
    FirstStopDecides(o, s.(link := s.link.(stayConnected := true)), lines, i);
  }

  /** AuthToken/Okay authenticates and runs the post-auth hand-off once; the connection stays open. */
  lemma AuthOkayHandsOff(o: Options, s: Session, lines: seq<Line>, i: int)
    requires FirstStopAt(lines, i) && IsDocument(lines[i]) && IsAuthOkay(lines[i].doc)
    requires !s.authenticated && TokenConfigured(o)
    ensures var r := ReceiveChunk(o, s, lines);
            r.authenticated
            && r.link.written == s.link.written + PostAuthWrites(o)
            && r.postAuthTimers == s.postAuthTimers + (if o.postAuthInterval.Some? then 1 else 0)
            && r.link.stayConnected && r.link.closed == s.link.closed
  {
    FirstStopDecides(o, s.(link := s.link.(stayConnected := true)), lines, i);
  }

  /** AuthToken/Fail reports the device's error code, writes nothing and closes the connection. */
  lemma AuthFailCloses(o: Options, s: Session, lines: seq<Line>, i: int)
    requires FirstStopAt(lines, i) && IsDocument(lines[i]) && IsAuthFail(lines[i].doc)
    requires !s.authenticated && TokenConfigured(o)
    ensures var r := ReceiveChunk(o, s, lines);
            r.link.written == s.link.written && r.link.closed && !r.authenticated
            && r.link.notices == s.link.notices + [AuthFailed(lines[i].doc.errorCode)]
  {
    FirstStopDecides(o, s.(link := s.link.(stayConnected := true)), lines, i);
  }

  /**
   * Once authenticated, a DeviceState snapshot is stored, handed to the
   * callback once, nothing is written, and the connection stays open exactly
   * when the caller asked for it.
   */
  lemma DeviceStateDelivered(o: Options, s: Session, lines: seq<Line>, i: int)
    requires FirstStopAt(lines, i) && IsDocument(lines[i]) && IsDeviceState(lines[i].doc)
    requires s.authenticated
    ensures var r := ReceiveChunk(o, s, lines);
            r.responseData == lines[i].doc.attrs
            && r.callbacks == s.callbacks + (if o.hasCallback then [lines[i].doc] else [])
            && r.link.written == s.link.written
            && r.link.stayConnected == o.stayConnected
            && r.link.closed == (s.link.closed || !o.stayConnected)
  {
    FirstStopDecides(o, s.(link := s.link.(stayConnected := true)), lines, i);
  }

  /**
   * Once authenticated, any other document is forwarded to the callback (or
   * reported), leaves `response_data` alone, and still sets `stay_connected`
   * to the configured value.
   */
  lemma OtherDocumentForwarded(o: Options, s: Session, lines: seq<Line>, i: int)
    requires FirstStopAt(lines, i) && IsDocument(lines[i]) && !IsDeviceState(lines[i].doc)
    requires s.authenticated
    ensures var r := ReceiveChunk(o, s, lines);
            r.responseData == s.responseData
            && r.callbacks == s.callbacks + (if o.hasCallback then [lines[i].doc] else [])
            && r.link.notices == s.link.notices + (if o.hasCallback then [] else [Unsupported(lines[i].doc)])
            && r.link.written == s.link.written
            && r.link.closed == (s.link.closed || !o.stayConnected)
  {
    FirstStopDecides(o, s.(link := s.link.(stayConnected := true)), lines, i);
  }

  /** Authentication, once gained, is never lost, whatever events follow. */
  lemma {:induction false} AuthenticationIsMonotonic(o: Options, s: Session, events: seq<Event>)
    requires s.authenticated
    ensures Run(o, s, events).authenticated
    decreases |events|
  {
    if events != [] {
      AuthenticationIsMonotonic(o, Step(o, s, events[0]), events[1..]);
    }
  }

  /** Number of post-auth commands in a write log. */
  function CommandCount(ws: seq<Request>): nat {
    if ws == [] then 0 else CommandCount(ws[..|ws| - 1]) + (if ws[|ws| - 1].Command? then 1 else 0)
  }

  lemma CommandCountAppend(ws: seq<Request>, r: Request)
    ensures CommandCount(ws + [r]) == CommandCount(ws) + (if r.Command? then 1 else 0)
  {
  }

  /** The post-auth commands a handler adds: one exactly when it authenticates and a command is set. */
  ghost predicate AddsCommandOnlyOnAuth(o: Options, s: Session, r: Session) {
    |s.link.written| <= |r.link.written|
    && CommandCount(r.link.written)
       == CommandCount(s.link.written)
          + (if r.authenticated && !s.authenticated && o.postAuthCommand.Some? then 1 else 0)
  }

  lemma {:induction false} ChunkAddsCommandOnlyOnAuth(o: Options, s: Session, lines: seq<Line>)
    ensures AddsCommandOnlyOnAuth(o, s, HandleLines(o, s, lines))
    decreases |lines|
  {
    if lines != [] {
      if StartsWith(lines[0].text, VersionPrefix) || !StartsWith(lines[0].text, XmlPrefix) {
        ChunkAddsCommandOnlyOnAuth(o, s, lines[1..]);
      } else if !s.authenticated && TokenConfigured(o) {
        var doc := lines[0].doc;
        if IsInvalidateAccount(doc) {
          CommandCountAppend(s.link.written, AuthTokenRequest(o.token.value));
        } else if IsAuthOkay(doc) && o.postAuthCommand.Some? {
          CommandCountAppend(s.link.written, Command(o.postAuthCommand.value));
        } else if IsAuthOkay(doc) {
          assert s.link.written + PostAuthWrites(o) == s.link.written;
        }
      } else if !s.authenticated && IsInvalidateAccount(lines[0].doc) {
        CommandCountAppend(s.link.written, GetTokenRequest);
      }
    }
  }

  /**
   * With no timer interval configured, the post-auth command is written
   * exactly once over any run: when, and only when, the run authenticates.
   */
  lemma {:induction false} CommandOnceWithoutTimer(o: Options, s: Session, events: seq<Event>)
    requires o.postAuthInterval.None? && s.postAuthTimers == 0
    ensures AddsCommandOnlyOnAuth(o, s, Run(o, s, events))
    decreases |events|
  {
    if events != [] {
      var s' := Step(o, s, events[0]);
      match events[0] {
        case Received(lines) =>
          if !s.link.closed {
            ChunkAddsCommandOnlyOnAuth(o, s.(link := s.link.(stayConnected := true)), lines);
            ChunkKeepsTimers(o, s.(link := s.link.(stayConnected := true)), lines);
          }
        case PairTimerFired =>
        case PostAuthTimerFired =>
      }
      CommandOnceWithoutTimer(o, s', events[1..]);
      if s'.authenticated {
        AuthenticationIsMonotonic(o, s', events[1..]);
      }
    }
  }

  /** A chunk arms the post-auth timer only by authenticating, and only when an interval is configured. */
  lemma {:induction false} ChunkKeepsTimers(o: Options, s: Session, lines: seq<Line>)
    ensures var r := HandleLines(o, s, lines);
            r.postAuthTimers
            == s.postAuthTimers + (if r.authenticated && !s.authenticated && o.postAuthInterval.Some? then 1 else 0)
    decreases |lines|
  {
    if lines != [] && (StartsWith(lines[0].text, VersionPrefix) || !StartsWith(lines[0].text, XmlPrefix)) {
      ChunkKeepsTimers(o, s, lines[1..]);
    }
  }

  /** Exactly one post-auth timer is pending once authenticated with an interval, none otherwise. */
  ghost predicate OneTimerOnceAuthenticated(o: Options, s: Session) {
    s.postAuthTimers == if s.authenticated && o.postAuthInterval.Some? then 1 else 0
  }

  lemma {:induction false} TimerInvariantHolds(o: Options, s: Session, events: seq<Event>)
    requires OneTimerOnceAuthenticated(o, s)
    ensures OneTimerOnceAuthenticated(o, Run(o, s, events))
    decreases |events|
  {
    if events != [] {
      if events[0].Received? && !s.link.closed {
        ChunkKeepsTimers(o, s.(link := s.link.(stayConnected := true)), events[0].lines);
      }
      TimerInvariantHolds(o, Step(o, s, events[0]), events[1..]);
    }
  }

  function Ticks(k: nat): seq<Event> {
    seq(k, _ => PostAuthTimerFired)
  }

  function Repeat(ws: seq<Request>, k: nat): seq<Request> {
    if k == 0 then [] else ws + Repeat(ws, k - 1)
  }

  /**
   * Streaming: with an interval configured and the timer armed, k expiries
   * write the post-auth command k more times, keep exactly the same timers
   * armed, and change nothing else.
   */
  lemma {:induction false} PeriodicPolling(o: Options, s: Session, k: nat)
    requires o.postAuthInterval.Some? && s.postAuthTimers > 0
    ensures Run(o, s, Ticks(k))
            == s.(link := s.link.(written := s.link.written + Repeat(PostAuthWrites(o), k)))
    decreases k
  {
    if k == 0 {
      assert Ticks(0) == [];
      assert s.link.written + [] == s.link.written;
    } else {
      var w := PostAuthWrites(o);
      var s' := Step(o, s, PostAuthTimerFired);
      assert s' == s.(link := s.link.(written := s.link.written + w));
      assert Ticks(k)[0] == PostAuthTimerFired && Ticks(k)[1..] == Ticks(k - 1);
      PeriodicPolling(o, s', k - 1);
      assert s.link.written + w + Repeat(w, k - 1) == s.link.written + Repeat(w, k);
    }
  }

  /** A closed session that no longer waits for a token produces no further diagnostic. */
  lemma {:induction false} ClosedWithoutPairingIsQuiet(o: Options, s: Session, events: seq<Event>)
    requires s.link.closed && !s.link.waitingForToken
    ensures var r := Run(o, s, events);
            r.link.closed && !r.link.waitingForToken && r.link.notices == s.link.notices
    decreases |events|
  {
    if events != [] {
      ClosedWithoutPairingIsQuiet(o, Step(o, s, events[0]), events[1..]);
    }
  }

  /**
   * Pairing completion beats the timer: a completed token ends the session
   * with exactly one result, and whatever fires afterwards, the pairing
   * timer included, adds no second or conflicting one.
   */
  lemma TokenCompletionWinsRace(o: Options, s: Session, lines: seq<Line>, i: int, later: seq<Event>)
    requires FirstStopAt(lines, i) && IsDocument(lines[i]) && IsTokenCompleted(lines[i].doc)
    requires !s.authenticated && !TokenConfigured(o) && !s.link.closed
    ensures var r := Run(o, s, [Received(lines)] + later);
            r.link.closed && !r.link.waitingForToken
            && r.link.notices == s.link.notices + [TokenAcquired(lines[i].doc.token)]
  {
    FirstStopDecides(o, s.(link := s.link.(stayConnected := true)), lines, i);
    var s' := Step(o, s, Received(lines));
    assert ([Received(lines)] + later)[1..] == later;
    ClosedWithoutPairingIsQuiet(o, s', later);
  }

  /** Running two event sequences one after the other is running their concatenation. */
  lemma {:induction false} RunAppend(o: Options, s: Session, first: seq<Event>, second: seq<Event>)
    ensures Run(o, s, first + second) == Run(o, Run(o, s, first), second)
    decreases |first|
  {
    if first != [] {
      assert (first + second)[0] == first[0];
      assert (first + second)[1..] == first[1..] + second;
      RunAppend(o, Step(o, s, first[0]), first[1..], second);
    } else {
      assert first + second == second;
    }
  }

  /** Events that cannot end the wait for a token: no chunk whose decisive document completes or refuses it. */
  ghost predicate KeepsWaiting(events: seq<Event>) {
    forall e :: e in events ==> !(e.Received? && EndsPairing(e.lines))
  }

  /**
   * Without a configured token an unauthenticated session stays in the pairing
   * flow: a chunk that does not end the wait leaves the token awaited, reports
   * no token, authenticates nothing and disarms no pairing timer.
   */
  lemma ChunkKeepsWait(o: Options, s: Session, lines: seq<Line>)
    requires !s.authenticated && !TokenConfigured(o) && s.link.waitingForToken && !EndsPairing(lines)
    ensures var r := ReceiveChunk(o, s, lines);
            !r.authenticated && r.link.waitingForToken && AddsNoToken(s.link.notices, r.link.notices)
            && r.link.pairTimers >= s.link.pairTimers
  {
    var s' := s.(link := s.link.(stayConnected := true));
    StopOrNone(lines);
    if NoStop(lines) {
      QuietChunkKeepsConnection(o, s, lines);
      AddsNoTokenAppend(s.link.notices, []);
      assert s.link.notices + [] == s.link.notices;
    } else {
      var i :| FirstStopAt(lines, i);
      FirstStopDecides(o, s', lines, i);
      if RejectsVersion(lines[i]) {
        AddsNoTokenAppend(s.link.notices, [VersionUnsupported]);
      } else {
        assert !IsTokenCompleted(lines[i].doc) && !IsTokenRefused(lines[i].doc);
      }
    }
  }

  /** Until a chunk completes or refuses the token, the wait outlasts every event, and no token is reported. */
  lemma {:induction false} WaitHolds(o: Options, s: Session, events: seq<Event>)
    requires !s.authenticated && !TokenConfigured(o) && s.link.waitingForToken && KeepsWaiting(events)
    ensures var r := Run(o, s, events);
            !r.authenticated && r.link.waitingForToken && AddsNoToken(s.link.notices, r.link.notices)
            && ((forall e :: e in events ==> !e.PairTimerFired?) ==> r.link.pairTimers >= s.link.pairTimers)
    decreases |events|
  {
    if events == [] {
      AddsNoTokenAppend(s.link.notices, []);
      assert s.link.notices + [] == s.link.notices;
    } else {
      var s1 := Step(o, s, events[0]);
      assert events[0] in events;
      match events[0] {
        case Received(lines) =>
          if s.link.closed {
            AddsNoTokenAppend(s.link.notices, []);
            assert s.link.notices + [] == s.link.notices;
          } else {
            ChunkKeepsWait(o, s, lines);
          }
        case PairTimerFired =>
          if s.link.pairTimers > 0 {
            AddsNoTokenAppend(s.link.notices, [PairingExpired]);
          } else {
            AddsNoTokenAppend(s.link.notices, []);
            assert s.link.notices + [] == s.link.notices;
          }
        case PostAuthTimerFired =>
          AddsNoTokenAppend(s.link.notices, []);
          assert s.link.notices + [] == s.link.notices;
      }
      assert KeepsWaiting(events[1..]) by {
        forall e | e in events[1..] ensures !(e.Received? && EndsPairing(e.lines)) {
          assert e in events;
        }
      }
      WaitHolds(o, s1, events[1..]);
      AddsNoTokenTransitive(s.link.notices, s1.link.notices, Run(o, s1, events[1..]).link.notices);
      if forall e :: e in events ==> !e.PairTimerFired? {
        assert forall e :: e in events[1..] ==> e in events;
      }
    }
  }

  /**
   * Pairing timeout. GetToken/Ready opens the pairing wait. Whatever events
   * follow, as long as none of them completes or refuses the token, the token
   * stays awaited and none is reported; the pairing timer armed by this chunk
   * is still pending unless a timer fired in between, and the next expiry of an
   * armed timer closes the connection and reports that pairing expired,
   * without a token.
   */
  lemma PairingTimesOut(o: Options, s: Session, lines: seq<Line>, i: int, between: seq<Event>)
    requires FirstStopAt(lines, i) && IsDocument(lines[i]) && IsTokenReady(lines[i].doc)
    requires !s.authenticated && !TokenConfigured(o) && !s.link.closed && KeepsWaiting(between)
    ensures var m := Run(o, s, [Received(lines)] + between);
            m.link.waitingForToken && AddsNoToken(s.link.notices + [PowerOnPrompt], m.link.notices)
            && ((forall e :: e in between ==> !e.PairTimerFired?) ==> m.link.pairTimers > s.link.pairTimers)
    ensures var m := Run(o, s, [Received(lines)] + between);
            var r := Run(o, s, [Received(lines)] + between + [PairTimerFired]);
            m.link.pairTimers > 0
            ==> r.link.closed && r.link.written == m.link.written
                && r.link.notices == m.link.notices + [PairingExpired]
                && AddsNoToken(s.link.notices + [PowerOnPrompt], r.link.notices)
  {
    FirstStopDecides(o, s.(link := s.link.(stayConnected := true)), lines, i);
    var s1 := Step(o, s, Received(lines));
    assert s1.link.notices == s.link.notices + [PowerOnPrompt] && s1.link.waitingForToken;
    assert s1.link.pairTimers == s.link.pairTimers + 1 && !s1.authenticated;
    RunAppend(o, s, [Received(lines)], between);
    assert Run(o, s, [Received(lines)]) == s1 by {
      assert [Received(lines)][1..] == [];
    }
    WaitHolds(o, s1, between);
    var m := Run(o, s1, between);
    if m.link.pairTimers > 0 {
      RunAppend(o, s, [Received(lines)] + between, [PairTimerFired]);
      assert Run(o, m, [PairTimerFired]) == PairTimerTick(m) by {
        assert [PairTimerFired][1..] == [];
      }
      AddsNoTokenAppend(m.link.notices, [PairingExpired]);
      AddsNoTokenTransitive(s1.link.notices, m.link.notices, m.link.notices + [PairingExpired]);
    }
  }

  /** A closed session with no timer armed ignores every further event. */
  lemma {:induction false} ClosedIdleSessionIsInert(o: Options, s: Session, events: seq<Event>)
    requires s.link.closed && s.link.pairTimers == 0 && s.postAuthTimers == 0
    ensures Run(o, s, events) == s
    decreases |events|
  {
    if events != [] {
      ClosedIdleSessionIsInert(o, s, events[1..]);
    }
  }

  const Version := Line("DPLUG-1.6", Other(""))

  function Xml(doc: Doc): Line {
    Line("<?xml version='1.0' encoding='utf-8'?>", doc)
  }

  lemma VersionChunk(o: Options, s: Session)
    ensures ProcessChunk(o, s, [Version]) == s.(link := s.link.(stayConnected := true))
  {
    assert Version.text[..5] == VersionPrefix by {
      forall k | 0 <= k < 5 ensures Version.text[..5][k] == VersionPrefix[k] { }
    }
    var s' := s.(link := s.link.(stayConnected := true));
    assert Version.text == SupportedVersion;
    assert [Version][1..] == [];
    assert HandleLines(o, s', [Version]) == HandleLines(o, s', []);
  }

  lemma DocumentChunk(o: Options, s: Session, doc: Doc)
    ensures ProcessChunk(o, s, [Xml(doc)]) == HandleDocument(o, s.(link := s.link.(stayConnected := true)), doc)
  {
    var text := Xml(doc).text;
    assert text[..5] == XmlPrefix by {
      forall k | 0 <= k < 5 ensures text[..5][k] == XmlPrefix[k] { }
    }
    assert text[..5] != VersionPrefix by {
      assert text[0] == '<';
      assert text[..5][0] == '<';
      assert VersionPrefix[0] == 'D';
    }
  }

  /** The opening of the acquire-token run: version, InvalidateAccount, Ready. */
  lemma AcquireTokenOpens()
    ensures var o := Options(None, None, None, false, false);
            var s := Run(o, Initial(), [
              Received([Version]),
              Received([Xml(Update("InvalidateAccount", "", ""))]),
              Received([Xml(Response("GetToken", "Ready", "", None))])]);
            s.link.written == [GetTokenRequest] && s.link.notices == [PowerOnPrompt]
            && s.link.waitingForToken && s.link.pairTimers == 1 && !s.link.closed && !s.authenticated
  {
    var o := Options(None, None, None, false, false);
    var e0, e1, e2 :=
      Received([Version]),
      Received([Xml(Update("InvalidateAccount", "", ""))]),
      Received([Xml(Response("GetToken", "Ready", "", None))]);
    var s0 := Initial();
    VersionChunk(o, s0);
    var s1 := Step(o, s0, e0);
    DocumentChunk(o, s1, e1.lines[0].doc);
    var s2 := Step(o, s1, e1);
    assert s2.link.written == [GetTokenRequest] && !s2.link.closed;
    DocumentChunk(o, s2, e2.lines[0].doc);
    var s3 := Step(o, s2, e2);
    assert s3.link.waitingForToken && s3.link.pairTimers == 1 && s3.link.notices == [PowerOnPrompt];
    assert [e0, e1, e2] == [e0] + ([e1] + ([e2] + []));
    RunCons(o, s0, e0, [e1] + ([e2] + []));
    RunCons(o, s1, e1, [e2] + []);
    RunCons(o, s2, e2, []);
  }

  /** Acquire-token mode: no token; InvalidateAccount, Ready, then Completed with token XYZ. */
  lemma AcquireTokenScenario()
    ensures var o := Options(None, None, None, false, false);
            var r := Run(o, Initial(), [
              Received([Version]),
              Received([Xml(Update("InvalidateAccount", "", ""))]),
              Received([Xml(Response("GetToken", "Ready", "", None))]),
              Received([Xml(Update("GetToken", "Completed", "XYZ"))]),
              PairTimerFired]);
            r.link.written == [GetTokenRequest]
            && r.link.notices == [PowerOnPrompt, TokenAcquired("XYZ")]
            && r.link.closed && !r.authenticated
  {
    var o := Options(None, None, None, false, false);
    var e0, e1, e2, e3, e4 :=
      Received([Version]),
      Received([Xml(Update("InvalidateAccount", "", ""))]),
      Received([Xml(Response("GetToken", "Ready", "", None))]),
      Received([Xml(Update("GetToken", "Completed", "XYZ"))]),
      PairTimerFired;
    AcquireTokenOpens();
    var s3 := Run(o, Initial(), [e0, e1, e2]);
    DocumentChunk(o, s3, e3.lines[0].doc);
    var s4 := Step(o, s3, e3);
    assert s4.link.closed && !s4.link.waitingForToken;
    assert s4.link.notices == [PowerOnPrompt, TokenAcquired("XYZ")];
    var s5 := Step(o, s4, e4);
    assert s5.link.notices == s4.link.notices;
    assert [e0, e1, e2, e3, e4] == [e0, e1, e2] + ([e3] + ([e4] + []));
    RunAppend(o, Initial(), [e0, e1, e2], [e3] + ([e4] + []));
    RunCons(o, s3, e3, [e4] + []);
    RunCons(o, s4, e4, []);
  }

  /** The DeviceState request for device D1 as get-stats.py serialises it: XML declaration, one line, CRLF. */
  const DeviceStateCommand: string :=
    "<?xml version=\"1.0\" encoding=\"utf-8\"?><Request Type=\"DeviceState\"><State DUID=\"D1\"></State></Request>\r\n"

  /** The opening of the fetch-once run: version, InvalidateAccount, AuthToken/Okay. */
  lemma FetchOnceOpens()
    ensures var o := Options(Some("T1"), Some(DeviceStateCommand), None, false, false);
            var s := Run(o, Initial(), [
              Received([Version]),
              Received([Xml(Update("InvalidateAccount", "", ""))]),
              Received([Xml(Response("AuthToken", "Okay", "", None))])]);
            s.authenticated && s.link.written == [AuthTokenRequest("T1"), Command(DeviceStateCommand)]
            && !s.link.closed
  {
    var o := Options(Some("T1"), Some(DeviceStateCommand), None, false, false);
    var e0, e1, e2 :=
      Received([Version]),
      Received([Xml(Update("InvalidateAccount", "", ""))]),
      Received([Xml(Response("AuthToken", "Okay", "", None))]);
    var s0 := Initial();
    VersionChunk(o, s0);
    var s1 := Step(o, s0, e0);
    DocumentChunk(o, s1, e1.lines[0].doc);
    var s2 := Step(o, s1, e1);
    assert s2.link.written == [AuthTokenRequest("T1")] && !s2.link.closed;
    DocumentChunk(o, s2, e2.lines[0].doc);
    var s3 := Step(o, s2, e2);
    assert s3.authenticated && s3.link.written == [AuthTokenRequest("T1"), Command(DeviceStateCommand)];
    assert [e0, e1, e2] == [e0] + ([e1] + ([e2] + []));
    RunCons(o, s0, e0, [e1] + ([e2] + []));
    RunCons(o, s1, e1, [e2] + []);
    RunCons(o, s2, e2, []);
  }

  /** Fetch-once mode: token T1 and a DeviceState command; one snapshot is stored and the session closes. */
  lemma FetchOnceScenario()
    ensures var cmd := DeviceStateCommand;
            var o := Options(Some("T1"), Some(cmd), None, false, false);
            var r := Run(o, Initial(), [
              Received([Version]),
              Received([Xml(Update("InvalidateAccount", "", ""))]),
              Received([Xml(Response("AuthToken", "Okay", "", None))]),
              Received([Xml(Response("DeviceState", "Okay", "", Some([Attr("Temp", "24")])))])]);
            r.link.written == [AuthTokenRequest("T1"), Command(cmd)]
            && r.responseData == Some([Attr("Temp", "24")])
            && r.authenticated && r.link.closed
  {
    var o := Options(Some("T1"), Some(DeviceStateCommand), None, false, false);
    var e0, e1, e2, e3 :=
      Received([Version]),
      Received([Xml(Update("InvalidateAccount", "", ""))]),
      Received([Xml(Response("AuthToken", "Okay", "", None))]),
      Received([Xml(Response("DeviceState", "Okay", "", Some([Attr("Temp", "24")])))]);
    FetchOnceOpens();
    var s3 := Run(o, Initial(), [e0, e1, e2]);
    DocumentChunk(o, s3, e3.lines[0].doc);
    var s4 := Step(o, s3, e3);
    assert s4.link.closed && s4.responseData == Some([Attr("Temp", "24")]);
    assert [e0, e1, e2, e3] == [e0, e1, e2] + ([e3] + []);
    RunAppend(o, Initial(), [e0, e1, e2], [e3] + []);
    RunCons(o, s3, e3, []);
  }

  /** A run starting with one event is that event's step followed by the rest of the run. */
  lemma RunCons(o: Options, s: Session, e: Event, rest: seq<Event>)
    ensures Run(o, s, [e] + rest) == Run(o, Step(o, s, e), rest)
  {
    assert ([e] + rest)[1..] == rest;
  }

  /** The opening of the authentication-failure run: version, InvalidateAccount. */
  lemma AuthFailureOpens()
    ensures var o := Options(Some("T1"), Some("x"), None, false, false);
            var s := Run(o, Initial(), [Received([Version]), Received([Xml(Update("InvalidateAccount", "", ""))])]);
            s.link.written == [AuthTokenRequest("T1")] && s.link.notices == [] && !s.link.closed
            && !s.authenticated && s.link.pairTimers == 0 && s.postAuthTimers == 0
  {
    var o := Options(Some("T1"), Some("x"), None, false, false);
    var e0, e1 := Received([Version]), Received([Xml(Update("InvalidateAccount", "", ""))]);
    var s0 := Initial();
    VersionChunk(o, s0);
    var s1 := Step(o, s0, e0);
    DocumentChunk(o, s1, e1.lines[0].doc);
    var s2 := Step(o, s1, e1);
    assert s2.link.written == [AuthTokenRequest("T1")] && !s2.link.closed;
    assert [e0, e1] == [e0] + ([e1] + []);
    RunCons(o, s0, e0, [e1] + []);
    RunCons(o, s1, e1, []);
  }

  /** Authentication failure: the device's error code is reported, the session closes, nothing more is sent. */
  lemma AuthFailureScenario(later: seq<Event>)
    ensures var o := Options(Some("T1"), Some("x"), None, false, false);
            var r := Run(o, Initial(), [
              Received([Version]),
              Received([Xml(Update("InvalidateAccount", "", ""))]),
              Received([Xml(Response("AuthToken", "Fail", "403", None))])] + later);
            r.link.written == [AuthTokenRequest("T1")]
            && r.link.notices == [AuthFailed("403")]
            && r.link.closed && !r.authenticated
  {
    var o := Options(Some("T1"), Some("x"), None, false, false);
    var e0, e1, e2 :=
      Received([Version]),
      Received([Xml(Update("InvalidateAccount", "", ""))]),
      Received([Xml(Response("AuthToken", "Fail", "403", None))]);
    AuthFailureOpens();
    var s2 := Run(o, Initial(), [e0, e1]);
    DocumentChunk(o, s2, e2.lines[0].doc);
    var s3 := Step(o, s2, e2);
    assert s3.link.closed && s3.link.written == [AuthTokenRequest("T1")] && s3.link.notices == [AuthFailed("403")];
    ClosedIdleSessionIsInert(o, s3, later);
    assert [e0, e1, e2] + later == [e0, e1] + ([e2] + later);
    RunAppend(o, Initial(), [e0, e1], [e2] + later);
    RunCons(o, s2, e2, later);
  }
}
