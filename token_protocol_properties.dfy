/** What samsung_ac/protocol.py promises, proved about the `TokenProtocol` model. */
module TokenProtocolProperties {
  import opened Messages
  import opened Pairing
  import opened TokenProtocol

  /** What the line loop does with the line it stops at. */
  function React(l: Link, line: Line): Link {
    if RejectsVersion(line) then RejectVersion(l) else TokenFlow(l, line.doc)
  }

  /** Lines that are neither a rejected version nor a document are passed over without any effect. */
  lemma {:induction false} SkippedLinesChangeNothing(l: Link, lines: seq<Line>)
    requires NoStop(lines)
    ensures HandleLines(l, lines) == l
    decreases |lines|
  {
    if lines != [] {
      assert !Stops(lines[0]);
      SkippedLinesChangeNothing(l, lines[1..]);
    }
  }

  /** At most one line per chunk is acted on: the first rejected version or document decides the chunk. */
  lemma {:induction false} FirstStopDecides(l: Link, lines: seq<Line>, i: int)
    requires FirstStopAt(lines, i)
    ensures HandleLines(l, lines) == React(l, lines[i])
    decreases |lines|
  {
    if i > 0 {
      assert !Stops(lines[0]);
      assert FirstStopAt(lines[1..], i - 1) by {
        forall j | 0 <= j < i - 1 ensures !Stops(lines[1..][j]) {
          assert lines[1..][j] == lines[j + 1];
        }
      }
      FirstStopDecides(l, lines[1..], i - 1);
    }
  }

  /** A chunk with nothing to act on changes nothing and keeps the connection open. */
  lemma QuietChunkKeepsConnection(l: Link, lines: seq<Line>)
    requires NoStop(lines)
    ensures ReceiveChunk(l, lines) == l.(stayConnected := true)
  {
    SkippedLinesChangeNothing(l.(stayConnected := true), lines);
  }

  /** A version line other than `DPLUG-1.6` closes the transport and abandons the rest of the chunk. */
  lemma UnsupportedVersionCloses(l: Link, lines: seq<Line>, i: int)
    requires FirstStopAt(lines, i) && RejectsVersion(lines[i])
    ensures ReceiveChunk(l, lines)
            == l.(stayConnected := false, closed := true, notices := l.notices + [VersionUnsupported])
  {
    FirstStopDecides(l.(stayConnected := true), lines, i);
  }

  /** InvalidateAccount always writes exactly one GetToken request and keeps the connection. */
  lemma InvalidateAccountRequestsToken(l: Link, lines: seq<Line>, i: int)
    requires FirstStopAt(lines, i) && IsDocument(lines[i]) && IsInvalidateAccount(lines[i].doc)
    ensures var r := ReceiveChunk(l, lines);
            r.written == l.written + [GetTokenRequest] && r.stayConnected && r.closed == l.closed
            && r.waitingForToken == l.waitingForToken
  {
    FirstStopDecides(l.(stayConnected := true), lines, i);
  }

  /** A completed token clears the wait, reports the token, and closes the connection. */
  lemma TokenCompletionCloses(l: Link, lines: seq<Line>, i: int)
    requires FirstStopAt(lines, i) && IsDocument(lines[i]) && IsTokenCompleted(lines[i].doc)
    ensures var r := ReceiveChunk(l, lines);
            !r.waitingForToken && r.closed && r.written == l.written
            && r.notices == l.notices + [TokenAcquired(lines[i].doc.token)]
  {
    FirstStopDecides(l.(stayConnected := true), lines, i);
  }

  /** Any document the flow does not handle is reported and changes nothing else; the connection stays open. */
  lemma UnhandledDocumentIsReported(l: Link, lines: seq<Line>, i: int)
    requires FirstStopAt(lines, i) && IsDocument(lines[i])
    requires !TokenFlowHandles(l, lines[i].doc)
    ensures ReceiveChunk(l, lines)
            == l.(stayConnected := true, notices := l.notices + [Unsupported(lines[i].doc)])
  {
    FirstStopDecides(l.(stayConnected := true), lines, i);
  }

  /** Authenticate/Fail ends the session exactly when the token is awaited; otherwise it is only reported. */
  lemma RefusalEndsOnlyWhileWaiting(l: Link, lines: seq<Line>, i: int)
    requires FirstStopAt(lines, i) && IsDocument(lines[i]) && IsTokenRefused(lines[i].doc)
    ensures var r := ReceiveChunk(l, lines);
            r.closed == (l.closed || l.waitingForToken) && !r.waitingForToken && r.written == l.written
            && r.notices == l.notices + [if l.waitingForToken then TokenFailed(lines[i].doc.errorCode)
                                         else Unsupported(lines[i].doc)]
  {
    FirstStopDecides(l.(stayConnected := true), lines, i);
  }

  /** Running two event sequences one after the other is running their concatenation. */
  lemma {:induction false} RunAppend(l: Link, first: seq<Event>, second: seq<Event>)
    ensures Run(l, first + second) == Run(Run(l, first), second)
    decreases |first|
  {
    if first != [] {
      assert (first + second)[0] == first[0];
      assert (first + second)[1..] == first[1..] + second;
      RunAppend(Step(l, first[0]), first[1..], second);
    } else {
      assert first + second == second;
    }
  }

  /** Events that cannot end the wait for a token: no chunk whose decisive document completes or refuses it. */
  ghost predicate KeepsWaiting(events: seq<Event>) {
    forall e :: e in events ==> !(e.Received? && EndsPairing(e.lines))
  }

  /** A chunk that does not end the wait leaves the token awaited, reports no token and disarms no timer. */
  lemma ChunkKeepsWait(l: Link, lines: seq<Line>)
    requires l.waitingForToken && !EndsPairing(lines)
    ensures var r := ReceiveChunk(l, lines);
            r.waitingForToken && AddsNoToken(l.notices, r.notices) && r.pairTimers >= l.pairTimers
  {
    var l' := l.(stayConnected := true);
    StopOrNone(lines);
    if NoStop(lines) {
      QuietChunkKeepsConnection(l, lines);
      AddsNoTokenAppend(l.notices, []);
      assert l.notices + [] == l.notices;
    } else {
      var i :| FirstStopAt(lines, i);
      FirstStopDecides(l', lines, i);
      if RejectsVersion(lines[i]) {
        AddsNoTokenAppend(l.notices, [VersionUnsupported]);
      } else {
        assert !IsTokenCompleted(lines[i].doc) && !IsTokenRefused(lines[i].doc);
      }
    }
  }

  /** Until a chunk completes or refuses the token, the wait outlasts every event, and no token is reported. */
  lemma {:induction false} WaitHolds(l: Link, events: seq<Event>)
    requires l.waitingForToken && KeepsWaiting(events)
    ensures var r := Run(l, events);
            r.waitingForToken && AddsNoToken(l.notices, r.notices)
            && ((forall e :: e in events ==> !e.PairTimerFired?) ==> r.pairTimers >= l.pairTimers)
    decreases |events|
  {
    if events == [] {
      AddsNoTokenAppend(l.notices, []);
      assert l.notices + [] == l.notices;
    } else {
      var l1 := Step(l, events[0]);
      assert events[0] in events;
      match events[0] {
        case Received(lines) =>
          if l.closed {
            AddsNoTokenAppend(l.notices, []);
            assert l.notices + [] == l.notices;
          } else {
            ChunkKeepsWait(l, lines);
          }
        case PairTimerFired =>
          if l.pairTimers > 0 {
            AddsNoTokenAppend(l.notices, [PairingExpired]);
          } else {
            AddsNoTokenAppend(l.notices, []);
            assert l.notices + [] == l.notices;
          }
      }
      assert KeepsWaiting(events[1..]) by {
        forall e | e in events[1..] ensures !(e.Received? && EndsPairing(e.lines)) {
          assert e in events;
        }
      }
      WaitHolds(l1, events[1..]);
      AddsNoTokenTransitive(l.notices, l1.notices, Run(l1, events[1..]).notices);
      if forall e :: e in events ==> !e.PairTimerFired? {
        assert forall e :: e in events[1..] ==> e in events;
      }
    }
  }

  /**
   * GetToken/Ready opens the pairing wait. Whatever events follow, as long as
   * none of them completes or refuses the token, the token stays awaited and
   * none is reported; the pairing timer armed by this chunk is still pending
   * unless a timer fired in between, and the next expiry of an armed timer
   * closes the connection and reports that pairing expired, without a token.
   */
  lemma PairingTimesOut(l: Link, lines: seq<Line>, i: int, between: seq<Event>)
    requires FirstStopAt(lines, i) && IsDocument(lines[i]) && IsTokenReady(lines[i].doc)
    requires !l.closed && KeepsWaiting(between)
    ensures var m := Run(l, [Received(lines)] + between);
            m.waitingForToken && AddsNoToken(l.notices + [PowerOnPrompt], m.notices)
            && ((forall e :: e in between ==> !e.PairTimerFired?) ==> m.pairTimers > l.pairTimers)
    ensures var m := Run(l, [Received(lines)] + between);
            var r := Run(l, [Received(lines)] + between + [PairTimerFired]);
            m.pairTimers > 0
            ==> r.closed && r.written == m.written && r.notices == m.notices + [PairingExpired]
                && AddsNoToken(l.notices + [PowerOnPrompt], r.notices)
  {
    FirstStopDecides(l.(stayConnected := true), lines, i);
    var l1 := Step(l, Received(lines));
    assert l1.notices == l.notices + [PowerOnPrompt] && l1.waitingForToken;
    assert l1.pairTimers == l.pairTimers + 1;
    RunAppend(l, [Received(lines)], between);
    assert Run(l, [Received(lines)]) == l1 by {
      assert [Received(lines)][1..] == [];
    }
    WaitHolds(l1, between);
    var m := Run(l1, between);
    if m.pairTimers > 0 {
      RunAppend(l, [Received(lines)] + between, [PairTimerFired]);
      assert Run(m, [PairTimerFired]) == PairTimerExpired(m) by {
        assert [PairTimerFired][1..] == [];
      }
      AddsNoTokenAppend(m.notices, [PairingExpired]);
      AddsNoTokenTransitive(l1.notices, m.notices, m.notices + [PairingExpired]);
    }
  }

  /** A closed link that no longer waits for a token produces no further diagnostic and stays closed. */
  lemma {:induction false} ClosedWithoutPairingIsQuiet(l: Link, events: seq<Event>)
    requires l.closed && !l.waitingForToken
    ensures var r := Run(l, events);
            r.closed && !r.waitingForToken && r.notices == l.notices && r.written == l.written
    decreases |events|
  {
    if events != [] {
      ClosedWithoutPairingIsQuiet(Step(l, events[0]), events[1..]);
    }
  }

  /** A completed token wins the race against the pairing timer: exactly one result, whatever follows. */
  lemma TokenCompletionWinsRace(l: Link, lines: seq<Line>, i: int, later: seq<Event>)
    requires FirstStopAt(lines, i) && IsDocument(lines[i]) && IsTokenCompleted(lines[i].doc)
    requires !l.closed
    ensures var r := Run(l, [Received(lines)] + later);
            r.closed && !r.waitingForToken && r.written == l.written
            && r.notices == l.notices + [TokenAcquired(lines[i].doc.token)]
  {
    TokenCompletionCloses(l, lines, i);
    assert ([Received(lines)] + later)[1..] == later;
    ClosedWithoutPairingIsQuiet(Step(l, Received(lines)), later);
  }
}
