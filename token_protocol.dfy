/**
 * samsung_ac/protocol.py: the older protocol variant that only acquires a
 * token. It checks the version line and runs the pairing flow of `Pairing`
 * on every document, whatever token the caller holds; an unsupported version
 * closes the transport straight away.
 */
module TokenProtocol {
  import opened Messages
  import opened Pairing
  import opened Transports

  /** The state `__init__` creates, with a fresh transport. */
  function Initial(): Link {
    Link(false, false, 0, [], false, [])
  }

  /** The unsupported-version branch: close the transport, report, clear `stay_connected`. */
  function RejectVersion(l: Link): (r: Link)
    ensures r.closed && !r.stayConnected && r.notices == l.notices + [VersionUnsupported]
    ensures r.written == l.written && r.waitingForToken == l.waitingForToken
  {
    l.(closed := true, notices := l.notices + [VersionUnsupported], stayConnected := false)
  }

  /** The line loop of `handle_data`: stop at a rejected version or at the first document. */
  function HandleLines(l: Link, lines: seq<Line>): (r: Link)
    // the loop closes the transport only together with ending the session
    ensures r.closed ==> l.closed || !r.stayConnected
    ensures l.closed ==> r.closed
    // and only appends to what was written
    ensures |l.written| <= |r.written| && r.written[..|l.written|] == l.written
    decreases |lines|
  {
    if lines == [] then
      l
    else if StartsWith(lines[0].text, VersionPrefix) then
      if lines[0].text != SupportedVersion then RejectVersion(l) else HandleLines(l, lines[1..])
    else if StartsWith(lines[0].text, XmlPrefix) then
      TokenFlow(l, lines[0].doc)
    else
      HandleLines(l, lines[1..])
  }

  /** `handle_data`: every chunk starts with `stay_connected` set. */
  function ProcessChunk(l: Link, lines: seq<Line>): (r: Link)
    // the chunk closes the transport only together with ending the session, and never reopens it
    ensures r.closed ==> l.closed || !r.stayConnected
    ensures l.closed ==> r.closed
  {
    HandleLines(l.(stayConnected := true), lines)
  }

  /** `data_received`: handle the chunk, then close unless `stay_connected` survived it. */
  function ReceiveChunk(l: Link, lines: seq<Line>): (r: Link)
    ensures r.closed == (l.closed || !r.stayConnected)
  {
    var h := ProcessChunk(l, lines);
    if !h.stayConnected then h.(closed := true) else h
  }

  /** What the event loop can deliver to this variant. */
  datatype Event = Received(lines: seq<Line>) | PairTimerFired

  /**
   * One event. A chunk arriving on a closed transport is not delivered, and
   * a timer event with no armed pairing timer does not occur.
   */
  function Step(l: Link, e: Event): (r: Link)
    // a closed transport stays closed and receives nothing
    ensures l.closed ==> r.closed
    ensures l.closed && e.Received? ==> r == l
  {
    match e
    case Received(lines) => if l.closed then l else ReceiveChunk(l, lines)
    case PairTimerFired => if l.pairTimers > 0 then PairTimerExpired(l) else l
  }

  function Run(l: Link, events: seq<Event>): (r: Link)
    // once the transport is closed, no sequence of events reopens it
    ensures l.closed ==> r.closed
    decreases |events|
  {
    if events == [] then l else Run(Step(l, events[0]), events[1..])
  }

  /** protocol.py's `AirconditionerClientProtocol`, with the transport it writes to. */
  class TokenClientProtocol {
    var connected: bool
    var stayConnected: bool
    var transport: Transport?
    var waitingForToken: bool
    var pairTimers: nat
    ghost var notices: seq<Notice>

    /** The protocol's state as a `Link` value. */
    ghost function Snapshot(): Link
      reads this, transport
      requires transport != null
    {
      Link(stayConnected, waitingForToken, pairTimers, transport.written, transport.closed, notices)
    }

    constructor ()
      ensures !connected && transport == null
      ensures !stayConnected && !waitingForToken && pairTimers == 0 && notices == []
    {
      connected := false;
      stayConnected := false;
      transport := null;
      waitingForToken := false;
      pairTimers := 0;
      notices := [];
    }

    method ConnectionMade(t: Transport)
      modifies this`connected, this`transport
      ensures connected && transport == t
    {
      connected := true;
      transport := t;
    }

    method ConnectionLost()
      modifies this`connected
      ensures !connected
    {
      connected := false;
    }

    method DataReceived(lines: seq<Line>)
      requires transport != null
      modifies this, transport
      ensures transport == old(transport) && connected == old(connected)
      ensures Snapshot() == ReceiveChunk(old(Snapshot()), lines)
    {
      HandleData(lines);
      if !stayConnected {
        transport.Close();
      }
    }

    method HandleData(lines: seq<Line>)
      requires transport != null
      modifies this, transport
      ensures transport == old(transport) && connected == old(connected)
      ensures Snapshot() == ProcessChunk(old(Snapshot()), lines)
    {
      stayConnected := true;
      ghost var start := Snapshot();
      var i := 0;
      while i < |lines|
        invariant 0 <= i <= |lines|
        invariant transport == old(transport) && connected == old(connected)
        invariant HandleLines(Snapshot(), lines[i..]) == HandleLines(start, lines)
        decreases |lines| - i
      {
        assert lines[i..][1..] == lines[i + 1..];
        var line := lines[i];
        if StartsWith(line.text, VersionPrefix) {
          if line.text != SupportedVersion {
            transport.Close();
            notices := notices + [VersionUnsupported];
            stayConnected := false;
            return;
          }
        } else if StartsWith(line.text, XmlPrefix) {
          var doc := line.doc;
          match doc {
            case Update(kind, status, token) =>
              if kind == "InvalidateAccount" {
                transport.Write(GetTokenRequest);
                return;
              }
              if status == "Completed" && kind == "GetToken" {
                if token != "" {
                  waitingForToken := false;
                  notices := notices + [TokenAcquired(token)];
                  stayConnected := false;
                  return;
                }
              }
            case Response(kind, status, code, _) =>
              if status == "Ready" && kind == "GetToken" {
                pairTimers := pairTimers + 1;
                waitingForToken := true;
                notices := notices + [PowerOnPrompt];
                return;
              }
              if status == "Fail" && kind == "Authenticate" {
                if waitingForToken {
                  waitingForToken := false;
                  notices := notices + [TokenFailed(code)];
                  stayConnected := false;
                  return;
                }
              }
            case Other(_) =>
          }
          notices := notices + [Unsupported(doc)];
          return;
        }
        i := i + 1;
      }
    }

    /** `wait_for_token_expired`, run when one pairing timer has run out. */
    method WaitForTokenExpired()
      requires transport != null && pairTimers > 0
      modifies this, transport
      ensures transport == old(transport) && connected == old(connected)
      ensures Snapshot() == PairTimerExpired(old(Snapshot()))
    {
      pairTimers := pairTimers - 1;
      if waitingForToken {
        transport.Close();
        notices := notices + [PairingExpired];
      }
    }
  }
}
