/**
 * samsung_ac/client.py: the full per-connection protocol. It checks the
 * protocol version, authenticates with a configured token or runs the
 * pairing flow, hands off to a post-auth command (re-sent on a periodic
 * timer), and stores and forwards DeviceState attribute lists.
 *
 * The first half states each handler as a function on a `Session` value; the
 * `ClientProtocol` class below mutates its fields as the source does and is
 * proved to follow those functions.
 */
module Client {
  import opened Wrappers
  import opened Messages
  import opened Pairing
  import opened Transports

  /** The `ac['token']` entry and the keyword arguments of the protocol's constructor. */
  datatype Options = Options(
    token: Option<string>,
    postAuthCommand: Option<string>,
    postAuthInterval: Option<nat>,   // seconds; only whether it is set matters here
    stayConnected: bool,             // `post_auth_stay_connected`
    hasCallback: bool)               // whether a `response_callback` is registered

  /** `if self.ac['token']`: a token that is present and non-empty. */
  predicate TokenConfigured(o: Options) {
    o.token.Some? && o.token.value != ""
  }

  /** The protocol's state: the shared link, plus what only this variant keeps. */
  datatype Session = Session(
    link: Link,
    authenticated: bool,
    responseData: Option<seq<Attr>>,
    postAuthTimers: nat,             // armed `wait_for_post_auth_timer` tasks
    callbacks: seq<Doc>)             // documents handed to `response_callback`, in order

  /** The state `__init__` creates, with a fresh transport. */
  function Initial(): Session {
    Session(Link(false, false, 0, [], false, []), false, None, 0, [])
  }

  function PostAuthWrites(o: Options): seq<Request> {
    if o.postAuthCommand.Some? then [Command(o.postAuthCommand.value)] else []
  }

  /** `handle_post_auth`: write the post-auth command, if any, and re-arm the timer, if any. */
  function PostAuth(o: Options, s: Session): (r: Session)
    ensures r.link.written == s.link.written + PostAuthWrites(o)
    ensures r.postAuthTimers == s.postAuthTimers + (if o.postAuthInterval.Some? then 1 else 0)
  {
    s.(link := s.link.(written := s.link.written + PostAuthWrites(o)),
       postAuthTimers := s.postAuthTimers + (if o.postAuthInterval.Some? then 1 else 0))
  }

  /** `Response{AuthToken, Okay}`. */
  predicate IsAuthOkay(doc: Doc) {
    doc.Response? && doc.kind == "AuthToken" && doc.status == "Okay"
  }

  /** `Response{AuthToken, Fail}`. */
  predicate IsAuthFail(doc: Doc) {
    doc.Response? && doc.kind == "AuthToken" && doc.status == "Fail"
  }

  /** `Response{DeviceState, Okay}` whose Device carries an `Attr` list. */
  predicate IsDeviceState(doc: Doc) {
    doc.Response? && doc.kind == "DeviceState" && doc.status == "Okay" && doc.attrs.Some?
  }

  function Unsupported(s: Session, doc: Doc): Session {
    s.(link := Report(s.link, doc))
  }

  /** `do_auth`: react to one document while authenticating with the configured token. */
  function Authenticate(o: Options, s: Session, doc: Doc): (r: Session)
    requires TokenConfigured(o)
    // authentication succeeds exactly on AuthToken/Okay
    ensures r.authenticated == (s.authenticated || IsAuthOkay(doc))
    // the only requests are one AuthToken request carrying the token, or the post-auth hand-off
    ensures r.link.written
            == if IsInvalidateAccount(doc) then s.link.written + [AuthTokenRequest(o.token.value)]
               else if IsAuthOkay(doc) then s.link.written + PostAuthWrites(o)
               else s.link.written
    // the session ends exactly on AuthToken/Fail
    ensures r.link.stayConnected == (s.link.stayConnected && !IsAuthFail(doc))
    ensures r.link.closed == s.link.closed && r.link.waitingForToken == s.link.waitingForToken
  {
    match doc
    case Update(kind, _, _) =>
      if kind == "InvalidateAccount" then
        s.(link := s.link.(written := s.link.written + [AuthTokenRequest(o.token.value)]))
      else
        Unsupported(s, doc)
    case Response(kind, status, code, _) =>
      if status == "Okay" && kind == "AuthToken" then
        PostAuth(o, s.(authenticated := true))
      else if status == "Fail" && kind == "AuthToken" then
        s.(link := s.link.(notices := s.link.notices + [AuthFailed(code)], stayConnected := false))
      else
        Unsupported(s, doc)
    case Other(_) =>
      Unsupported(s, doc)
  }

  /** The authenticated branch of `handle_data`: store DeviceState attributes, forward the rest. */
  function Deliver(o: Options, s: Session, doc: Doc): (r: Session)
    // every document ends the chunk with `stay_connected` as the caller configured it
    ensures r.link.stayConnected == o.stayConnected
    // a DeviceState snapshot is stored; nothing else touches `response_data`
    ensures r.responseData == if IsDeviceState(doc) then doc.attrs else s.responseData
    // the callback sees the document once, if registered; no request is written
    ensures r.callbacks == s.callbacks + (if o.hasCallback then [doc] else [])
    ensures r.link.written == s.link.written && r.authenticated == s.authenticated
    ensures r.link.closed == s.link.closed && r.link.waitingForToken == s.link.waitingForToken
  {
    var s' := s.(link := s.link.(stayConnected := o.stayConnected),
                 callbacks := s.callbacks + (if o.hasCallback then [doc] else []));
    if IsDeviceState(doc) then
      s'.(responseData := doc.attrs)
    else if o.hasCallback then
      s'
    else
      Unsupported(s', doc)
  }

  /** The document branch of `handle_data`. */
  function HandleDocument(o: Options, s: Session, doc: Doc): (r: Session)
    ensures r.link.closed == s.link.closed
    ensures s.authenticated ==> r.authenticated
  {
    if !s.authenticated then
      if TokenConfigured(o) then Authenticate(o, s, doc) else s.(link := TokenFlow(s.link, doc))
    else
      Deliver(o, s, doc)
  }

  /** A `DPLUG` line other than the supported version ends the session after this chunk. */
  function RejectVersion(s: Session): (r: Session)
    ensures !r.link.stayConnected && r.link.notices == s.link.notices + [VersionUnsupported]
    ensures r.link.written == s.link.written && r.link.closed == s.link.closed
    ensures r.authenticated == s.authenticated && r.link.waitingForToken == s.link.waitingForToken
  {
    s.(link := s.link.(stayConnected := false, notices := s.link.notices + [VersionUnsupported]))
  }

  /** The line loop of `handle_data`: stop at a rejected version or at the first document. */
  function HandleLines(o: Options, s: Session, lines: seq<Line>): (r: Session)
    // the loop never closes the transport itself and never loses authentication
    ensures r.link.closed == s.link.closed
    ensures s.authenticated ==> r.authenticated
    decreases |lines|
  {
    if lines == [] then
      s
    else if StartsWith(lines[0].text, VersionPrefix) then
      if lines[0].text != SupportedVersion then RejectVersion(s) else HandleLines(o, s, lines[1..])
    else if StartsWith(lines[0].text, XmlPrefix) then
      HandleDocument(o, s, lines[0].doc)
    else
      HandleLines(o, s, lines[1..])
  }

  /** `handle_data`: every chunk starts with `stay_connected` set. */
  function ProcessChunk(o: Options, s: Session, lines: seq<Line>): (r: Session)
    // `handle_data` leaves closing to `data_received` and keeps an authenticated session authenticated
    ensures r.link.closed == s.link.closed
    ensures s.authenticated ==> r.authenticated
  {
    HandleLines(o, s.(link := s.link.(stayConnected := true)), lines)
  }

  /** `data_received`: handle the chunk, then close unless `stay_connected` survived it. */
  function ReceiveChunk(o: Options, s: Session, lines: seq<Line>): (r: Session)
    ensures r.link.closed == (s.link.closed || !r.link.stayConnected)
    ensures r.authenticated == ProcessChunk(o, s, lines).authenticated
  {
    var h := ProcessChunk(o, s, lines);
    if !h.link.stayConnected then h.(link := h.link.(closed := true)) else h
  }

  /** The pairing timer's done-callback. */
  function PairTimerTick(s: Session): (r: Session)
    requires s.link.pairTimers > 0
    // the connection is closed and the expiry reported exactly when a token is still awaited
    ensures r.link.closed == (s.link.closed || s.link.waitingForToken)
    ensures r.link.notices == s.link.notices + (if s.link.waitingForToken then [PairingExpired] else [])
    ensures r.link.pairTimers == s.link.pairTimers - 1 && r.link.written == s.link.written
    ensures r.authenticated == s.authenticated
  {
    s.(link := PairTimerExpired(s.link))
  }

  /** The post-auth timer's done-callback, which is `handle_post_auth` itself. */
  function PostAuthTimerTick(o: Options, s: Session): (r: Session)
    requires s.postAuthTimers > 0
    // one more command, and the timer is armed again exactly when an interval is configured
    ensures r.link.written == s.link.written + PostAuthWrites(o)
    ensures r.postAuthTimers == if o.postAuthInterval.Some? then s.postAuthTimers else s.postAuthTimers - 1
  {
    PostAuth(o, s.(postAuthTimers := s.postAuthTimers - 1))
  }

  /** What the event loop can deliver to the protocol. */
  datatype Event = Received(lines: seq<Line>) | PairTimerFired | PostAuthTimerFired

  /**
   * One event. A chunk arriving on a closed transport is not delivered, and
   * a timer event with no armed timer of its kind does not occur.
   */
  function Step(o: Options, s: Session, e: Event): (r: Session)
    // a closed transport stays closed and receives nothing; authentication is never lost
    ensures s.link.closed ==> r.link.closed
    ensures s.link.closed && e.Received? ==> r == s
    ensures s.authenticated ==> r.authenticated
  {
    match e
    case Received(lines) => if s.link.closed then s else ReceiveChunk(o, s, lines)
    case PairTimerFired => if s.link.pairTimers > 0 then PairTimerTick(s) else s
    case PostAuthTimerFired => if s.postAuthTimers > 0 then PostAuthTimerTick(o, s) else s
  }

  function Run(o: Options, s: Session, events: seq<Event>): (r: Session)
    // once the transport is closed, no sequence of events reopens it
    ensures s.link.closed ==> r.link.closed
    decreases |events|
  {
    if events == [] then s else Run(o, Step(o, s, events[0]), events[1..])
  }

  /** `AirconditionerClientProtocol`, with the transport it writes to. */
  class ClientProtocol {
    const options: Options
    var connected: bool
    var authenticated: bool
    var stayConnected: bool
    var transport: Transport?
    var waitingForToken: bool
    var responseData: Option<seq<Attr>>
    var pairTimers: nat
    var postAuthTimers: nat
    ghost var callbacks: seq<Doc>
    ghost var notices: seq<Notice>

    /** The protocol's state as a `Session` value. */
    ghost function Snapshot(): Session
      reads this, transport
      requires transport != null
    {
      Session(Link(stayConnected, waitingForToken, pairTimers, transport.written, transport.closed, notices),
              authenticated, responseData, postAuthTimers, callbacks)
    }

    constructor (options: Options)
      ensures this.options == options && !connected && transport == null
      ensures !authenticated && !stayConnected && !waitingForToken && responseData == None
      ensures pairTimers == 0 && postAuthTimers == 0 && callbacks == [] && notices == []
    {
      this.options := options;
      connected := false;
      authenticated := false;
      stayConnected := false;
      transport := null;
      waitingForToken := false;
      responseData := None;
      pairTimers := 0;
      postAuthTimers := 0;
      callbacks := [];
      notices := [];
    }

    method ConnectionMade(t: Transport)
      modifies this`connected, this`transport
      ensures connected && transport == t
    {
      connected := true;
      transport := t;
    }

    method ConnectionLost()
      modifies this`connected
      ensures !connected
    {
      connected := false;
    }

    method DataReceived(lines: seq<Line>)
      requires transport != null
      modifies this, transport
      ensures transport == old(transport) && connected == old(connected)
      ensures Snapshot() == ReceiveChunk(options, old(Snapshot()), lines)
    {
      HandleData(lines);
      if !stayConnected {
        transport.Close();
      }
    }

    method HandleData(lines: seq<Line>)
      requires transport != null
      modifies this, transport
      ensures transport == old(transport) && connected == old(connected)
      ensures Snapshot() == ProcessChunk(options, old(Snapshot()), lines)
    {
      stayConnected := true;
      ghost var start := Snapshot();
      var i := 0;
      while i < |lines|
        invariant 0 <= i <= |lines|
        invariant transport == old(transport) && connected == old(connected)
        invariant HandleLines(options, Snapshot(), lines[i..]) == HandleLines(options, start, lines)
        decreases |lines| - i
      {
        assert lines[i..][1..] == lines[i + 1..];
        var line := lines[i];
        if StartsWith(line.text, VersionPrefix) {
          if line.text != SupportedVersion {
            stayConnected := false;
            notices := notices + [VersionUnsupported];
            return;
          }
        } else if StartsWith(line.text, XmlPrefix) {
          if !authenticated {
            if options.token.Some? && options.token.value != "" {
              DoAuth(line.doc);
            } else {
              GetAuthToken(line.doc);
            }
            return;
          }
          var doc := line.doc;
          if doc.Response? && doc.kind == "DeviceState" && doc.status == "Okay" && doc.attrs.Some? {
            responseData := doc.attrs;
            stayConnected := options.stayConnected;
            if options.hasCallback {
              callbacks := callbacks + [doc];
            }
            return;
          }
          if !options.hasCallback {
            notices := notices + [Unsupported(doc)];
          } else {
            callbacks := callbacks + [doc];
          }
          stayConnected := options.stayConnected;
          return;
        }
        i := i + 1;
      }
    }

    method DoAuth(doc: Doc)
      requires transport != null && TokenConfigured(options)
      modifies this, transport
      ensures transport == old(transport) && connected == old(connected)
      ensures Snapshot() == Authenticate(options, old(Snapshot()), doc)
    {
      match doc {
      case Update(kind, _, _) =>
        if kind == "InvalidateAccount" {
          transport.Write(AuthTokenRequest(options.token.value));
          return;
        }
      case Response(kind, status, code, _) =>
        if status == "Okay" && kind == "AuthToken" {
          authenticated := true;
          HandlePostAuth();
          return;
        }
        if status == "Fail" && kind == "AuthToken" {
          notices := notices + [AuthFailed(code)];
          stayConnected := false;
          return;
        }
      case Other(_) =>
      }
      notices := notices + [Unsupported(doc)];
    }

    method GetAuthToken(doc: Doc)
      requires transport != null
      modifies this, transport
      ensures transport == old(transport) && connected == old(connected)
      ensures Snapshot() == old(Snapshot()).(link := TokenFlow(old(Snapshot()).link, doc))
    {
      match doc {
      case Update(kind, status, token) =>
        if kind == "InvalidateAccount" {
          transport.Write(GetTokenRequest);
          return;
        }
        if status == "Completed" && kind == "GetToken" {
          if token != "" {
            waitingForToken := false;
            notices := notices + [TokenAcquired(token)];
            stayConnected := false;
            return;
          }
        }
      case Response(kind, status, code, _) =>
        if status == "Ready" && kind == "GetToken" {
          pairTimers := pairTimers + 1;
          waitingForToken := true;
          notices := notices + [PowerOnPrompt];
          return;
        }
        if status == "Fail" && kind == "Authenticate" {
          if waitingForToken {
            waitingForToken := false;
            notices := notices + [TokenFailed(code)];
            stayConnected := false;
            return;
          }
        }
      case Other(_) =>
      }
      notices := notices + [Unsupported(doc)];
    }

    /** `wait_for_token_expired`, run when one pairing timer has run out. */
    method WaitForTokenExpired()
      requires transport != null && pairTimers > 0
      modifies this, transport
      ensures transport == old(transport) && connected == old(connected)
      ensures Snapshot() == PairTimerTick(old(Snapshot()))
    {
      pairTimers := pairTimers - 1;
      if waitingForToken {
        transport.Close();
        notices := notices + [PairingExpired];
      }
    }

    method HandlePostAuth()
      requires transport != null
      modifies this, transport
      ensures transport == old(transport) && connected == old(connected)
      ensures Snapshot() == PostAuth(options, old(Snapshot()))
    {
      if options.postAuthCommand.Some? {
        transport.Write(Command(options.postAuthCommand.value));
      }
      if options.postAuthInterval.Some? {
        postAuthTimers := postAuthTimers + 1;
      }
    }

    /** The post-auth timer's done-callback: one armed timer is used up, then `handle_post_auth`. */
    method PostAuthTimerExpired()
      requires transport != null && postAuthTimers > 0
      modifies this, transport
      ensures transport == old(transport) && connected == old(connected)
      ensures Snapshot() == PostAuthTimerTick(options, old(Snapshot()))
    {
      postAuthTimers := postAuthTimers - 1;
      HandlePostAuth();
    }
  }
}
