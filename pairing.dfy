/**
 * The token-acquisition ("pairing") flow, common to both protocol variants:
 * the `get_auth_token` handler of samsung_ac/client.py and the document
 * branch of samsung_ac/protocol.py are the same code, modelled once here,
 * together with the 30-second pairing timer.
 */
module Pairing {
  import opened Messages

  /**
   * The connection state both variants keep: the per-chunk `stay_connected`
   * flag, `waiting_for_token`, the number of armed pairing timers, and the
   * transport (requests written, closed or not) and printed diagnostics.
   */
  datatype Link = Link(
    stayConnected: bool,
    waitingForToken: bool,
    pairTimers: nat,
    written: seq<Request>,
    closed: bool,
    notices: seq<Notice>)

  predicate IsInvalidateAccount(doc: Doc) {
    doc.Update? && doc.kind == "InvalidateAccount"
  }

  /** `Update{GetToken, Completed}` carrying a non-empty token. */
  predicate IsTokenCompleted(doc: Doc) {
    doc.Update? && doc.kind == "GetToken" && doc.status == "Completed" && doc.token != ""
  }

  /** `Response{GetToken, Ready}`: the device has opened its pairing window. */
  predicate IsTokenReady(doc: Doc) {
    doc.Response? && doc.kind == "GetToken" && doc.status == "Ready"
  }

  /** `Response{Authenticate, Fail}`: the device refused to hand out a token. */
  predicate IsTokenRefused(doc: Doc) {
    doc.Response? && doc.kind == "Authenticate" && doc.status == "Fail"
  }

  /** A document the token flow reacts to in state `l`; every other one is only reported. */
  predicate TokenFlowHandles(l: Link, doc: Doc) {
    IsInvalidateAccount(doc) || IsTokenCompleted(doc) || IsTokenReady(doc)
    || (IsTokenRefused(doc) && l.waitingForToken)
  }

  /** The chunk's line loop stops at a document that ends the wait for a token. */
  ghost predicate EndsPairing(lines: seq<Line>) {
    exists i :: FirstStopAt(lines, i) && IsDocument(lines[i])
                && (IsTokenCompleted(lines[i].doc) || IsTokenRefused(lines[i].doc))
  }

  /** `after` extends the diagnostics `before` and reports no token among the new ones. */
  ghost predicate AddsNoToken(before: seq<Notice>, after: seq<Notice>) {
    |before| <= |after| && after[..|before|] == before
    && forall n :: n in after[|before|..] ==> !n.TokenAcquired?
  }

  lemma AddsNoTokenAppend(ns: seq<Notice>, more: seq<Notice>)
    requires forall n :: n in more ==> !n.TokenAcquired?
    ensures AddsNoToken(ns, ns + more)
  {
    assert (ns + more)[..|ns|] == ns && (ns + more)[|ns|..] == more;
  }

  lemma AddsNoTokenTransitive(a: seq<Notice>, b: seq<Notice>, c: seq<Notice>)
    requires AddsNoToken(a, b) && AddsNoToken(b, c)
    ensures AddsNoToken(a, c)
  {
    assert c[..|a|] == b[..|b|][..|a|];
    forall n | n in c[|a|..] ensures !n.TokenAcquired? {
      var k :| 0 <= k < |c[|a|..]| && c[|a|..][k] == n;
      if |a| + k < |b| {
        assert n == b[|a|..][k];
      } else {
        assert n == c[|b|..][|a| + k - |b|];
      }
    }
  }

  function Report(l: Link, doc: Doc): Link {
    l.(notices := l.notices + [Unsupported(doc)])
  }

  /** Creating the `wait_for_token` task; `waiting_for_token` is taken to be set at once. */
  function ArmPairTimer(l: Link): Link {
    l.(pairTimers := l.pairTimers + 1, waitingForToken := true, notices := l.notices + [PowerOnPrompt])
  }

  /** React to one document while pairing. */
  function TokenFlow(l: Link, doc: Doc): (r: Link)
    // never closes the transport itself and never cancels a pairing timer
    ensures r.closed == l.closed && r.pairTimers >= l.pairTimers
    // writes exactly one GetToken request on InvalidateAccount, and nothing otherwise
    ensures r.written == if IsInvalidateAccount(doc) then l.written + [GetTokenRequest] else l.written
    // ends the session exactly on a completed token or on a refusal while waiting
    ensures r.stayConnected
            == (l.stayConnected && !IsTokenCompleted(doc) && !(IsTokenRefused(doc) && l.waitingForToken))
    // the token is awaited after Ready, no longer after a completion or a refusal, and otherwise as before
    ensures r.waitingForToken
            == (IsTokenReady(doc) || (l.waitingForToken && !IsTokenCompleted(doc) && !IsTokenRefused(doc)))
    // appends at most one diagnostic; the token is reported exactly when a completed token arrives
    ensures |l.notices| <= |r.notices| <= |l.notices| + 1 && r.notices[..|l.notices|] == l.notices
    ensures IsTokenCompleted(doc) ==> r.notices == l.notices + [TokenAcquired(doc.token)]
    ensures !IsTokenCompleted(doc) ==> forall n :: n in r.notices[|l.notices|..] ==> !n.TokenAcquired?
    // an unhandled document only adds an "unsupported" diagnostic
    ensures !TokenFlowHandles(l, doc) ==> r == Report(l, doc)
  {
    match doc
    case Update(kind, status, token) =>
      if kind == "InvalidateAccount" then
        l.(written := l.written + [GetTokenRequest])
      else if status == "Completed" && kind == "GetToken" && token != "" then
        l.(waitingForToken := false, notices := l.notices + [TokenAcquired(token)], stayConnected := false)
      else
        Report(l, doc)
    case Response(kind, status, code, _) =>
      if status == "Ready" && kind == "GetToken" then
        ArmPairTimer(l)
      else if status == "Fail" && kind == "Authenticate" && l.waitingForToken then
        l.(waitingForToken := false, notices := l.notices + [TokenFailed(code)], stayConnected := false)
      else
        Report(l, doc)
    case Other(_) =>
      Report(l, doc)
  }

  /** `wait_for_token_expired`: one armed pairing timer runs out. */
  function PairTimerExpired(l: Link): (r: Link)
    requires l.pairTimers > 0
    // closes exactly when the token is still awaited; otherwise nothing but the timer count changes
    ensures r.closed == (l.closed || l.waitingForToken)
    ensures r.notices == l.notices + (if l.waitingForToken then [PairingExpired] else [])
    ensures !l.waitingForToken ==> r == l.(pairTimers := l.pairTimers - 1)
    ensures r.pairTimers == l.pairTimers - 1 && r.written == l.written
    // the expiry does not end the wait itself
    ensures r.waitingForToken == l.waitingForToken
  {
    var l' := l.(pairTimers := l.pairTimers - 1);
    if l.waitingForToken then
      l'.(closed := true, notices := l.notices + [PairingExpired])
    else
      l'
  }
}
