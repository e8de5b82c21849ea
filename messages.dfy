/**
 * What travels over one air-conditioner connection: received lines, the
 * decoded XML documents they carry, the requests the client writes back, and
 * the diagnostics the client prints.
 */
module Messages {
  import opened Wrappers

  /** One `{@ID, @Value}` pair from the `Device/Attr` list of a DeviceState response. */
  datatype Attr = Attr(id: string, value: string)

  /**
   * A decoded XML document, reduced to its top-level element and the
   * attributes the protocol reads: `@Type` (kind), `@Status`, `@Token`,
   * `@ErrorCode`, and whether `DeviceState/Device` holds an `Attr` list.
   */
  datatype Doc =
    | Update(kind: string, status: string, token: string)
    | Response(kind: string, status: string, errorCode: string, attrs: Option<seq<Attr>>)
    | Other(root: string)

  /**
   * One received line. `doc` is what the XML decoder makes of `text`; the
   * protocol consults it only when `text` starts with the XML declaration.
   */
  datatype Line = Line(text: string, doc: Doc)

  /** A request the client writes to the transport. */
  datatype Request =
    | AuthTokenRequest(token: string)   // <Request Type="AuthToken"><User Token=…/></Request>
    | GetTokenRequest                   // <Request Type="GetToken"/>
    | Command(text: string)             // the caller's post-auth command, written verbatim

  /** A diagnostic the client prints to stdout or stderr. */
  datatype Notice =
    | VersionUnsupported
    | Unsupported(doc: Doc)
    | AuthFailed(code: string)
    | TokenAcquired(token: string)
    | TokenFailed(code: string)
    | PowerOnPrompt
    | PairingExpired

  const VersionPrefix := "DPLUG"
  const SupportedVersion := "DPLUG-1.6"
  const XmlPrefix := "<?xml"

  predicate StartsWith(s: string, prefix: string) {
    |prefix| <= |s| && s[..|prefix|] == prefix
  }

  /** A protocol-version line other than the one supported version. */
  predicate RejectsVersion(line: Line) {
    StartsWith(line.text, VersionPrefix) && line.text != SupportedVersion
  }

  /** A line that carries an XML document. */
  predicate IsDocument(line: Line) {
    !StartsWith(line.text, VersionPrefix) && StartsWith(line.text, XmlPrefix)
  }

  /** A line the line loop acts on and then stops: a rejected version or a document. */
  predicate Stops(line: Line) {
    RejectsVersion(line) || IsDocument(line)
  }

  /** `lines[i]` is the first line of the chunk the line loop stops at. */
  ghost predicate FirstStopAt(lines: seq<Line>, i: int) {
    0 <= i < |lines| && Stops(lines[i]) && forall j :: 0 <= j < i ==> !Stops(lines[j])
  }

  /** The line loop runs through the whole chunk without stopping. */
  ghost predicate NoStop(lines: seq<Line>) {
    forall j :: 0 <= j < |lines| ==> !Stops(lines[j])
  }

  /** Either the line loop stops somewhere in the chunk, or it runs through all of it. */
  lemma {:induction false} StopOrNone(lines: seq<Line>)
    ensures NoStop(lines) || exists i :: FirstStopAt(lines, i)
    decreases |lines|
  {
    if lines != [] {
      if Stops(lines[0]) {
        assert FirstStopAt(lines, 0);
      } else {
        StopOrNone(lines[1..]);
        if NoStop(lines[1..]) {
          forall j | 0 < j < |lines| ensures !Stops(lines[j]) {
            assert lines[j] == lines[1..][j - 1];
          }
        } else {
          var i :| FirstStopAt(lines[1..], i);
          forall j | 0 < j < i + 1 ensures !Stops(lines[j]) {
            assert lines[j] == lines[1..][j - 1];
          }
          assert lines[i + 1] == lines[1..][i];
          assert FirstStopAt(lines, i + 1);
        }
      }
    }
  }
}
