/**
  Classification of a failed request from its chain of causes.

  A chain is an error followed by its source, the source of that, and so on; only
  the last node has no source. The walks of the bridge stop early and carry a flag;
  each is proved to decide a condition on the chain in which order plays no part.
 */
module ErrorChain {
  datatype Tls = InvalidCertificate | AlertReceived | OtherTls

  /** An entry of an OpenSSL error stack. */
  datatype SslError = SslError(library: int, reason: int)

  /** The concrete types the bridge can recognize behind an error. */
  datatype Concrete =
    | Rustls(tls: Tls)
    | OpenSsl(stack: seq<SslError>)
    | Io(unexpectedEof: bool)
    | Hyper(incompleteMessage: bool)
    | Other

  datatype Node = Node(concrete: Concrete, text: string)

  type Chain = c: seq<Node> | 0 < |c| witness [Node(Other, "")]

  const SSL_LIBRARY := 20
  const CERTIFICATE_VERIFY_FAILED := 134
  const ALERT_REASON_OFFSET := 1000
  const SOCKS_CONNECT := "error connecting to socks proxy"
  const DNS_TEXTS := {"dns error", "error resolving for socks proxy"}

  // ---------------------------------------------------------- specifications

  /** The local side rejected the peer's certificate. */
  predicate CertificateEntry(e: SslError) {
    e.library == 20 && e.reason == 134
  }

  /** The peer sent an alert; one byte of alert code above the offset. */
  predicate AlertEntry(e: SslError) {
    e.library == 20 && 1000 <= e.reason <= 1255
  }

  ghost predicate CertificateFailure(n: Node) {
    || n.concrete == Rustls(InvalidCertificate)
    || (n.concrete.OpenSsl? && exists e :: e in n.concrete.stack && CertificateEntry(e))
  }

  ghost predicate PeerAlert(n: Node) {
    || n.concrete == Rustls(AlertReceived)
    || (n.concrete.OpenSsl? && exists e :: e in n.concrete.stack && AlertEntry(e))
  }

  /** A node with a given text that has a source. */
  predicate LabelledPhase(chain: seq<Node>, i: nat, texts: set<string>) {
    i + 1 < |chain| && chain[i].text in texts
  }

  ghost predicate RecognizedAt(chain: seq<Node>, i: nat) {
    i < |chain| && (PeerAlert(chain[i]) || LabelledPhase(chain, i, {"error connecting to socks proxy"}))
  }

  /** Some node shows a failed handshake, and no node anywhere is a failed certificate check. */
  ghost predicate HandshakeFailure(chain: seq<Node>) {
    (exists i: nat :: RecognizedAt(chain, i)) && !(exists n :: n in chain && CertificateFailure(n))
  }

  predicate EofNode(n: Node) {
    n.concrete == Io(true) || n.concrete == Hyper(true)
  }

  ghost predicate UnexpectedEof(chain: seq<Node>) {
    exists n :: n in chain && EofNode(n)
  }

  /** A cause, not the error itself, is labelled as the resolver's phase of a connection. */
  ghost predicate DnsFailure(isConnect: bool, chain: seq<Node>) {
    isConnect && exists i: nat :: 0 < i && LabelledPhase(chain, i, {"dns error", "error resolving for socks proxy"})
  }

  // -------------------------------------------------------------------- walks

  method ScanStack(stack: seq<SslError>) returns (certificate: bool, alert: bool)
    ensures certificate <==> exists e :: e in stack && CertificateEntry(e)
    ensures !certificate ==> (alert <==> exists e :: e in stack && AlertEntry(e))
  {
    alert := false;
    for i := 0 to |stack|
      invariant forall k | 0 <= k < i :: !CertificateEntry(stack[k])
      invariant alert <==> exists k :: 0 <= k < i && AlertEntry(stack[k])
    {
      if stack[i].library != SSL_LIBRARY {
        continue;
      }
      if stack[i].reason == CERTIFICATE_VERIFY_FAILED {
        assert stack[i] in stack && CertificateEntry(stack[i]);
        return true, alert;
      }
      if ALERT_REASON_OFFSET <= stack[i].reason <= ALERT_REASON_OFFSET + 255 {
        alert := true;
      }
    }
    return false, alert;
  }

  method HasHandshakeFailureSource(chain: Chain) returns (found: bool)
    ensures found <==> HandshakeFailure(chain)
  {
    var recognized := false;
    var i: nat := 0;
    while true
      invariant i < |chain|
      invariant recognized <==> exists k: nat :: k < i && RecognizedAt(chain, k)
      invariant forall k | 0 <= k < i :: !CertificateFailure(chain[k])
      decreases |chain| - i
    {
      var error := chain[i];
      if error.concrete.Rustls? {
        match error.concrete.tls
        case InvalidCertificate =>
          assert chain[i] in chain && CertificateFailure(chain[i]);
          return false;
        case AlertReceived => recognized := true;
        case OtherTls =>
      }
      if error.concrete.OpenSsl? {
        var certificate, alert := ScanStack(error.concrete.stack);
        if certificate {
          assert chain[i] in chain && CertificateFailure(chain[i]);
          return false;
        }
        recognized := recognized || alert;
      }
      if error.text == SOCKS_CONNECT && i + 1 < |chain| {
        recognized := true;
      }
      assert RecognizedAt(chain, i) ==> recognized;
      if i + 1 == |chain| {
        return recognized;
      }
      i := i + 1;
    }
  }

  method IsUnexpectedEof(chain: Chain) returns (found: bool)
    ensures found <==> UnexpectedEof(chain)
  {
    var i: nat := 0;
    while true
      invariant i < |chain|
      invariant forall k | 0 <= k < i :: !EofNode(chain[k])
      decreases |chain| - i
    {
      var error := chain[i];
      if error.concrete == Io(true) || error.concrete == Hyper(true) {
        return true;
      }
      if i + 1 == |chain| {
        return false;
      }
      i := i + 1;
    }
  }

  method IsDnsError(isConnect: bool, chain: Chain) returns (found: bool)
    ensures found <==> DnsFailure(isConnect, chain)
  {
    if !isConnect {
      return false;
    }
    var i: nat := 1;
    while i < |chain|
      invariant 1 <= i <= |chain|
      invariant forall k: nat | 0 < k < i :: !LabelledPhase(chain, k, DNS_TEXTS)
    {
      if chain[i].text in DNS_TEXTS && i + 1 < |chain| {
        assert LabelledPhase(chain, i, DNS_TEXTS);
        return true;
      }
      i := i + 1;
    }
    return false;
  }

  // -------------------------------------------------------------- classification

  /** A client error: what its own flags say, and its chain, itself first. */
  datatype HttpError = HttpError(isTimeout: bool, isBuilder: bool, isConnect: bool, chain: Chain, bareText: string)

  datatype BridgeKind = Timeout | InvalidInput | Dns | UnexpectedEofKind | Connect | RequestKind

  /** Whether a kind's own condition holds; `RequestKind` is what is left. */
  ghost predicate Applies(kind: BridgeKind, e: HttpError) {
    match kind
    case Timeout => e.isTimeout
    case InvalidInput => e.isBuilder
    case Dns => DnsFailure(e.isConnect, e.chain)
    case UnexpectedEofKind => UnexpectedEof(e.chain)
    case Connect => e.isConnect && HandshakeFailure(e.chain)
    case RequestKind => true
  }

  function Priority(kind: BridgeKind): nat {
    match kind
    case Timeout => 0
    case InvalidInput => 1
    case Dns => 2
    case UnexpectedEofKind => 3
    case Connect => 4
    case RequestKind => 5
  }

  /** The texts of a chain from the outside in. */
  function Joined(chain: seq<Node>): string {
    if chain == [] then "" else if |chain| == 1 then chain[0].text
    else chain[0].text + ": " + Joined(chain[1..])
  }

  lemma {:induction false} JoinedSnoc(chain: seq<Node>, n: Node)
    requires chain != []
    ensures Joined(chain + [n]) == Joined(chain) + ": " + n.text
  {
    assert (chain + [n])[1..] == chain[1..] + [n];
    if |chain| > 1 {
      JoinedSnoc(chain[1..], n);
      assert chain[0].text + ": " + (Joined(chain[1..]) + ": " + n.text) == (chain[0].text + ": " + Joined(chain[1..])) + ": " + n.text;
    } else {
      assert chain[1..] + [n] == [n];
    }
  }

  method FromSource(chain: Chain) returns (message: string)
    ensures message == Joined(chain)
  {
    message := chain[0].text;
    var i := 1;
    while i < |chain|
      invariant 1 <= i <= |chain|
      invariant message == Joined(chain[..i])
    {
      JoinedSnoc(chain[..i], chain[i]);
      assert chain[..i + 1] == chain[..i] + [chain[i]];
      message := message + ": ";
      message := message + chain[i].text;
      i := i + 1;
    }
    assert chain[..i] == chain;
  }

  /** Every error gets exactly the first kind that applies; the message leaves out the URL of the outermost error. */
  method Classify(e: HttpError) returns (kind: BridgeKind, message: string)
    ensures Applies(kind, e)
    ensures forall k: BridgeKind | Priority(k) < Priority(kind) :: !Applies(k, e)
    ensures message == Joined(e.chain[0 := e.chain[0].(text := e.bareText)])
  {
    var dns := IsDnsError(e.isConnect, e.chain);
    var eof := IsUnexpectedEof(e.chain);
    var handshake := HasHandshakeFailureSource(e.chain);
    if e.isTimeout {
      kind := Timeout;
    } else if e.isBuilder {
      kind := InvalidInput;
    } else if dns {
      kind := Dns;
    } else if eof {
      kind := UnexpectedEofKind;
    } else if e.isConnect && handshake {
      kind := Connect;
    } else {
      kind := RequestKind;
    }
    message := FromSource(e.chain[0 := e.chain[0].(text := e.bareText)]);
  }

  // -------------------------------------------------------------------- results

  /** Wrapping an error in a node of no concern changes neither walk. */
  lemma WrappingChangesNothing(outer: Node, chain: Chain)
    requires !PeerAlert(outer) && !CertificateFailure(outer) && !EofNode(outer) && outer.text != SOCKS_CONNECT
    ensures HandshakeFailure([outer] + chain) <==> HandshakeFailure(chain)
    ensures UnexpectedEof([outer] + chain) <==> UnexpectedEof(chain)
  {
    var wrapped := [outer] + chain;
    forall i: nat ensures RecognizedAt(wrapped, i + 1) <==> RecognizedAt(chain, i) {
      if i < |chain| {
        assert wrapped[i + 1] == chain[i];
      }
    }
    assert !RecognizedAt(wrapped, 0);
    if exists i: nat :: RecognizedAt(wrapped, i) {
      var i: nat :| RecognizedAt(wrapped, i);
      assert RecognizedAt(chain, i - 1);
    }
    if exists i: nat :: RecognizedAt(chain, i) {
      var i: nat :| RecognizedAt(chain, i);
      assert RecognizedAt(wrapped, i + 1);
    }
    assert forall n :: n in wrapped <==> n == outer || n in chain;
  }

  /** For the resolver's phase the outermost node is passed over, so wrapping exposes it. */
  lemma WrappingExposesDns(outer: Node, chain: Chain)
    ensures DnsFailure(true, [outer] + chain) <==> DnsFailure(true, chain) || LabelledPhase(chain, 0, DNS_TEXTS)
  {
    var wrapped := [outer] + chain;
    forall i: nat ensures LabelledPhase(wrapped, i + 1, DNS_TEXTS) <==> LabelledPhase(chain, i, DNS_TEXTS) {
      if i + 1 < |chain| {
        assert wrapped[i + 1] == chain[i];
      }
    }
    if DnsFailure(true, wrapped) {
      var i: nat :| 0 < i && LabelledPhase(wrapped, i, DNS_TEXTS);
      assert LabelledPhase(chain, i - 1, DNS_TEXTS);
    }
    if i: nat :| LabelledPhase(chain, i, DNS_TEXTS) {
      assert LabelledPhase(wrapped, i + 1, DNS_TEXTS);
    }
  }

  ghost predicate SameEvidence(n: Node, m: Node) {
    || n.concrete == m.concrete
    || (n.concrete.OpenSsl? && m.concrete.OpenSsl? && multiset(n.concrete.stack) == multiset(m.concrete.stack))
  }

  lemma SameVerdicts(n: Node, m: Node)
    requires SameEvidence(n, m)
    ensures PeerAlert(n) <==> PeerAlert(m)
    ensures CertificateFailure(n) <==> CertificateFailure(m)
    ensures EofNode(n) <==> EofNode(m)
  {
    if n.concrete != m.concrete {
      forall e ensures e in n.concrete.stack <==> e in m.concrete.stack {
        assert e in multiset(n.concrete.stack) <==> e in multiset(m.concrete.stack);
      }
    }
  }

  /** Node `j` of `b` shows what node `i` of `a` shows, a labelled phase included. */
  ghost predicate Counterpart(a: Chain, i: nat, b: Chain, j: nat) {
    && i < |a| && j < |b| && SameEvidence(a[i], b[j])
    && (LabelledPhase(a, i, {SOCKS_CONNECT}) ==> LabelledPhase(b, j, {SOCKS_CONNECT}))
  }

  ghost predicate HasCounterpart(a: Chain, i: nat, b: Chain) {
    exists j: nat :: Counterpart(a, i, b, j)
  }

  /** Every node of `a` has a counterpart in `b`. */
  ghost predicate CoveredBy(a: Chain, b: Chain) {
    forall i: nat | i < |a| :: HasCounterpart(a, i, b)
  }

  /** What one chain shows, a chain that covers it shows. */
  lemma EvidenceCarries(a: Chain, b: Chain)
    requires CoveredBy(a, b)
    ensures (exists i: nat :: RecognizedAt(a, i)) ==> exists i: nat :: RecognizedAt(b, i)
    ensures (exists n :: n in a && CertificateFailure(n)) ==> exists n :: n in b && CertificateFailure(n)
    ensures UnexpectedEof(a) ==> UnexpectedEof(b)
  {
    forall i: nat | i < |a|
      ensures RecognizedAt(a, i) ==> exists j: nat :: RecognizedAt(b, j)
      ensures CertificateFailure(a[i]) ==> exists n :: n in b && CertificateFailure(n)
      ensures EofNode(a[i]) ==> exists n :: n in b && EofNode(n)
    {
      assert HasCounterpart(a, i, b);
      var j: nat :| Counterpart(a, i, b, j);
      SameVerdicts(a[i], b[j]);
      assert b[j] in b && (RecognizedAt(a, i) ==> RecognizedAt(b, j));
    }
  }

  /**
    Order plays no part: chains that show the same evidence, in any order of the
    nodes and of the entries of OpenSSL stacks, are judged alike.
   */
  lemma OrderPlaysNoPart(a: Chain, b: Chain)
    requires CoveredBy(a, b) && CoveredBy(b, a)
    ensures HandshakeFailure(a) <==> HandshakeFailure(b)
    ensures UnexpectedEof(a) <==> UnexpectedEof(b)
  {
    hide CoveredBy;
    EvidenceCarries(a, b);
    EvidenceCarries(b, a);
  }

  lemma SameAsItself(n: Node)
    ensures SameEvidence(n, n)
  {
  }

  lemma RearrangedCovers(xs: seq<Node>, ys: seq<Node>, innermost: Node)
    requires multiset(xs) == multiset(ys)
    ensures CoveredBy(xs + [innermost], ys + [innermost])
  {
    hide SameEvidence;
    var a, b := xs + [innermost], ys + [innermost];
    forall i: nat | i < |a|
      ensures HasCounterpart(a, i, b)
    {
      SameAsItself(a[i]);
      if i == |xs| {
        assert Counterpart(a, i, b, |ys|);
      } else {
        assert xs[i] in multiset(ys);
        var j: nat :| j < |ys| && ys[j] == xs[i];
        assert Counterpart(a, i, b, j);
      }
    }
  }

  /** The nodes above the innermost cause can stand in any order. */
  lemma RearrangedAlike(xs: seq<Node>, ys: seq<Node>, innermost: Node)
    requires multiset(xs) == multiset(ys)
    ensures HandshakeFailure(xs + [innermost]) <==> HandshakeFailure(ys + [innermost])
    ensures UnexpectedEof(xs + [innermost]) <==> UnexpectedEof(ys + [innermost])
  {
    hide CoveredBy, HandshakeFailure, UnexpectedEof;
    RearrangedCovers(xs, ys, innermost);
    RearrangedCovers(ys, xs, innermost);
    OrderPlaysNoPart(xs + [innermost], ys + [innermost]);
  }

  /** The innermost cause cannot move: the SOCKS phase counts only on a node that has a source. */
  lemma InnermostMatters()
    ensures var socks, other := Node(Other, SOCKS_CONNECT), Node(Other, "");
            HandshakeFailure([socks, other]) && !HandshakeFailure([other, socks])
  {
    var socks, other := Node(Other, SOCKS_CONNECT), Node(Other, "");
    assert RecognizedAt([socks, other], 0);
    assert forall i: nat :: !RecognizedAt([other, socks], i);
  }
}
