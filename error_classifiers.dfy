/** The connection-error classifiers of the proxy
    (proxy/error_classifiers/error_classifiers.go): predicates over the error a
    round trip to a backend returned, which the proxy uses to decide whether to
    retry and which status to answer with. An error is modelled by its shape:
    which of the recognised types it has, for the tls and x509 types whether it
    reaches the classifier as a value or a pointer, and for a *net.OpError its Op
    and its inner error's text. */
module ErrorClassifiers {

  /** Whether an error of a recognised type is held by value (`tls.RecordHeaderError`)
      or by pointer (`*tls.RecordHeaderError`). */
  datatype Form = Value | Pointer

  /** The inner error of a *net.OpError: nil, or an error whose Error() is `message`. */
  datatype Inner = NilInner | InnerError(message: string)

  /** The error a classifier is given. A net.OpError implements `error` only
      through its pointer, so OpError always stands for a *net.OpError. */
  datatype Error =
    | Nil
    | RecordHeaderError(form: Form)
    | OpError(op: string, inner: Inner)
    | HostnameError(form: Form)
    | UnknownAuthorityError(form: Form)
    | OtherError(message: string)

  /** The inner-error texts the classifiers compare against. */
  const ConnectionResetByPeer := "read: connection reset by peer"
  const BadCertificate := "tls: bad certificate"
  const HandshakeFailure := "tls: handshake failure"

  /** The classifiers that read the inner error's text call `ne.Err.Error()`
      without a nil check once Op matched; on a nil inner error Go panics there.
      This is the case their precondition excludes. */
  predicate NilInnerAt(err: Error, op: string)
  {
    err.OpError? && err.op == op && err.inner.NilInner?
  }

  datatype Option<T> = None | Some(value: T)

  /** The failure each classifier recognises. */
  datatype Kind =
    | NonTLSBackend
    | DialFailure
    | ResetOnRead
    | BadCertificateReported
    | HandshakeFailureReported
    | WrongHostname
    | UnknownAuthority

  /** Reference classification, by the error's shape alone: the one failure the
      error is an instance of, if any. */
  function KindOf(err: Error): Option<Kind>
  {
    match err
    case RecordHeaderError(_) => Some(NonTLSBackend)
    case HostnameError(_) => Some(WrongHostname)
    case UnknownAuthorityError(_) => Some(UnknownAuthority)
    case OpError(op, inner) =>
      if op == "dial" then Some(DialFailure)
      else if inner.NilInner? then None
      else if op == "read" && inner.message == ConnectionResetByPeer then Some(ResetOnRead)
      else if op == "remote error" && inner.message == BadCertificate then Some(BadCertificateReported)
      else if op == "remote error" && inner.message == HandshakeFailure then Some(HandshakeFailureReported)
      else None
    case _ => None
  }

  /** ClassifierFunc.Classify: a classifier applied to an error. */
  function Classify(f: Error --> bool, err: Error): (r: bool)
    requires f.requires(err)
    ensures r == f(err)
  {
    f(err)
  }

  /** AttemptedTLSWithNonTLSBackend: a tls.RecordHeaderError, value or pointer. */
  function AttemptedTLSWithNonTLSBackend(err: Error): (r: bool)
    ensures r <==> KindOf(err) == Some(NonTLSBackend)
  {
    match err
    case RecordHeaderError(_) => true
    case _ => false
  }

  /** Dial: a *net.OpError whose Op is "dial", whatever its inner error. */
  function Dial(err: Error): (r: bool)
    ensures r <==> KindOf(err) == Some(DialFailure)
  {
    err.OpError? && err.op == "dial"
  }

  /** ConnectionResetOnRead: a *net.OpError whose Op is "read" and whose inner
      error reads "read: connection reset by peer". */
  function ConnectionResetOnRead(err: Error): (r: bool)
    requires !NilInnerAt(err, "read")
    ensures r <==> KindOf(err) == Some(ResetOnRead)
  {
    err.OpError? && err.op == "read" && err.inner.message == ConnectionResetByPeer
  }

  /** RemoteFailedCertCheck: a *net.OpError whose Op is "remote error" and whose
      inner error reads "tls: bad certificate". */
  function RemoteFailedCertCheck(err: Error): (r: bool)
    requires !NilInnerAt(err, "remote error")
    ensures r <==> KindOf(err) == Some(BadCertificateReported)
  {
    err.OpError? && err.op == "remote error" && err.inner.message == BadCertificate
  }

  /** RemoteHandshakeFailure: a *net.OpError whose Op is "remote error" and whose
      inner error reads "tls: handshake failure". */
  function RemoteHandshakeFailure(err: Error): (r: bool)
    requires !NilInnerAt(err, "remote error")
    ensures r <==> KindOf(err) == Some(HandshakeFailureReported)
  {
    err.OpError? && err.op == "remote error" && err.inner.message == HandshakeFailure
  }

  /** HostnameMismatch: an x509.HostnameError, value or pointer. */
  function HostnameMismatch(err: Error): (r: bool)
    ensures r <==> KindOf(err) == Some(WrongHostname)
  {
    match err
    case HostnameError(_) => true
    case _ => false
  }

  /** UntrustedCert: an x509.UnknownAuthorityError, value or pointer. */
  function UntrustedCert(err: Error): (r: bool)
    ensures r <==> KindOf(err) == Some(UnknownAuthority)
  {
    match err
    case UnknownAuthorityError(_) => true
    case _ => false
  }

  /** The classifier that recognises failures of kind `k`. */
  function ClassifierOf(k: Kind): Error --> bool
  {
    match k
    case NonTLSBackend => AttemptedTLSWithNonTLSBackend
    case DialFailure => Dial
    case ResetOnRead => ConnectionResetOnRead
    case BadCertificateReported => RemoteFailedCertCheck
    case HandshakeFailureReported => RemoteHandshakeFailure
    case WrongHostname => HostnameMismatch
    case UnknownAuthority => UntrustedCert
  }

  /** Every classifier, through Classify, holds exactly of the errors of its kind. */
  lemma ClassifyMatchesKind(k: Kind, err: Error)
    requires ClassifierOf(k).requires(err)
    ensures Classify(ClassifierOf(k), err) <==> KindOf(err) == Some(k)
  {
    match k
    case NonTLSBackend =>
    case DialFailure =>
    case ResetOnRead =>
    case BadCertificateReported =>
    case HandshakeFailureReported =>
    case WrongHostname =>
    case UnknownAuthority =>
  }

  /** No error is classified as two different failures. */
  lemma ClassifiersExclusive(err: Error, k1: Kind, k2: Kind)
    requires ClassifierOf(k1).requires(err) && ClassifierOf(k2).requires(err)
    requires Classify(ClassifierOf(k1), err) && Classify(ClassifierOf(k2), err)
    ensures k1 == k2
  {
    ClassifyMatchesKind(k1, err);
    ClassifyMatchesKind(k2, err);
  }

  /** A classifier panics only on a *net.OpError with a nil inner error whose Op
      it has already matched; every other error can be given to every classifier. */
  lemma ClassifierDefined(k: Kind, err: Error)
    requires !NilInnerAt(err, "read") && !NilInnerAt(err, "remote error")
    ensures ClassifierOf(k).requires(err)
  {
    match k
    case NonTLSBackend =>
    case DialFailure =>
    case ResetOnRead =>
    case BadCertificateReported =>
    case HandshakeFailureReported =>
    case WrongHostname =>
    case UnknownAuthority =>
  }

  /** nil and an unrecognised error are classified as nothing. */
  lemma UnrecognisedIsUnclassified(k: Kind, err: Error)
    requires err.Nil? || err.OtherError?
    ensures ClassifierOf(k).requires(err)
    ensures !Classify(ClassifierOf(k), err)
  {
    ClassifierDefined(k, err);
    ClassifyMatchesKind(k, err);
  }

  /** The four net.OpError classifiers hold of no error but a *net.OpError:
      `err.(*net.OpError)` fails and `ok &&` short-circuits. */
  lemma OpClassifiersNeedOpError(err: Error)
    requires !err.OpError?
    ensures !Dial(err) && !ConnectionResetOnRead(err)
    ensures !RemoteFailedCertCheck(err) && !RemoteHandshakeFailure(err)
  {
  }

  /** The type-switch classifiers accept both forms of their type. */
  lemma FormIsIrrelevant(form: Form)
    ensures AttemptedTLSWithNonTLSBackend(RecordHeaderError(form))
    ensures HostnameMismatch(HostnameError(form))
    ensures UntrustedCert(UnknownAuthorityError(form))
  {
  }

  /** Dial ignores the inner error, even a nil one. */
  lemma DialIgnoresInner(inner: Inner)
    ensures Dial(OpError("dial", inner))
    ensures !ConnectionResetOnRead(OpError("dial", inner))
  {
  }

  /** The remote-error classifiers compare the whole inner text: any other text,
      or another Op with the right text, is neither failure. */
  lemma RemoteErrorNeedsExactText(op: string, message: string)
    requires op != "remote error" || (message != BadCertificate && message != HandshakeFailure)
    ensures !RemoteFailedCertCheck(OpError(op, InnerError(message)))
    ensures !RemoteHandshakeFailure(OpError(op, InnerError(message)))
  {
  }

  /** Concrete errors as the standard library produces them. */
  lemma Examples()
    ensures Dial(OpError("dial", InnerError("connect: connection refused")))
    ensures ConnectionResetOnRead(OpError("read", InnerError("read: connection reset by peer")))
    ensures !ConnectionResetOnRead(OpError("write", InnerError("read: connection reset by peer")))
    ensures !ConnectionResetOnRead(OtherError("read: connection reset by peer"))
    ensures RemoteFailedCertCheck(OpError("remote error", InnerError("tls: bad certificate")))
    ensures !RemoteHandshakeFailure(OpError("remote error", InnerError("tls: bad certificate")))
    ensures RemoteHandshakeFailure(OpError("remote error", InnerError("tls: handshake failure")))
    ensures !HostnameMismatch(UnknownAuthorityError(Pointer))
  {
  }
}
