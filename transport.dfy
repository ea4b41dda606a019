/**
 * The client's transport security settings (cmd/talkiepi/main.go, lines
 * 93-103): certificate verification is switched off on request, and a
 * configured certificate path adds one key pair loaded from that path.
 */
module Transport {
  import opened Wrappers

  /** A loaded certificate chain and its private key (`tls.Certificate`). */
  datatype Certificate = Certificate(chain: seq<seq<byte>>, privateKey: seq<byte>)

  /**
   * `tls.LoadX509KeyPair(certFile, keyFile)`: reads and parses files outside
   * this model, so it is a parameter giving a certificate or an error.
   */
  type KeyPairLoader = (string, string) -> Result<Certificate>

  /** The two fields of `tls.Config` main writes. */
  datatype TlsConfig = TlsConfig(insecureSkipVerify: bool, certificates: seq<Certificate>)

  /** The zero `tls.Config` a new client carries. */
  const ZeroTls := TlsConfig(false, [])

  /**
   * Lines 93-103 applied to a TLS configuration. Verification is switched off
   * when asked and otherwise left as it was (the code never writes false).
   * A non-empty path loads one key pair, using the path as both the
   * certificate and the key file, and appends it after the certificates
   * already present; an empty path leaves them alone. A failed load is an
   * error carrying the loader's message.
   */
  function Secure(tls: TlsConfig, insecure: bool, certificate: string, loadKeyPair: KeyPairLoader)
    : (r: Result<TlsConfig>)
    ensures r.Ok? <==> certificate == "" || loadKeyPair(certificate, certificate).Ok?
    ensures r.Err? ==> r.message == loadKeyPair(certificate, certificate).message
    ensures r.Ok? ==> r.value.insecureSkipVerify == (tls.insecureSkipVerify || insecure)
    ensures r.Ok? && certificate == "" ==> r.value.certificates == tls.certificates
    ensures r.Ok? && certificate != "" ==>
      r.value.certificates == tls.certificates + [loadKeyPair(certificate, certificate).value]
  {
    var skip := if insecure then tls.(insecureSkipVerify := true) else tls;
    if certificate == "" then Ok(skip)
    else
      match loadKeyPair(certificate, certificate)
      case Err(e) => Err(e)
      case Ok(cert) => Ok(skip.(certificates := skip.certificates + [cert]))
  }

  /**
   * On a fresh client the outcome depends only on the settings: verification
   * is skipped exactly when `insecure` is set, and there is at most one
   * certificate.
   */
  lemma SecureFromZero(insecure: bool, certificate: string, loadKeyPair: KeyPairLoader)
    requires Secure(ZeroTls, insecure, certificate, loadKeyPair).Ok?
    ensures var tls := Secure(ZeroTls, insecure, certificate, loadKeyPair).value;
      && tls.insecureSkipVerify == insecure
      && |tls.certificates| == (if certificate == "" then 0 else 1)
  {
  }
}
