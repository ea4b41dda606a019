/**
 * The body of `main` (cmd/talkiepi/main.go, lines 29-115) as one run: resolve
 * the settings, fill in the client, then Init, wait for one signal, CleanUp
 * and exit 0. Randomness, the key-pair loader, the configuration file and
 * the signals are inputs; the calls main makes into the outside world are
 * recorded as a trace of events.
 */
module Bootstrap {
  import opened Wrappers
  import opened ConfigResolver
  import opened Identity
  import opened Transport

  datatype Signal = SIGINT | SIGTERM

  /** The outcome of `rand.Read` on a six-byte buffer: the bytes, or an error. */
  datatype RandomRead = Drawn(bytes: seq<byte>) | ReadError(message: string)

  /** The calls main makes into the outside world, in order. */
  datatype Event =
    | ReadRandom                                   // rand.Read(buf)
    | LoadKeyPair(certFile: string, keyFile: string)  // tls.LoadX509KeyPair
    | Init                                         // b.Init()
    | Notify                                       // signal.Notify for SIGINT and SIGTERM
    | Received(sig: Signal)                        // <-sigs returns
    | CleanUp                                      // b.CleanUp()
    | Exit(status: int)                            // os.Exit

  /** `talkiepi.Talkiepi` as main fills it in. */
  class Client {
    var address: string
    var channelName: string
    var username: string  // Config.Username
    var password: string  // Config.Password
    var tls: TlsConfig

    /** Lines 70-74: address and channel set, a fresh gumble config, a zero TLS config. */
    constructor (address: string, channelName: string)
      ensures this.address == address && this.channelName == channelName
      ensures username == "" && password == "" && tls == ZeroTls
    {
      this.address := address;
      this.channelName := channelName;
      username := "";
      password := "";
      tls := ZeroTls;
    }

    /**
     * Lines 93-103 on the client's TLS configuration. On a failed load the
     * verification flag has already been written and no certificate added.
     */
    method ConfigureTransport(insecure: bool, certificate: string, loadKeyPair: KeyPairLoader)
      returns (ok: bool)
      modifies this`tls
      ensures ok == Secure(old(tls), insecure, certificate, loadKeyPair).Ok?
      ensures ok ==> tls == Secure(old(tls), insecure, certificate, loadKeyPair).value
      ensures !ok ==> tls == old(tls).(insecureSkipVerify := old(tls).insecureSkipVerify || insecure)
    {
      if insecure {
        tls := tls.(insecureSkipVerify := true);
      }
      ok := true;
      if certificate != "" {
        match loadKeyPair(certificate, certificate)
        case Err(_) =>
          ok := false;
        case Ok(cert) =>
          tls := tls.(certificates := tls.certificates + [cert]);
      }
    }
  }

  /** `rand.Read` fills the whole buffer whenever it reports no error. */
  predicate WellFormedDraw(entropy: RandomRead) {
    entropy.Drawn? ==> |entropy.bytes| == DrawLength
  }

  /**
   * Lines 77-89: the configured name, or a generated one; a failed draw is
   * fatal. The name the client gets is never empty.
   */
  function ClientUsername(given: string, entropy: RandomRead): (r: Result<string>)
    requires WellFormedDraw(entropy)
    ensures r.Ok? <==> given != "" || entropy.Drawn?
    ensures r.Ok? ==> r.value != ""
  {
    if |given| != 0 then Ok(given)
    else
      match entropy
      case ReadError(e) => Err(e)
      case Drawn(bytes) => Ok(FormatUsername(MarkLocal(bytes)))
  }

  /** Setup reaches Init unless the draw (lines 79-83) or the key pair (97-101) fails. */
  predicate SetupSucceeds(cfg: ConfigFile, entropy: RandomRead, loadKeyPair: KeyPairLoader)
  {
    && (cfg.username != "" || entropy.Drawn?)
    && (cfg.certificate == "" || loadKeyPair(cfg.certificate, cfg.certificate).Ok?)
  }

  /** The outside calls made before Init: the draw, then the key-pair load if it is reached. */
  function SetupTrace(cfg: ConfigFile, entropy: RandomRead): seq<Event> {
    var draw := if cfg.username == "" then [ReadRandom] else [];
    var drawFailed := cfg.username == "" && entropy.ReadError?;
    var load := if drawFailed || cfg.certificate == "" then [] else [LoadKeyPair(cfg.certificate, cfg.certificate)];
    draw + load
  }

  /**
   * Lines 105-114: Init, arm the signal channel, take the first signal,
   * CleanUp and exit 0. With no signal the process stays blocked.
   */
  function Lifecycle(signals: seq<Signal>): seq<Event> {
    [Init, Notify] + if signals == [] then [] else [Received(signals[0]), CleanUp, Exit(0)]
  }

  /** Every outside call main makes, for the resolved settings and the inputs. */
  function MainTrace(cfg: ConfigFile, entropy: RandomRead, loadKeyPair: KeyPairLoader, signals: seq<Signal>)
    : seq<Event>
  {
    SetupTrace(cfg, entropy) + AfterSetup(SetupSucceeds(cfg, entropy, loadKeyPair), signals)
  }

  /** What follows setup: the lifecycle, or exit 1 after a fatal setup error. */
  function AfterSetup(setupOk: bool, signals: seq<Signal>): seq<Event> {
    if setupOk then Lifecycle(signals) else [Exit(1)]
  }

  /** The settings main connects with. */
  function Settings(cl: CommandLine, load: FileLoad): ConfigFile {
    Resolve(FlagValues(cl), ConfigPath(cl), load)
  }

  /** Every occurrence of `a` in the trace comes before every occurrence of `b`. */
  predicate Precedes(trace: seq<Event>, a: Event, b: Event) {
    forall i, j :: 0 <= i < |trace| && 0 <= j < |trace| && trace[i] == a && trace[j] == b ==> i < j
  }

  /**
   * Lines 79-83 and 97-101: when setup fails, main exits with status 1 and
   * neither Init, the signal wait nor CleanUp ever happens.
   */
  lemma FatalSetupNeverStarts(cfg: ConfigFile, entropy: RandomRead, loadKeyPair: KeyPairLoader, signals: seq<Signal>)
    requires !SetupSucceeds(cfg, entropy, loadKeyPair)
    ensures var trace := MainTrace(cfg, entropy, loadKeyPair, signals);
      && trace != [] && trace[|trace| - 1] == Exit(1)
      && Init !in trace && Notify !in trace && CleanUp !in trace && Exit(0) !in trace
  {
  }

  /** Events main can produce before Init: only draws and key-pair loads. */
  predicate SetupOnly(trace: seq<Event>) {
    forall i :: 0 <= i < |trace| ==> trace[i].ReadRandom? || trace[i].LoadKeyPair?
  }

  /** Every draw and key-pair load comes before every Init. */
  predicate SetupBeforeInit(trace: seq<Event>) {
    forall i, j ::
      0 <= i < |trace| && 0 <= j < |trace| && (trace[i].ReadRandom? || trace[i].LoadKeyPair?) && trace[j] == Init
      ==> i < j
  }

  /**
   * The lifecycle guarantees of a trace: every setup call comes before Init;
   * Init exactly once and before the signal wait is armed, which happens
   * exactly once; with a signal, that signal is received exactly once after
   * the arming, then CleanUp happens exactly once, then exit 0, once, as the
   * last event; no other signal is ever received; no exit 1; and without a
   * signal neither CleanUp nor any exit.
   */
  predicate RunsOnce(trace: seq<Event>, signals: seq<Signal>) {
    && SetupBeforeInit(trace)
    && multiset(trace)[Init] == 1
    && multiset(trace)[Notify] == 1
    && multiset(trace)[CleanUp] == (if signals == [] then 0 else 1)
    && multiset(trace)[Exit(0)] == (if signals == [] then 0 else 1)
    && Precedes(trace, Init, Notify)
    && Precedes(trace, Notify, CleanUp)
    && Precedes(trace, CleanUp, Exit(0))
    && Exit(1) !in trace
    && (forall i :: 0 <= i < |trace| && trace[i].Received? ==> signals != [] && trace[i] == Received(signals[0]))
    && (signals == [] ==> forall i :: 0 <= i < |trace| ==> !trace[i].Exit?)
    && (signals != [] ==>
          && multiset(trace)[Received(signals[0])] == 1
          && Precedes(trace, Notify, Received(signals[0]))
          && Precedes(trace, Received(signals[0]), CleanUp)
          && trace[|trace| - 1] == Exit(0))
  }

  /**
   * Once a setup made only of draws and loads is behind it, Init, the
   * arming, CleanUp, exit 0 and the received signal each occur as often as
   * in the lifecycle.
   */
  lemma LifecycleCounts(setup: seq<Event>, signals: seq<Signal>)
    requires SetupOnly(setup)
    ensures var trace := setup + Lifecycle(signals);
      && multiset(trace)[Init] == 1
      && multiset(trace)[Notify] == 1
      && multiset(trace)[CleanUp] == (if signals == [] then 0 else 1)
      && multiset(trace)[Exit(0)] == (if signals == [] then 0 else 1)
      && (signals != [] ==> multiset(trace)[Received(signals[0])] == 1)
      && Exit(1) !in trace
  {
    var life := Lifecycle(signals);
    assert Init !in setup && Notify !in setup && CleanUp !in setup && Exit(0) !in setup && Exit(1) !in setup;
    assert signals != [] ==> Received(signals[0]) !in setup;
    assert multiset(setup + life) == multiset(setup) + multiset(life);
  }

  /** Each lifecycle event sits at a fixed offset after the setup events. */
  lemma LifecycleOrder(setup: seq<Event>, signals: seq<Signal>)
    requires SetupOnly(setup)
    ensures var trace := setup + Lifecycle(signals);
      && SetupBeforeInit(trace)
      && Precedes(trace, Init, Notify)
      && Precedes(trace, Notify, CleanUp)
      && Precedes(trace, CleanUp, Exit(0))
      && (forall i :: 0 <= i < |trace| && trace[i].Received? ==> signals != [] && trace[i] == Received(signals[0]))
      && (signals == [] ==> forall i :: 0 <= i < |trace| ==> !trace[i].Exit?)
      && (signals != [] ==>
            && Precedes(trace, Notify, Received(signals[0]))
            && Precedes(trace, Received(signals[0]), CleanUp)
            && trace[|trace| - 1] == Exit(0))
  {
    var life := Lifecycle(signals);
    var trace := setup + life;
    var k := |setup|;
    forall i | 0 <= i < |trace|
      ensures i < k ==> trace[i].ReadRandom? || trace[i].LoadKeyPair?
      ensures k <= i ==> trace[i] == life[i - k] && !trace[i].ReadRandom? && !trace[i].LoadKeyPair?
    {
    }
  }

  /**
   * Lines 105-114: after a successful setup the trace keeps the lifecycle
   * guarantees of `RunsOnce`.
   */
  lemma SuccessfulLifecycle(cfg: ConfigFile, entropy: RandomRead, loadKeyPair: KeyPairLoader, signals: seq<Signal>)
    requires SetupSucceeds(cfg, entropy, loadKeyPair)
    ensures RunsOnce(MainTrace(cfg, entropy, loadKeyPair, signals), signals)
  {
    var setup := SetupTrace(cfg, entropy);
    var trace := MainTrace(cfg, entropy, loadKeyPair, signals);
    SetupTraceOnly(cfg, entropy);
    assert trace == setup + Lifecycle(signals);
    LifecycleCounts(setup, signals);
    LifecycleOrder(setup, signals);
  }

  /** A trace that tears down before the signal is received breaks the lifecycle guarantees. */
  lemma CleanUpBeforeSignalRejected()
    ensures !RunsOnce([Init, Notify, CleanUp, Received(SIGTERM), Exit(0)], [SIGTERM])
  {
    var trace := [Init, Notify, CleanUp, Received(SIGTERM), Exit(0)];
    assert trace[3] == Received(SIGTERM) && trace[2] == CleanUp;
  }

  /** Only the first signal is received: whatever arrives after it changes nothing. */
  lemma LaterSignalsIgnored(cfg: ConfigFile, entropy: RandomRead, loadKeyPair: KeyPairLoader,
                            sig: Signal, rest: seq<Signal>, other: seq<Signal>)
    ensures MainTrace(cfg, entropy, loadKeyPair, [sig] + rest) == MainTrace(cfg, entropy, loadKeyPair, [sig] + other)
  {
  }

  /**
   * The setup guarantees of a trace: random bytes are drawn, once, exactly
   * when the resolved name is empty; the key pair is loaded at most once, and
   * every key-pair load uses the configured (non-empty) certificate path as
   * both files.
   */
  predicate SetupCallsFit(trace: seq<Event>, cfg: ConfigFile) {
    && (ReadRandom in trace <==> cfg.username == "")
    && multiset(trace)[ReadRandom] <= 1
    && multiset(trace)[LoadKeyPair(cfg.certificate, cfg.certificate)] <= 1
    && forall i :: 0 <= i < |trace| && trace[i].LoadKeyPair? ==>
         cfg.certificate != "" && trace[i] == LoadKeyPair(cfg.certificate, cfg.certificate)
  }

  /**
   * Lines 77-82 and 96-97: the setup calls main makes fit the resolved
   * settings. The key pair is loaded exactly when a path is given and the
   * name is configured or the draw succeeded (a failed draw exits first),
   * and the draw comes before the load.
   */
  lemma SetupCalls(cfg: ConfigFile, entropy: RandomRead, loadKeyPair: KeyPairLoader, signals: seq<Signal>)
    ensures SetupCallsFit(MainTrace(cfg, entropy, loadKeyPair, signals), cfg)
    ensures cfg.certificate != "" && (cfg.username != "" || entropy.Drawn?) ==>
      LoadKeyPair(cfg.certificate, cfg.certificate) in MainTrace(cfg, entropy, loadKeyPair, signals)
    ensures var trace := MainTrace(cfg, entropy, loadKeyPair, signals);
      forall i :: 0 <= i < |trace| && trace[i].LoadKeyPair? ==> cfg.username != "" || entropy.Drawn?
    ensures Precedes(MainTrace(cfg, entropy, loadKeyPair, signals), ReadRandom, LoadKeyPair(cfg.certificate, cfg.certificate))
  {
    var setup := SetupTrace(cfg, entropy);
    var tail := AfterSetup(SetupSucceeds(cfg, entropy, loadKeyPair), signals);
    assert MainTrace(cfg, entropy, loadKeyPair, signals) == setup + tail;
    SetupTraceCalls(cfg, entropy);
    if cfg.certificate != "" && (cfg.username != "" || entropy.Drawn?) {
      assert setup[|setup| - 1] == LoadKeyPair(cfg.certificate, cfg.certificate);
    }
    AfterSetupQuiet(SetupSucceeds(cfg, entropy, loadKeyPair), signals);
    SetupPrefix(cfg, setup, tail);
  }

  lemma SetupTraceCalls(cfg: ConfigFile, entropy: RandomRead)
    ensures SetupCallsFit(SetupTrace(cfg, entropy), cfg)
  {
  }

  lemma SetupTraceOnly(cfg: ConfigFile, entropy: RandomRead)
    ensures SetupOnly(SetupTrace(cfg, entropy))
  {
    var setup := SetupTrace(cfg, entropy);
    assert |setup| <= 2;
    assert forall i :: 0 <= i < |setup| ==> setup[i] == ReadRandom || setup[i] == LoadKeyPair(cfg.certificate, cfg.certificate);
  }

  lemma AfterSetupQuiet(setupOk: bool, signals: seq<Signal>)
    ensures var tail := AfterSetup(setupOk, signals);
      forall i :: 0 <= i < |tail| ==> !tail[i].ReadRandom? && !tail[i].LoadKeyPair?
  {
  }

  /** Events after setup neither draw nor load, so they keep the setup guarantees. */
  lemma SetupPrefix(cfg: ConfigFile, setup: seq<Event>, tail: seq<Event>)
    requires SetupCallsFit(setup, cfg)
    requires forall i :: 0 <= i < |tail| ==> !tail[i].ReadRandom? && !tail[i].LoadKeyPair?
    ensures SetupCallsFit(setup + tail, cfg)
  {
    var trace := setup + tail;
    assert ReadRandom !in tail && LoadKeyPair(cfg.certificate, cfg.certificate) !in tail;
    assert multiset(trace) == multiset(setup) + multiset(tail);
  }

  /** A configured name is used verbatim; an empty one becomes a generated name. */
  lemma UsernameChoice(given: string, entropy: RandomRead)
    requires WellFormedDraw(entropy)
    ensures given != "" ==> ClientUsername(given, entropy) == Ok(given)
    ensures given == "" && entropy.Drawn? ==>
      && ClientUsername(given, entropy).Ok?
      && ParseUsername(ClientUsername(given, entropy).value) == Some(MarkLocal(entropy.bytes))
    ensures given == "" && entropy.ReadError? ==> ClientUsername(given, entropy).Err?
  {
    if given == "" && entropy.Drawn? {
      GeneratedUsername(entropy.bytes);
    }
  }

  /**
   * Lines 29-115 in one run. The client carries the resolved address and
   * channel; after a successful setup it carries the chosen username, the
   * password and the TLS settings; the trace is `MainTrace` of the resolved
   * settings.
   */
  method Run(cl: CommandLine, load: FileLoad, entropy: RandomRead, loadKeyPair: KeyPairLoader, signals: seq<Signal>)
    returns (client: Client, trace: seq<Event>)
    requires WellFormedDraw(entropy)
    ensures var cfg := Settings(cl, load);
      && trace == MainTrace(cfg, entropy, loadKeyPair, signals)
      && client.address == cfg.server
      && client.channelName == cfg.channel
      && (SetupSucceeds(cfg, entropy, loadKeyPair) ==>
            && client.username == ClientUsername(cfg.username, entropy).value
            && client.password == cfg.password
            && client.tls == Secure(ZeroTls, cfg.insecure, cfg.certificate, loadKeyPair).value)
  {
    var cfg := ResolveFlags(cl, load);
    var ok;
    client, trace, ok := Prepare(cfg, entropy, loadKeyPair);
    if !ok {
      return;
    }
    trace := trace + [Init, Notify];
    if signals != [] {
      trace := trace + [Received(signals[0]), CleanUp, Exit(0)];
    }
  }

  /** Lines 31-67: parse the flags, then let a named configuration file override them. */
  method ResolveFlags(cl: CommandLine, load: FileLoad) returns (cfg: ConfigFile)
    ensures cfg == Settings(cl, load)
  {
    var flags := new Flags.Parse(cl);
    flags.ApplyConfigFile(load);
    cfg := flags.Values();
  }

  /**
   * Lines 70-103: build the client from the resolved settings. On a fatal
   * draw or key-pair failure the trace ends in exit 1 and `ok` is false.
   */
  method Prepare(cfg: ConfigFile, entropy: RandomRead, loadKeyPair: KeyPairLoader)
    returns (client: Client, trace: seq<Event>, ok: bool)
    requires WellFormedDraw(entropy)
    ensures ok == SetupSucceeds(cfg, entropy, loadKeyPair)
    ensures trace == SetupTrace(cfg, entropy) + (if ok then [] else [Exit(1)])
    ensures client.address == cfg.server && client.channelName == cfg.channel
    ensures ok ==>
      && client.username == ClientUsername(cfg.username, entropy).value
      && client.password == cfg.password
      && client.tls == Secure(ZeroTls, cfg.insecure, cfg.certificate, loadKeyPair).value
  {
    client := new Client(cfg.server, cfg.channel);

    trace := if |cfg.username| == 0 then [ReadRandom] else [];
    var name := ChooseUsername(cfg.username, entropy);
    if name.Err? {
      trace := trace + [Exit(1)];
      return client, trace, false;
    }
    client.username := name.value;
    client.password := cfg.password;

    if cfg.certificate != "" {
      trace := trace + [LoadKeyPair(cfg.certificate, cfg.certificate)];
    }
    ok := client.ConfigureTransport(cfg.insecure, cfg.certificate, loadKeyPair);
    if !ok {
      trace := trace + [Exit(1)];
    }
  }

  /**
   * Lines 77-89: the configured name as given; otherwise six bytes are drawn
   * into a buffer, marked and rendered. A failed draw is an error.
   */
  method ChooseUsername(given: string, entropy: RandomRead) returns (r: Result<string>)
    requires WellFormedDraw(entropy)
    ensures r == ClientUsername(given, entropy)
  {
    if |given| != 0 {
      return Ok(given);
    }
    match entropy
    case ReadError(e) =>
      r := Err(e);
    case Drawn(bytes) =>
      var buf := new byte[DrawLength](i requires 0 <= i < DrawLength => bytes[i]);
      assert buf[..] == bytes;
      var name := MarkAndFormat(buf);
      r := Ok(name);
  }

  /**
   * The end-to-end case: `-server=example.org:64738 -channel=Lobby`, no
   * configuration file, no certificate. Verification is skipped, the name is
   * a generated one, and SIGTERM leads to one CleanUp and exit 0.
   */
  lemma ExampleSession(raw: seq<byte>)
    requires |raw| == DrawLength
    ensures var cl := NoFlags.(server := Some("example.org:64738"), channel := Some("Lobby"));
      var cfg := Settings(cl, OpenFailed);
      var entropy := Drawn(raw);
      var noKeys: KeyPairLoader := (c, k) => Err("no certificate");
      && cfg == ConfigFile("example.org:64738", "", "", true, "", "Lobby")
      && SetupSucceeds(cfg, entropy, noKeys)
      && Secure(ZeroTls, cfg.insecure, cfg.certificate, noKeys).value.insecureSkipVerify
      && ParseUsername(ClientUsername(cfg.username, entropy).value).Some?
      && MainTrace(cfg, entropy, noKeys, [SIGTERM]) == [ReadRandom, Init, Notify, Received(SIGTERM), CleanUp, Exit(0)]
  {
    GeneratedUsername(raw);
  }
}
