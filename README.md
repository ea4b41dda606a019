# talkiepi bootstrap, modelled in Dafny

This project models the `talkiepi` command (`cmd/talkiepi/main.go`), a
Mumble voice client for the Raspberry Pi. Its `main` does the following in order:

- it reads its connection settings from command-line flags;
- it replaces all of them with the record of a JSON configuration file when `-config` is given;
- it invents a random username when none is configured;
- it builds the client's TLS settings, optionally with a client certificate;
- it calls `Init` on the client, waits for SIGINT or SIGTERM, calls `CleanUp` and exits 0.

The model keeps these decisions and makes every effect an input. The
decoded file, the random bytes, the key-pair loader and the signals are
parameters. The calls into the outside world are recorded as a trace of events.

Modules:

- `ConfigResolver` (`config.dfy`) holds the `ConfigFile` record, the flag defaults and the
  precedence rule `Resolve`. It also holds the class `Flags`: the variables behind the
  flag pointers, which `main` overwrites in place.
- `Identity` (`identity.dfy`) holds the byte marking `buf[0] |= 2` and the
  `talkiepi-%02x…` rendering. It also holds a decoder for generated names, used to
  prove the rendering loses nothing.
- `Transport` (`transport.dfy`) applies the `insecure` and `certificate` settings to a TLS
  configuration value. The certificate is loaded through a `KeyPairLoader` parameter.
- `Bootstrap` (`bootstrap.dfy`) holds the class `Client` (`talkiepi.Talkiepi`), the methods
  that run `main` step by step, and the trace specification `MainTrace` with its
  lifecycle lemmas.
- `Wrappers` (`wrappers.dfy`) holds `Option`, `Result` and the `byte` type.

Behaviour of `main` that the model keeps, though it may surprise:

- A configuration file that cannot be opened does not leave the flag values in
  place. No bytes are read, decoding them fails, and the zero record
  overrides every flag: all strings become empty and `insecure` becomes false.
- The result of `Init` is not looked at by `main`, so an initialisation failure is
  not fatal in the model.
- "CleanUp exactly once" holds because `main` is straight-line code. No guard
  state exists, and the model adds none. The trace lemmas show that `Init` occurs
  once, and that `CleanUp` occurs once if a signal arrives and not otherwise.
- `InsecureSkipVerify` is only ever set to true, never to false. On the fresh
  client this equals the `insecure` setting.
- An empty server address is not rejected.

## Model

| member | source | states |
|---|---|---|
| `ConfigResolver.Flags.Parse` | cmd/talkiepi/main.go:31-39 | after parsing, each flag variable holds its given value or its built-in default; the config path is parsed too |
| `ConfigResolver.NoFlagsDefaults` | cmd/talkiepi/main.go:31-37 | with no flags, every string setting is empty, `insecure` is true and the config path is empty |
| `ConfigResolver.GivenFlagsKept` | cmd/talkiepi/main.go:31-39 | for each of the seven flags (the six settings and `-config`), a given flag keeps its value and a missing one takes its default: `""`, or true for `insecure` |
| `ConfigResolver.FlagValues` | cmd/talkiepi/main.go:31-39 | the settings after flag parsing: each one is the given value or its default (`""`, or true for `insecure`); its properties are stated by `NoFlagsDefaults` and `GivenFlagsKept` |
| `ConfigResolver.FileRecord` | cmd/talkiepi/main.go:49-59 | the record that overrides the flags: the decoded record, or the zero record when the file cannot be opened (no bytes are read) or does not parse |
| `ConfigResolver.Resolve` | cmd/talkiepi/main.go:47-67 | the precedence rule; the result is always one of the two whole records, the flags or the file's record, never a per-field mix |
| `ConfigResolver.Flags.ApplyConfigFile` | cmd/talkiepi/main.go:47-67 | the six variables end up equal to `Resolve` of their old values, the path and the file outcome; the path itself is unchanged |
| `ConfigResolver.EmptyPathKeepsFlags` | cmd/talkiepi/main.go:47 | with an empty `-config` path the resolved settings are exactly the flag values, whatever the file holds |
| `ConfigResolver.FileOverridesAllFlags` | cmd/talkiepi/main.go:47-66 | with a non-empty path the result does not depend on the flags at all; a decoded record is taken whole |
| `ConfigResolver.FailedLoadResetsEverything` | cmd/talkiepi/main.go:49-66 | if the file cannot be opened or does not parse, every resolved string is empty and `insecure` is false |
| `Identity.DigitValue` | cmd/talkiepi/main.go:86 | only the 16 lower-case hex digits have a value, which lies between 0 and 15 |
| `Identity.HexDigit` | cmd/talkiepi/main.go:86 | the digit written for a nibble is lower-case hex and reads back as that nibble |
| `Identity.SetLocalBit` | cmd/talkiepi/main.go:85 | after OR-ing the byte with 2, bit 0x02 is set; bit 0 and bits 2-7 are as before |
| `Identity.MarkLocal` | cmd/talkiepi/main.go:85 | marking the drawn bytes changes only the first byte: its bit 0x02 is set and its other bits are kept; the length and bytes 1-5 are unchanged |
| `Identity.HexByte` | cmd/talkiepi/main.go:86 | `%02x` gives two lower-case hex digits whose values are the high and low nibble of the byte |
| `Identity.HexEncode` | cmd/talkiepi/main.go:86 | the encoding is twice as long as the bytes and made only of lower-case hex digits |
| `Identity.FormatUsername` | cmd/talkiepi/main.go:86 | the name has 21 characters: `talkiepi-` and then 12 lower-case hex digits, which are the hex encoding of the six bytes in order |
| `Identity.HexDecodeEncode` | cmd/talkiepi/main.go:86 | decoding the hex rendering gives back the original bytes |
| `Identity.HexEncodeDecode` | cmd/talkiepi/main.go:86 | any string that decodes is the rendering of its decoded bytes, so the rendering is canonical |
| `Identity.UsernameRoundTrip` | cmd/talkiepi/main.go:86 | parsing a formatted name gives back exactly the six bytes |
| `Identity.ParsedUsernameIsFormatted` | cmd/talkiepi/main.go:86 | every name the parser accepts is the formatted name of six bytes |
| `Identity.FormatUsernameExample` | cmd/talkiepi/main.go:86 | the bytes a1 b2 c3 d4 e5 f6 render as `talkiepi-a1b2c3d4e5f6`: two lower-case digits per byte, high digit first |
| `Identity.FormatUsernameInjective` | cmd/talkiepi/main.go:86 | two different six-byte buffers never give the same name |
| `Identity.GeneratedUsername` | cmd/talkiepi/main.go:85-86 | a generated name decodes to the drawn bytes with only bit 0x02 of the first byte forced; its 11th character is one of `2367abef` |
| `Identity.MarkerDigit` | cmd/talkiepi/main.go:85-86 | a byte with bit 0x02 set has a low hex digit in `2367abef` |
| `Identity.MarkAndFormat` | cmd/talkiepi/main.go:85-86 | the buffer's first byte gets bit 0x02 in place, the other bytes are unchanged, and the returned name is the rendering of the marked buffer |
| `Transport.Secure` | cmd/talkiepi/main.go:93-103 | succeeds exactly when there is no path or the loader succeeds on (path, path); sets skip-verify to old value or `insecure`; an empty path leaves the certificates alone; a non-empty one appends exactly the one loaded certificate; a failure carries the loader's message |
| `Transport.SecureFromZero` | cmd/talkiepi/main.go:93-103 | on a zero TLS config, skip-verify equals `insecure` and there are 0 or 1 certificates, depending on whether a path is given |
| `Bootstrap.Client.constructor` | cmd/talkiepi/main.go:70-74 | a new client has the given address and channel, an empty name and password, and a zero TLS config |
| `Bootstrap.Client.ConfigureTransport` | cmd/talkiepi/main.go:93-103 | the client's TLS config becomes `Secure` of the old one; on a failed load only the skip-verify flag has changed |
| `Bootstrap.ClientUsername` | cmd/talkiepi/main.go:77-89 | a name is produced exactly when one is configured or the draw succeeds, and the produced name is never empty |
| `Bootstrap.SetupSucceeds` | cmd/talkiepi/main.go:77-103 | setup reaches Init exactly when the name is configured or the draw succeeds, and either no certificate path is given or the key pair loads from it |
| `Bootstrap.SetupTrace` | cmd/talkiepi/main.go:77-103 | the outside calls before Init: a draw if the name is empty, then a load of (path, path) if a path is given and the draw did not fail; `SetupCalls` states its properties |
| `Bootstrap.Lifecycle` | cmd/talkiepi/main.go:105-114 | Init, arming of the signal channel, and, if a signal comes, its receipt, CleanUp and exit 0; `LifecycleCounts` and `LifecycleOrder` state its properties |
| `Bootstrap.MainTrace` | cmd/talkiepi/main.go:77-114 | the setup calls, then the lifecycle after a successful setup or exit 1 after a failed one; `FatalSetupNeverStarts`, `SuccessfulLifecycle` and `SetupCalls` state its properties |
| `Bootstrap.ChooseUsername` | cmd/talkiepi/main.go:77-89 | a non-empty name is returned as given; otherwise the drawn buffer is marked and rendered; a failed draw is an error |
| `Bootstrap.UsernameChoice` | cmd/talkiepi/main.go:77-89 | a configured name is used verbatim; an empty one with a successful draw gives a name that parses back to the marked bytes; a failed draw is an error |
| `Bootstrap.ResolveFlags` | cmd/talkiepi/main.go:31-67 | the settings used are `Resolve` of the parsed flags, the config path and the file outcome |
| `Bootstrap.Prepare` | cmd/talkiepi/main.go:70-103 | setup succeeds exactly when neither the draw nor the key-pair load fails; the trace has the draw and load calls and then exit 1 on failure; the client has the resolved address and channel; on success it also has the chosen name, the password and `Secure`'s TLS config |
| `Bootstrap.Run` | cmd/talkiepi/main.go:29-115 | the trace of a run is `MainTrace` of the resolved settings; the client holds the resolved address and channel, and after a successful setup the name, password and TLS settings |
| `Bootstrap.FatalSetupNeverStarts` | cmd/talkiepi/main.go:77-103 | after a failed draw or key-pair load the last event is exit 1; Init, the signal wait, CleanUp and exit 0 never happen |
| `Bootstrap.LifecycleCounts` | cmd/talkiepi/main.go:105-114 | after setup calls, Init and the arming occur once each; with a signal, that signal is received once and CleanUp and exit 0 occur once each; without one neither occurs; there is no exit 1 |
| `Bootstrap.LifecycleOrder` | cmd/talkiepi/main.go:105-114 | every draw and key-pair load comes before Init; Init comes before the wait is armed; the arming comes before the received signal, which comes before CleanUp, which comes before exit 0, the last event; only the first signal is ever received; with no signal there is no exit |
| `Bootstrap.SuccessfulLifecycle` | cmd/talkiepi/main.go:105-114 | after a successful setup the whole trace has the guarantees of `RunsOnce`: all draws and key-pair loads, then Init once, then one arming, then (given a signal) exactly one receipt of the first signal, then exactly one CleanUp, then exit 0, once and last; no exit 1; no CleanUp and no exit without a signal |
| `Bootstrap.CleanUpBeforeSignalRejected` | cmd/talkiepi/main.go:111-112 | a trace that runs CleanUp before the signal is received does not have the `RunsOnce` guarantees |
| `Bootstrap.LaterSignalsIgnored` | cmd/talkiepi/main.go:107-111 | only the first signal is received; the signals after it do not change the trace |
| `Bootstrap.SetupCalls` | cmd/talkiepi/main.go:77-103 | random bytes are drawn, once, exactly when the resolved name is empty; the key pair is loaded at most once, and exactly when a certificate path is given and the name is configured or the draw succeeds (a failed draw exits before any load); the draw comes before the load; every key-pair load uses the non-empty certificate path as both the certificate and the key file |
| `Bootstrap.SetupPrefix` | cmd/talkiepi/main.go:77-103 | events after setup never draw or load, so the setup guarantees hold for the whole trace |
| `Bootstrap.ExampleSession` | cmd/talkiepi/main.go:31-114 | with `-server=example.org:64738 -channel=Lobby` and nothing else, the settings are that server and channel, with skip-verify on and an empty name; the name is generated; on SIGTERM the trace is draw, Init, arm, receive, CleanUp, exit 0 |

## Left out

- JSON decoding (`json.Unmarshal`, line 59) is library behaviour. Its outcome is an input: unparsable, or a decoded record whose missing keys are zero.
- File I/O (`os.Open`, `ioutil.ReadAll`, lines 49-55) is an input too. The read error is discarded by the code, and the model does not use it either. The deferred `Close` (line 53) is not modelled; it never runs, because `os.Exit` skips deferred calls.
- `flag.Parse` is modelled only as "given value or default". Malformed flag syntax, `-help` and unknown flags are not modelled.
- `crypto/rand.Read` (line 79) is a parameter: six bytes, or an error.
- `tls.LoadX509KeyPair` (line 97) is an opaque loader parameter from (certificate file, key file) to a certificate or an error.
- The internals of `talkiepi.Talkiepi`, `Init`, `CleanUp` and `gumble.NewConfig` are only events or default values. Of the gumble config, only the username and password fields are modelled.
- Signal handling: only signals delivered after `signal.Notify` are modelled, as a sequence whose first element is received. A signal before that point takes the runtime's default action, which is not modelled.
- Console output (lines 48, 51, 81, 99) is not modelled. Error messages survive only as the `Err` text in the model's own functions.
- Bytes are integers from 0 to 255, not bit-vectors. So `buf[0] |= 2` is written arithmetically in `SetLocalBit`, whose contract fixes every bit of the result.
