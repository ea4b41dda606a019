/**
 * Connection settings from the command line and the optional configuration
 * file (cmd/talkiepi/main.go, lines 20-67). A non-empty `-config` replaces all
 * six settings with the file's record at once; there is no per-field merge.
 */
module ConfigResolver {
  import opened Wrappers

  /** The `ConfigFile` record; the same six fields are held by the flags. */
  datatype ConfigFile = ConfigFile(
    server: string,
    username: string,
    password: string,
    insecure: bool,
    certificate: string,
    channel: string)

  /** The record `var configFile ConfigFile` starts as: every field zero. */
  const ZeroRecord := ConfigFile("", "", "", false, "", "")

  /** The flags given on the command line; None where a flag was not given. */
  datatype CommandLine = CommandLine(
    server: Option<string>,
    username: Option<string>,
    password: Option<string>,
    insecure: Option<bool>,
    certificate: Option<string>,
    channel: Option<string>,
    config: Option<string>)

  const NoFlags := CommandLine(None, None, None, None, None, None, None)

  function OrDefault<T>(given: Option<T>, default: T): T {
    match given
    case Some(v) => v
    case None => default
  }

  /** What the decoder makes of the bytes it is given. */
  datatype Decoding =
    | Unparsable               // not syntactically valid JSON: nothing is stored
    | Decoded(record: ConfigFile)  // the record as decoded; keys absent from the file stay zero

  /** What happens to the named file. */
  datatype FileLoad =
    | OpenFailed                          // the open error is printed; no bytes are read
    | Read(readOk: bool, decoding: Decoding)  // readOk: whether ReadAll reported no error; main discards that error

  /**
   * The record that overrides the flags. An open failure leaves no bytes to
   * decode, and decoding no bytes fails, so it gives the zero record, as
   * unparsable contents do.
   */
  function FileRecord(load: FileLoad): ConfigFile {
    match load
    case OpenFailed => ZeroRecord
    case Read(_, Unparsable) => ZeroRecord
    case Read(_, Decoded(record)) => record
  }

  /** The flag values after `flag.Parse`: the given value or the built-in default. */
  function FlagValues(cl: CommandLine): ConfigFile {
    ConfigFile(
      OrDefault(cl.server, ""),
      OrDefault(cl.username, ""),
      OrDefault(cl.password, ""),
      OrDefault(cl.insecure, true),
      OrDefault(cl.certificate, ""),
      OrDefault(cl.channel, ""))
  }

  /** The configuration path after `flag.Parse`; empty by default. */
  function ConfigPath(cl: CommandLine): string {
    OrDefault(cl.config, "")
  }

  /**
   * The precedence rule of lines 47-67. There is no per-field merge: the
   * result is one of the two whole records.
   */
  function Resolve(flags: ConfigFile, configPath: string, load: FileLoad): (r: ConfigFile)
    ensures r == flags || r == FileRecord(load)
  {
    if configPath != "" then FileRecord(load) else flags
  }

  /** With no flags, every string is empty and `insecure` is true. */
  lemma NoFlagsDefaults()
    ensures FlagValues(NoFlags) == ConfigFile("", "", "", true, "", "")
    ensures ConfigPath(NoFlags) == ""
  {
  }

  /** A flag that is given keeps its value; one that is not takes its default. */
  lemma GivenFlagsKept(cl: CommandLine)
    ensures cl.server.Some? ==> FlagValues(cl).server == cl.server.value
    ensures cl.server.None? ==> FlagValues(cl).server == ""
    ensures cl.username.Some? ==> FlagValues(cl).username == cl.username.value
    ensures cl.username.None? ==> FlagValues(cl).username == ""
    ensures cl.password.Some? ==> FlagValues(cl).password == cl.password.value
    ensures cl.password.None? ==> FlagValues(cl).password == ""
    ensures cl.insecure.Some? ==> FlagValues(cl).insecure == cl.insecure.value
    ensures cl.insecure.None? ==> FlagValues(cl).insecure
    ensures cl.certificate.Some? ==> FlagValues(cl).certificate == cl.certificate.value
    ensures cl.certificate.None? ==> FlagValues(cl).certificate == ""
    ensures cl.channel.Some? ==> FlagValues(cl).channel == cl.channel.value
    ensures cl.channel.None? ==> FlagValues(cl).channel == ""
    ensures cl.config.Some? ==> ConfigPath(cl) == cl.config.value
    ensures cl.config.None? ==> ConfigPath(cl) == ""
  {
  }

  /** With an empty path the flags stand, whatever the file would have held. */
  lemma EmptyPathKeepsFlags(flags: ConfigFile, load: FileLoad)
    ensures Resolve(flags, "", load) == flags
  {
  }

  /**
   * With a non-empty path the file's record wins wholesale: the result is the
   * same for any two sets of flags, and each field is the record's.
   */
  lemma FileOverridesAllFlags(flags: ConfigFile, other: ConfigFile, configPath: string, load: FileLoad)
    requires configPath != ""
    ensures Resolve(flags, configPath, load) == Resolve(other, configPath, load)
    ensures load.Read? && load.decoding.Decoded? ==> Resolve(flags, configPath, load) == load.decoding.record
  {
  }

  /**
   * A file that cannot be opened, or whose contents do not parse, still
   * overrides: every string becomes empty and `insecure` becomes false.
   */
  lemma FailedLoadResetsEverything(flags: ConfigFile, configPath: string, load: FileLoad)
    requires configPath != ""
    requires load.OpenFailed? || load.decoding.Unparsable?
    ensures var r := Resolve(flags, configPath, load);
      && r.server == "" && r.username == "" && r.password == ""
      && !r.insecure && r.certificate == "" && r.channel == ""
  {
  }

  /**
   * The flag variables `flag.String`/`flag.Bool` return: main overwrites
   * what they point to when a configuration file is named.
   */
  class Flags {
    var server: string
    var username: string
    var password: string
    var insecure: bool
    var certificate: string
    var channel: string
    var config: string

    /** The six connection settings the variables currently hold. */
    function Values(): ConfigFile
      reads this
    {
      ConfigFile(server, username, password, insecure, certificate, channel)
    }

    /** Lines 31-39: declare the flags and parse the command line. */
    constructor Parse(cl: CommandLine)
      ensures Values() == FlagValues(cl)
      ensures config == ConfigPath(cl)
    {
      server := OrDefault(cl.server, "");
      username := OrDefault(cl.username, "");
      password := OrDefault(cl.password, "");
      insecure := OrDefault(cl.insecure, true);
      certificate := OrDefault(cl.certificate, "");
      channel := OrDefault(cl.channel, "");
      config := OrDefault(cl.config, "");
    }

    /** Lines 47-67: when a path is named, all six variables take the file's record. */
    method ApplyConfigFile(load: FileLoad)
      modifies this
      ensures Values() == Resolve(old(Values()), config, load)
      ensures config == old(config)
    {
      if config != "" {
        var record := FileRecord(load);
        server := record.server;
        username := record.username;
        password := record.password;
        insecure := record.insecure;
        certificate := record.certificate;
        channel := record.channel;
      }
    }
  }
}
