/** What the two indexer kinds share: the command a start spawns and the outcome of a stop. */
module IndexerTypes {
  import opened Wrappers
  import opened Domain
  import Decimal
  import Hex

  const DEFAULT_STARTING_BLOCK: int := 1

  // -------------------------------------------------------------------------
  // Spawned commands
  // -------------------------------------------------------------------------

  /** The environment variables and the temporary directory a start reads. */
  datatype Config = Config(
    binaryBasePath: string,
    authToken: string,
    redisUrl: string,
    postgresConnection: string,
    tmp: string)

  /** A spawned sink: its binary, its arguments and the STARTING_BLOCK variable. */
  datatype Command = Command(binary: string, args: seq<string>, startingBlock: string)

  function OrElse<T>(o: Option<T>, default: T): T {
    if o.Some? then o.value else default
  }

  /** Whether the field the kind's start unwraps is present. */
  predicate IsStartable(m: IndexerModel) {
    match m.indexerType
    case Postgres => m.tableName.Some?
    case Webhook => m.targetUrl.Some?
  }

  function CommonArguments(cfg: Config, m: IndexerModel): seq<string> {
    ["run", ScriptTmpPath(cfg.tmp, m.id),
     "--auth-token", cfg.authToken,
     "--persist-to-redis", cfg.redisUrl,
     "--sink-id", OrElse(m.indexerId, UuidText(m.id)),
     "--status-server-address", "0.0.0.0:" + Decimal.IntText(OrElse(m.statusServerPort, DEFAULT_STATUS_PORT)),
     "--allow-env-from-env", "STARTING_BLOCK"]
  }

  function ExtraArguments(cfg: Config, m: IndexerModel): seq<string>
    requires IsStartable(m)
  {
    match m.indexerType
    case Postgres =>
      ["--connection-string", OrElse(m.customConnectionString, cfg.postgresConnection),
       "--table-name", m.tableName.value]
    case Webhook =>
      ["--target-url", m.targetUrl.value]
  }

  function BinaryName(t: IndexerType): string {
    match t
    case Postgres => "sink-postgres"
    case Webhook => "sink-webhook"
  }

  function CommandFor(cfg: Config, m: IndexerModel): Command
    requires IsStartable(m)
  {
    Command(
      cfg.binaryBasePath + "/" + BinaryName(m.indexerType),
      CommonArguments(cfg, m) + ExtraArguments(cfg, m),
      Decimal.IntText(OrElse(m.startingBlock, DEFAULT_STARTING_BLOCK)))
  }

  /** The value a command line gives an option: its arguments are read two by two. */
  function ValueAfter(args: seq<string>, option: string): Option<string>
    decreases |args|
  {
    if |args| < 2 then None
    else if args[0] == option then Some(args[1])
    else ValueAfter(args[2..], option)
  }

  /** The sink of the row's kind, with the row's own script, id, port and destination, and its starting block. */
  predicate RunsRow(cfg: Config, m: IndexerModel, c: Command) {
    && (c.binary == cfg.binaryBasePath + "/sink-postgres" <==> m.indexerType == Postgres)
    && (c.binary == cfg.binaryBasePath + "/sink-webhook" <==> m.indexerType == Webhook)
    && |c.args| == (if m.indexerType == Postgres then 16 else 14)
    && ValueAfter(c.args, "run") == Some(cfg.tmp + ("/" + UuidText(m.id) + ".js"))
    && ValueAfter(c.args, "--auth-token") == Some(cfg.authToken)
    && ValueAfter(c.args, "--persist-to-redis") == Some(cfg.redisUrl)
    && ValueAfter(c.args, "--sink-id") == Some(if m.indexerId.Some? then m.indexerId.value else UuidText(m.id))
    && ValueAfter(c.args, "--status-server-address") ==
       Some("0.0.0.0:" + Decimal.IntText(if m.statusServerPort.Some? then m.statusServerPort.value else 1234))
    && ValueAfter(c.args, "--allow-env-from-env") == Some("STARTING_BLOCK")
    && ValueAfter(c.args, "--connection-string") ==
       (if m.indexerType == Webhook then None
        else if m.customConnectionString.Some? then m.customConnectionString
        else Some(cfg.postgresConnection))
    && ValueAfter(c.args, "--table-name") == (if m.indexerType == Postgres then m.tableName else None)
    && ValueAfter(c.args, "--target-url") == (if m.indexerType == Webhook then m.targetUrl else None)
    && c.startingBlock == Decimal.IntText(if m.startingBlock.Some? then m.startingBlock.value else 1)
  }

  lemma FirstPair(option: string, value: string, rest: seq<string>, wanted: string)
    ensures ValueAfter([option, value] + rest, wanted) ==
            if option == wanted then Some(value) else ValueAfter(rest, wanted)
  {
    assert ([option, value] + rest)[2..] == rest;
  }

  /** What a start of any kind passes, whatever follows. */
  function CommonValue(cfg: Config, m: IndexerModel, rest: seq<string>, wanted: string): Option<string> {
    if wanted == "run" then Some(cfg.tmp + ("/" + UuidText(m.id) + ".js"))
    else if wanted == "--auth-token" then Some(cfg.authToken)
    else if wanted == "--persist-to-redis" then Some(cfg.redisUrl)
    else if wanted == "--sink-id" then Some(if m.indexerId.Some? then m.indexerId.value else UuidText(m.id))
    else if wanted == "--status-server-address" then
      Some("0.0.0.0:" + Decimal.IntText(if m.statusServerPort.Some? then m.statusServerPort.value else 1234))
    else if wanted == "--allow-env-from-env" then Some("STARTING_BLOCK")
    else ValueAfter(rest, wanted)
  }

  lemma SixPairs(args: seq<string>, rest: seq<string>, wanted: string)
    requires |args| == 12
    ensures ValueAfter(args + rest, wanted) ==
            if args[0] == wanted then Some(args[1])
            else if args[2] == wanted then Some(args[3])
            else if args[4] == wanted then Some(args[5])
            else if args[6] == wanted then Some(args[7])
            else if args[8] == wanted then Some(args[9])
            else if args[10] == wanted then Some(args[11])
            else ValueAfter(rest, wanted)
  {
    var rest3 := [args[6], args[7]] + ([args[8], args[9]] + ([args[10], args[11]] + rest));
    var rest1 := [args[2], args[3]] + ([args[4], args[5]] + rest3);
    assert args + rest == [args[0], args[1]] + rest1;
    FirstPair(args[0], args[1], rest1, wanted);
    FirstPair(args[2], args[3], [args[4], args[5]] + rest3, wanted);
    FirstPair(args[4], args[5], rest3, wanted);
    FirstPair(args[6], args[7], [args[8], args[9]] + ([args[10], args[11]] + rest), wanted);
    FirstPair(args[8], args[9], [args[10], args[11]] + rest, wanted);
    FirstPair(args[10], args[11], rest, wanted);
  }

  lemma CommonValues(cfg: Config, m: IndexerModel, rest: seq<string>, wanted: string)
    ensures ValueAfter(CommonArguments(cfg, m) + rest, wanted) == CommonValue(cfg, m, rest, wanted)
  {
    KeyShapes(cfg.tmp, m.id);
    SixPairs(CommonArguments(cfg, m), rest, wanted);
  }

  /** What the command passes for an option. */
  lemma ValuesOf(cfg: Config, m: IndexerModel, wanted: string)
    requires IsStartable(m)
    ensures ValueAfter(CommandFor(cfg, m).args, wanted) == CommonValue(cfg, m, ExtraArguments(cfg, m), wanted)
  {
    CommonValues(cfg, m, ExtraArguments(cfg, m), wanted);
  }

  lemma OptionsDiffer()
    ensures "--auth-token" != "--table-name" && "--auth-token" != "--target-url" && "--table-name" != "--target-url"
  {
    assert "--auth-token"[2] == 'a' && "--table-name"[2] == 't' && "--target-url"[2] == 't';
    assert "--table-name"[4] == 'b' && "--target-url"[4] == 'r';
  }

  lemma LengthsDiffer()
    ensures |"run"| == 3 && |"--sink-id"| == 9 && |"--persist-to-redis"| == 18 && |"--connection-string"| == 19
    ensures |"--allow-env-from-env"| == 20 && |"--status-server-address"| == 23
    ensures |"--auth-token"| == 12 && |"--table-name"| == 12 && |"--target-url"| == 12
  {
  }

  lemma ExtraValues(cfg: Config, m: IndexerModel, wanted: string)
    requires IsStartable(m)
    ensures ValueAfter(ExtraArguments(cfg, m), wanted) ==
            match m.indexerType
            case Postgres =>
              if wanted == "--connection-string" then
                Some(if m.customConnectionString.Some? then m.customConnectionString.value else cfg.postgresConnection)
              else if wanted == "--table-name" then m.tableName
              else None
            case Webhook => if wanted == "--target-url" then m.targetUrl else None
  {
    var args := ExtraArguments(cfg, m);
    match m.indexerType {
      case Postgres =>
        FirstPair(args[2], args[3], [], wanted);
        assert args[2..] == [args[2], args[3]] + [];
        FirstPair(args[0], args[1], args[2..], wanted);
        assert args == [args[0], args[1]] + args[2..];
      case Webhook =>
        FirstPair(args[0], args[1], [], wanted);
        assert args == [args[0], args[1]] + [];
    }
  }

  lemma BinariesDiffer(base: string)
    ensures base + "/sink-postgres" != base + "/sink-webhook"
  {
    assert |base + "/sink-postgres"| != |base + "/sink-webhook"|;
  }

  lemma BinaryOfKind(cfg: Config, m: IndexerModel)
    requires IsStartable(m)
    ensures CommandFor(cfg, m).binary == cfg.binaryBasePath + "/sink-postgres" <==> m.indexerType == Postgres
    ensures CommandFor(cfg, m).binary == cfg.binaryBasePath + "/sink-webhook" <==> m.indexerType == Webhook
  {
    var base := cfg.binaryBasePath;
    BinariesDiffer(base);
    assert base + "/" + "sink-postgres" == base + "/sink-postgres";
    assert base + "/" + "sink-webhook" == base + "/sink-webhook";
  }

  lemma CommonOptions(cfg: Config, m: IndexerModel)
    requires IsStartable(m)
    ensures var args := CommandFor(cfg, m).args;
            && ValueAfter(args, "run") == Some(cfg.tmp + ("/" + UuidText(m.id) + ".js"))
            && ValueAfter(args, "--auth-token") == Some(cfg.authToken)
            && ValueAfter(args, "--persist-to-redis") == Some(cfg.redisUrl)
            && ValueAfter(args, "--sink-id") == Some(if m.indexerId.Some? then m.indexerId.value else UuidText(m.id))
            && ValueAfter(args, "--status-server-address") ==
               Some("0.0.0.0:" + Decimal.IntText(if m.statusServerPort.Some? then m.statusServerPort.value else 1234))
            && ValueAfter(args, "--allow-env-from-env") == Some("STARTING_BLOCK")
  {
    LengthsDiffer();
    ValuesOf(cfg, m, "run");
    ValuesOf(cfg, m, "--auth-token");
    ValuesOf(cfg, m, "--persist-to-redis");
    ValuesOf(cfg, m, "--sink-id");
    ValuesOf(cfg, m, "--status-server-address");
    ValuesOf(cfg, m, "--allow-env-from-env");
  }

  lemma KindOptions(cfg: Config, m: IndexerModel)
    requires IsStartable(m)
    ensures var args, extra := CommandFor(cfg, m).args, ExtraArguments(cfg, m);
            && ValueAfter(args, "--connection-string") == ValueAfter(extra, "--connection-string")
            && ValueAfter(args, "--table-name") == ValueAfter(extra, "--table-name")
            && ValueAfter(args, "--target-url") == ValueAfter(extra, "--target-url")
  {
    LengthsDiffer();
    OptionsDiffer();
    ValuesOf(cfg, m, "--connection-string");
    ValuesOf(cfg, m, "--table-name");
    ValuesOf(cfg, m, "--target-url");
  }

  /** The command a start spawns. */
  lemma CommandRunsRow(cfg: Config, m: IndexerModel)
    requires IsStartable(m)
    ensures RunsRow(cfg, m, CommandFor(cfg, m))
  {
    BinaryOfKind(cfg, m);
    CommonOptions(cfg, m);
    KindOptions(cfg, m);
    LengthsDiffer();
    OptionsDiffer();
    ExtraValues(cfg, m, "--connection-string");
    ExtraValues(cfg, m, "--table-name");
    ExtraValues(cfg, m, "--target-url");
  }

  /** The command does not depend on what status updates change. */
  lemma CommandIgnoresUpdates(cfg: Config, a: IndexerModel, b: IndexerModel)
    requires SameIdentity(a, b)
    ensures IsStartable(a) == IsStartable(b)
    ensures IsStartable(a) ==> CommandFor(cfg, a) == CommandFor(cfg, b)
  {
  }

  /** Sinks of different ids never run the same script file. */
  lemma CommandsRunOwnScripts(cfg: Config, a: IndexerModel, b: IndexerModel)
    requires IsStartable(a) && IsStartable(b)
    ensures CommandFor(cfg, a).args[1] == CommandFor(cfg, b).args[1] <==> a.id == b.id
  {
    KeysInjective(cfg.tmp, a.id, b.id);
  }

  // -------------------------------------------------------------------------
  // Stop outcomes
  // -------------------------------------------------------------------------

  const NOT_RUNNING := "Cannot stop indexer that's not running"
  const STOP_WITHOUT_PID := "Cannot stop indexer without process id"
  const CHECK_WITHOUT_PID := "Cannot check running status" + " for indexer without process id"
  const STILL_RUNNING := "Cannot set indexer to stopped if it's still running"

  function NotRunningMessage(id: Uuid): string {
    NOT_RUNNING + ", indexer id " + UuidText(id)
  }

  function CannotMoveMessage(from: IndexerStatus, to: IndexerStatus, id: Uuid): string {
    "Cannot move from " + StatusText(from) + " to " + StatusText(to) + " for indexer " + UuidText(id)
  }

  predicate ContainsAt(s: string, needle: string, i: nat) {
    i + |needle| <= |s| && s[i..i + |needle|] == needle
  }

  predicate Contains(s: string, needle: string) {
    exists i: nat | i <= |s| :: ContainsAt(s, needle, i)
  }

  lemma ContainsIsSubstring(s: string, needle: string)
    ensures Contains(s, needle) <==> exists front, back :: s == front + needle + back
  {
    if i: nat :| i <= |s| && ContainsAt(s, needle, i) {
      assert s == s[..i] + needle + s[i + |needle|..];
    }
    if front, back :| s == front + needle + back {
      assert ContainsAt(s, needle, |front|);
    }
  }

  /** The status the stop handler records for what the stop attempt returned. */
  function StatusAfterStop(outcome: Result<(), IndexerError>): IndexerStatus {
    match outcome
    case Success(_) => Stopped
    case Failure(InternalServerError(message)) => if Contains(message, NOT_RUNNING) then Stopped else FailedStopping
    case Failure(_) => FailedStopping
  }

  /** Every text the service puts into an InternalServerError. */
  predicate IsInternalMessage(m: string, id: Uuid) {
    || m in {NotRunningMessage(id), STOP_WITHOUT_PID, CHECK_WITHOUT_PID, STILL_RUNNING}
    || m in {"Failed to get field name", "Invalid starting block"}
    || exists from, to :: m == CannotMoveMessage(from, to, id)
  }

  /** The substring test accepts exactly the "not running" text, whatever the id. */
  lemma SubstringTestIsExact(m: string, id: Uuid)
    requires IsInternalMessage(m, id)
    ensures Contains(m, NOT_RUNNING) <==> m == NotRunningMessage(id)
  {
    if m == NotRunningMessage(id) {
      assert ContainsAt(m, NOT_RUNNING, 0);
    } else {
      if from, to :| m == CannotMoveMessage(from, to, id) {
        PlainMove(from, to, id);
      } else {
        PlainLiterals();
        PlainCheckText();
      }
      OtherTextsDiffer(m);
    }
  }

  predicate IsPlain(s: string) {
    '\'' !in s
  }

  lemma PlainLiterals()
    ensures IsPlain(STOP_WITHOUT_PID) && IsPlain("Failed to get field name") && IsPlain("Invalid starting block")
  {
  }

  lemma PlainCheckText()
    ensures IsPlain(CHECK_WITHOUT_PID)
  {
    PlainConcat("Cannot check running status", " for indexer without process id");
  }

  lemma PlainMove(from: IndexerStatus, to: IndexerStatus, id: Uuid)
    ensures IsPlain(CannotMoveMessage(from, to, id))
  {
    PlainUuid(id);
    PlainSentence(StatusText(from), StatusText(to), UuidText(id));
  }

  lemma PlainSentence(from: string, to: string, id: string)
    requires IsPlain(from) && IsPlain(to) && IsPlain(id)
    ensures IsPlain("Cannot move from " + from + " to " + to + " for indexer " + id)
  {
  }

  lemma PlainConcat(s: string, t: string)
    requires IsPlain(s) && IsPlain(t)
    ensures IsPlain(s + t)
  {
  }

  lemma PlainUuid(id: Uuid)
    ensures IsPlain(UuidText(id))
  {
    var d := Hex.Fixed(id, 32);
    assert forall i | 0 <= i < |d| :: Hex.IsDigit(d[i]);
    assert IsPlain(d);
  }

  /** The needle starts with `C` and has an apostrophe 24 characters later. */
  lemma NeedleLandmarks(m: string, i: nat)
    requires ContainsAt(m, NOT_RUNNING, i)
    ensures m[i] == 'C' && m[i + 24] == '\''
  {
    var found := m[i..i + |NOT_RUNNING|];
    assert m[i] == found[0] && m[i + 24] == found[24];
    assert NOT_RUNNING[24] == '\'';
  }

  lemma StillRunningLandmarks(i: nat)
    requires i + 24 < |STILL_RUNNING| && STILL_RUNNING[i + 24] == '\''
    ensures STILL_RUNNING[i] == 'i'
  {
    assert STILL_RUNNING[35] == '\'' && STILL_RUNNING[11] == 'i';
  }

  lemma OtherTextsDiffer(m: string)
    requires IsPlain(m) || m == STILL_RUNNING
    ensures !Contains(m, NOT_RUNNING)
  {
    if i: nat :| i <= |m| && ContainsAt(m, NOT_RUNNING, i) {
      NeedleLandmarks(m, i);
      if m == STILL_RUNNING {
        StillRunningLandmarks(i);
      }
    }
  }
}
