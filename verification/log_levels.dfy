/** Broker log severities (syslog scale), the logging framework's severities,
    and the mapping and filter both connection factories apply to the broker's
    log lines. */
module LogLevels {
  import opened Wrappers

  /** The integer values outside the named syslog members 0..7. */
  type UnlistedCode = c: int | c < 0 || 7 < c witness 8

  /** The broker client's syslog severities. `Unlisted` stands for any value of
      the enumeration that is none of the named members. */
  datatype SyslogLevel =
    | Emergency | Alert | Critical | Error | Warning | Notice | Info | Debug
    | Unlisted(code: UnlistedCode)

  /** The logging framework's severities. */
  datatype LogLevel = Trace | Debug | Information | Warning | Error | Critical

  /** Numeric value of a log level: Trace = 0 up to Critical = 5. */
  function Rank(l: LogLevel): (n: nat)
    ensures n <= 5
  {
    match l
    case Trace => 0
    case Debug => 1
    case Information => 2
    case Warning => 3
    case Error => 4
    case Critical => 5
  }

  /** Numeric value of a syslog level: Emergency = 0 (most severe) up to Debug = 7. */
  function SyslogCode(s: SyslogLevel): int
  {
    match s
    case Emergency => 0
    case Alert => 1
    case Critical => 2
    case Error => 3
    case Warning => 4
    case Notice => 5
    case Info => 6
    case Debug => 7
    case Unlisted(c) => c
  }

  /** The named syslog levels at Warning or above. */
  predicate AtLeastSyslogWarning(s: SyslogLevel)
  {
    s.Emergency? || s.Alert? || s.Critical? || s.Error? || s.Warning?
  }

  /** Syslog to log-level mapping; every unlisted value maps to Information. */
  function MapSyslogLevel(s: SyslogLevel): (l: LogLevel)
    ensures l != LogLevel.Trace
    ensures Rank(l) >= Rank(LogLevel.Warning) <==> AtLeastSyslogWarning(s)
    ensures s.Unlisted? ==> l == LogLevel.Information
  {
    match s
    case Emergency => LogLevel.Critical
    case Alert => LogLevel.Critical
    case Critical => LogLevel.Critical
    case Error => LogLevel.Error
    case Warning => LogLevel.Warning
    case Notice => LogLevel.Information
    case Info => LogLevel.Information
    case Debug => LogLevel.Debug
    case Unlisted(_) => LogLevel.Information
  }

  /** The mapping turns the syslog order (smaller code = more severe) into the
      log-level order (larger rank = more severe) for the named levels. */
  lemma MapReversesSeverityOrder(a: SyslogLevel, b: SyslogLevel)
    requires !a.Unlisted? && !b.Unlisted?
    requires SyslogCode(a) <= SyslogCode(b)
    ensures Rank(MapSyslogLevel(a)) >= Rank(MapSyslogLevel(b))
  {
  }

  /** The log handler as written: a broker line is re-emitted at its mapped
      level when that level is at most Warning. So exactly the Warning, Notice,
      Info, Debug and unlisted lines get through, and Emergency, Alert,
      Critical and Error lines are dropped. */
  function Relay(s: SyslogLevel): (r: Option<LogLevel>)
    ensures r.Some? ==> r.value == MapSyslogLevel(s)
    ensures r.Some? <==> (s.Warning? || s.Notice? || s.Info? || s.Debug? || s.Unlisted?)
  {
    var l := MapSyslogLevel(s);
    if Rank(l) <= Rank(LogLevel.Warning) then Some(l) else None
  }

  /** The filter that forwards Warning lines and everything more severe. */
  function RelayIntended(s: SyslogLevel): (r: Option<LogLevel>)
    ensures r.Some? ==> r.value == MapSyslogLevel(s)
    ensures r.Some? <==> AtLeastSyslogWarning(s)
  {
    var l := MapSyslogLevel(s);
    if Rank(l) >= Rank(LogLevel.Warning) then Some(l) else None
  }

  /** The two filters agree only on Warning lines: a Critical line is dropped as
      written and forwarded by the intended filter. */
  lemma RelayDisagreesWithIntended(s: SyslogLevel)
    ensures (Relay(s).Some? && RelayIntended(s).Some?) <==> s.Warning?
    ensures Relay(SyslogLevel.Critical) == None
    ensures RelayIntended(SyslogLevel.Critical) == Some(LogLevel.Critical)
  {
  }
}
