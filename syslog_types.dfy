/** The configuration record of a loki.source.syslog listener: its defaults,
    the validation of its two enum-like string fields, and its conversion into
    the target configuration consumed by the Promtail syslog listener runtime. */
module SyslogConfig {

  /* ---------------------------------------------------------------------- */
  /* Values defined outside this component                                   */
  /* ---------------------------------------------------------------------- */

  /** The declarative TLS block of a listener (the common TLS configuration of
      the component library). Its contents are not interpreted here. */
  type TLSConfig(0, ==)

  /** The TLS block a freshly zero-valued record holds. */
  const ZeroTLSConfig: TLSConfig

  /** The concrete TLS settings the listener runtime consumes. They are produced
      by the TLS block's own conversion, which is passed to `Convert`. */
  type RuntimeTLSConfig(==)

  /** The syslog target's default transport, idle timeout (a duration) and
      maximum message length. Their values are defined by the listener runtime;
      nothing in this model depends on what they are. */
  const DefaultProtocol: string
  const DefaultIdleTimeout: int
  const DefaultMaxMessageLength: int

  /* ---------------------------------------------------------------------- */
  /* Format registry                                                         */
  /* ---------------------------------------------------------------------- */

  /** The modern syslog dialect (RFC 5424). */
  const SyslogFormatRFC5424: string := "rfc5424"
  /** The legacy syslog dialect (RFC 3164), also known as BSD syslog. */
  const SyslogFormatRFC3164: string := "rfc3164"

  /** Every format name a listener may be configured with. */
  const SyslogFormats: set<string> := {SyslogFormatRFC3164, SyslogFormatRFC5424}

  /** Every transport a listener may be configured with. */
  const ListenProtocols: set<string> := {"tcp", "udp"}

  /** The runtime's own enumeration of syslog dialects. */
  datatype SyslogFormat = RFC5424 | RFC3164

  /** The configuration name of each runtime dialect. */
  function FormatName(f: SyslogFormat): (s: string)
    ensures s in SyslogFormats
    ensures f == RFC5424 <==> s == SyslogFormatRFC5424
  {
    match f
    case RFC5424 => SyslogFormatRFC5424
    case RFC3164 => SyslogFormatRFC3164
  }

  /** The runtime dialect selected by a configured format name. Any other name
      makes the source abort; here it is excluded by the precondition. */
  function SelectFormat(s: string): (f: SyslogFormat)
    requires s in SyslogFormats
    ensures FormatName(f) == s
  {
    if s == SyslogFormatRFC3164 then RFC3164
    else if s == SyslogFormatRFC5424 then RFC5424
    else assert false; RFC5424
  }

  /** Selecting the dialect of a runtime format's name gives that format back. */
  lemma SelectFormatName(f: SyslogFormat)
    ensures SelectFormat(FormatName(f)) == f
  {
  }

  /** The known names are exactly the names of runtime dialects: the format
      selection has no name it cannot map and no dialect without a name. */
  lemma FormatRegistryComplete(s: string)
    ensures s in SyslogFormats <==> exists f: SyslogFormat :: FormatName(f) == s
  {
    if s in SyslogFormats {
      assert FormatName(SelectFormat(s)) == s;
    }
  }

  /* ---------------------------------------------------------------------- */
  /* The listener configuration                                              */
  /* ---------------------------------------------------------------------- */

  /** The value of a listener configuration record. Durations are in
      nanoseconds; a label map the source leaves nil is the empty map. */
  datatype ListenerConfig = ListenerConfig(
    listenAddress: string,
    listenProtocol: string,
    idleTimeout: int,
    labelStructuredData: bool,
    labels: map<string, string>,
    useIncomingTimestamp: bool,
    useRFC5424Message: bool,
    maxMessageLength: int,
    tlsConfig: TLSConfig,
    syslogFormat: string)

  /** The default arguments of a syslog listener: the runtime's transport,
      idle timeout and maximum length, the RFC 5424 dialect, and the zero
      value in every other field. */
  const DefaultListenerConfig: ListenerConfig := ListenerConfig(
    listenAddress := "",
    listenProtocol := DefaultProtocol,
    idleTimeout := DefaultIdleTimeout,
    labelStructuredData := false,
    labels := map[],
    useIncomingTimestamp := false,
    useRFC5424Message := false,
    maxMessageLength := DefaultMaxMessageLength,
    tlsConfig := ZeroTLSConfig,
    syslogFormat := SyslogFormatRFC5424)

  /** A listener record as the configuration loader holds it: the record is
      updated in place, first by defaulting, then by the user's settings. */
  class ListenerBlock {
    var config: ListenerConfig

    /** Overwrites the whole record with the defaults. The new state does not
        depend on the old one, so applying it twice is the same as once. */
    method SetToDefault()
      modifies this
      ensures config == DefaultListenerConfig
      ensures config.syslogFormat == SyslogFormatRFC5424
      ensures config.listenProtocol == DefaultProtocol && config.idleTimeout == DefaultIdleTimeout
      ensures config.maxMessageLength == DefaultMaxMessageLength
      ensures config.listenAddress == "" && config.labels == map[] && config.tlsConfig == ZeroTLSConfig
      ensures !config.labelStructuredData && !config.useIncomingTimestamp && !config.useRFC5424Message
    {
      config := DefaultListenerConfig;
    }
  }

  /* ---------------------------------------------------------------------- */
  /* Validation                                                              */
  /* ---------------------------------------------------------------------- */

  /** Why a configuration was refused; each error carries the offending value. */
  datatype ValidationError =
    | InvalidProtocol(protocol: string)
    | InvalidSyslogFormat(format: string)

  /** The outcome of validation: no error, or the first error found. */
  datatype Outcome = Pass | Fail(error: ValidationError)

  /** Checks the transport first and the syslog format second, and reports
      the first failure only. No other field is inspected. */
  function Validate(sc: ListenerConfig): (r: Outcome)
    ensures r.Pass? <==> sc.listenProtocol in ListenProtocols && sc.syslogFormat in SyslogFormats
    ensures sc.listenProtocol !in ListenProtocols ==> r == Fail(InvalidProtocol(sc.listenProtocol))
    ensures sc.listenProtocol in ListenProtocols && sc.syslogFormat !in SyslogFormats ==>
              r == Fail(InvalidSyslogFormat(sc.syslogFormat))
  {
    if sc.listenProtocol != "tcp" && sc.listenProtocol != "udp" then
      Fail(InvalidProtocol(sc.listenProtocol))
    else if sc.syslogFormat != SyslogFormatRFC3164 && sc.syslogFormat != SyslogFormatRFC5424 then
      Fail(InvalidSyslogFormat(sc.syslogFormat))
    else
      Pass
  }

  /** Only the transport and the format decide the outcome of validation. */
  lemma ValidateIgnoresOtherFields(a: ListenerConfig, b: ListenerConfig)
    requires a.listenProtocol == b.listenProtocol && a.syslogFormat == b.syslogFormat
    ensures Validate(a) == Validate(b)
  {
  }

  /** The defaults never fail the format check; they pass validation exactly
      when the runtime's default transport is a supported one. */
  lemma DefaultsPassFormatCheck()
    ensures !(Validate(DefaultListenerConfig).Fail? && Validate(DefaultListenerConfig).error.InvalidSyslogFormat?)
    ensures Validate(DefaultListenerConfig).Pass? <==> DefaultProtocol in ListenProtocols
    ensures DefaultProtocol !in ListenProtocols ==>
              Validate(DefaultListenerConfig) == Fail(InvalidProtocol(DefaultProtocol))
  {
  }

  /** A configuration that passed validation never reaches the abort in
      `Convert`: its format names a runtime dialect. */
  lemma ValidatedIsConvertible(sc: ListenerConfig)
    requires Validate(sc).Pass?
    ensures sc.syslogFormat in SyslogFormats
    ensures exists f: SyslogFormat :: FormatName(f) == sc.syslogFormat
  {
    FormatRegistryComplete(sc.syslogFormat);
  }

  /* ---------------------------------------------------------------------- */
  /* Conversion to the runtime's target configuration                        */
  /* ---------------------------------------------------------------------- */

  /** The syslog target configuration the listener runtime consumes. */
  datatype SyslogTargetConfig = SyslogTargetConfig(
    listenAddress: string,
    listenProtocol: string,
    idleTimeout: int,
    labelStructuredData: bool,
    labels: map<string, string>,
    useIncomingTimestamp: bool,
    useRFC5424Message: bool,
    maxMessageLength: int,
    tlsConfig: RuntimeTLSConfig,
    syslogFormat: SyslogFormat)

  /** Bridges a listener configuration to the runtime's target configuration.
      The label set is rebuilt pair by pair, in whatever order the map yields
      its keys; the TLS block is converted by `convertTLS`. */
  method Convert(sc: ListenerConfig, convertTLS: TLSConfig -> RuntimeTLSConfig)
    returns (r: SyslogTargetConfig)
    requires sc.syslogFormat in SyslogFormats
    ensures r.listenAddress == sc.listenAddress && r.listenProtocol == sc.listenProtocol
    ensures r.idleTimeout == sc.idleTimeout && r.maxMessageLength == sc.maxMessageLength
    ensures r.labelStructuredData == sc.labelStructuredData
    ensures r.useIncomingTimestamp == sc.useIncomingTimestamp
    ensures r.useRFC5424Message == sc.useRFC5424Message
    ensures r.labels.Keys == sc.labels.Keys
    ensures forall k :: k in r.labels ==> r.labels[k] == sc.labels[k]
    ensures r.tlsConfig == convertTLS(sc.tlsConfig)
    ensures FormatName(r.syslogFormat) == sc.syslogFormat
    ensures sc.syslogFormat == SyslogFormatRFC3164 ==> r.syslogFormat == RFC3164
    ensures sc.syslogFormat == SyslogFormatRFC5424 ==> r.syslogFormat == RFC5424
  {
    var lbls: map<string, string> := map[];
    var pending := sc.labels.Keys;
    while pending != {}
      invariant pending <= sc.labels.Keys
      invariant lbls.Keys == sc.labels.Keys - pending
      invariant forall k :: k in lbls ==> lbls[k] == sc.labels[k]
      decreases pending
    {
      var k :| k in pending;
      lbls := lbls[k := sc.labels[k]];
      pending := pending - {k};
    }

    var syslogFormat := SelectFormat(sc.syslogFormat);

    r := SyslogTargetConfig(
      listenAddress := sc.listenAddress,
      listenProtocol := sc.listenProtocol,
      idleTimeout := sc.idleTimeout,
      labelStructuredData := sc.labelStructuredData,
      labels := lbls,
      useIncomingTimestamp := sc.useIncomingTimestamp,
      useRFC5424Message := sc.useRFC5424Message,
      maxMessageLength := sc.maxMessageLength,
      tlsConfig := convertTLS(sc.tlsConfig),
      syslogFormat := syslogFormat);
  }
}
