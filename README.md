# Syslog listener configuration (loki.source.syslog)

This project models the configuration record of a `loki.source.syslog`
listener and proves properties about it. It covers four things:

- **Defaulting.** `SetToDefault` overwrites the whole record with
  `DefaultListenerConfig`. The defaults are the syslog target's transport,
  idle timeout and maximum message length, plus the RFC 5424 dialect. Every
  other field is zero.
- **Validation.** `Validate` checks `protocol` against `tcp`/`udp` first and
  `syslog_format` against `rfc3164`/`rfc5424` second. It returns the first
  error, which carries the offending value.
- **Conversion.** `Convert` copies every scalar field, rebuilds the label map
  pair by pair and converts the TLS block. It also maps the format name to the
  runtime's dialect enumeration. An unknown format name aborts the source
  program. Here it is a precondition, and a lemma shows that any configuration
  that passed `Validate` meets it.
- **The format registry.** The two format names and the runtime's two
  dialects correspond one to one.

Everything is in `syslog_types.dfy`, module `SyslogConfig`:

- `ListenerConfig` is the value of a record. `Convert` takes one, as the
  source's value receiver does.
- `ListenerBlock` is a class holding one such record as mutable state. It
  models the record that `SetToDefault` overwrites as a whole through its
  pointer receiver (types.go:45).
- `SyslogTargetConfig` is the runtime's target configuration.
- `SyslogFormat` is the runtime's dialect enumeration.

The syslog target's three defaults are constants whose values the model leaves
open. So is the zero TLS block. No proof depends on their values.

- The default transport comes from the syslog target package (types.go:37) and
  is left abstract. `DefaultsPassFormatCheck` states when the defaults pass
  validation as a whole.
- `Convert` aborts only on an unknown format (types.go:77) and never inspects
  the transport, so it requires only a known format. `ValidatedIsConvertible`
  shows that every validated configuration meets that requirement.

## Model

| member | source | states |
|---|---|---|
| `SyslogConfig.FormatName` | internal/component/loki/source/syslog/types.go:14-19 | every runtime dialect has a configuration name among the two known formats, and RFC 5424 is exactly the dialect named "rfc5424" |
| `SyslogConfig.SelectFormat` | internal/component/loki/source/syslog/types.go:71-78 | on a known format name, the chosen dialect is the one whose name is that string ("rfc3164" gives RFC3164 and "rfc5424" gives RFC5424); any other name is excluded, as the source aborts on it |
| `SyslogConfig.SelectFormatName` | internal/component/loki/source/syslog/types.go:71-78 | the inverse direction: selecting by a dialect's own name gives that dialect back |
| `SyslogConfig.FormatRegistryComplete` | internal/component/loki/source/syslog/types.go:14-19 | a string is an accepted format name if and only if some runtime dialect has that name |
| `SyslogConfig.ListenerBlock.SetToDefault` | internal/component/loki/source/syslog/types.go:36-46 | afterwards the record equals `DefaultListenerConfig`, whatever it held before, which makes the method idempotent: the format is "rfc5424"; the transport, idle timeout and maximum length are the target's defaults; the address is empty, the flags are false, the labels are empty and the TLS block is zero |
| `SyslogConfig.Validate` | internal/component/loki/source/syslog/types.go:49-62 | passes if and only if the transport is tcp or udp and the format is rfc3164 or rfc5424; a bad transport yields InvalidProtocol with that transport, whatever the format; with a good transport, a bad format yields InvalidSyslogFormat with that format |
| `SyslogConfig.ValidateIgnoresOtherFields` | internal/component/loki/source/syslog/types.go:49-62 | two configurations with the same transport and format get the same outcome, whatever their other fields |
| `SyslogConfig.DefaultsPassFormatCheck` | internal/component/loki/source/syslog/types.go:36-62 | the defaults never fail with InvalidSyslogFormat; they pass exactly when the default transport is tcp or udp, and otherwise fail with InvalidProtocol carrying it |
| `SyslogConfig.ValidatedIsConvertible` | internal/component/loki/source/syslog/types.go:54-78 | a configuration that passed validation has a format name that some dialect carries, so the abort in the conversion cannot happen |
| `SyslogConfig.Convert` | internal/component/loki/source/syslog/types.go:65-92 | the address, transport, idle timeout, the three flags and the maximum length are copied unchanged; the label map has exactly the input's keys, each with the input's value; the TLS settings are the TLS block's conversion; the dialect's name is the configured format |

## Left out

- The TLS block's own conversion is a call into the common configuration package. It is an opaque type here, and `Convert` takes the conversion as a parameter.
- The concrete values of the syslog target's default transport, idle timeout and maximum message length. They are defined in the syslog target package, which is not part of this model, so the model keeps them as unconstrained constants.
- The configuration-language struct tags, and the parsing layer that applies the user's settings after defaulting. Both are reflection-driven plumbing outside this file.
- The text of the error messages. The model keeps the two error kinds and the value each carries.
- Duration and label-name/label-value types. Durations are integers of nanoseconds and labels are strings, all copied verbatim, so 64-bit widths play no part.
- The difference between a nil and an empty label map. The default record's nil map and the freshly made map in `Convert` are both the empty map.
- The pointer `Convert` returns. The target configuration is a fresh value, so the model returns it by value.
- Go strings are byte strings; the model uses sequences of characters. No behaviour is lost: `Validate` and `Convert` only compare strings with ASCII literals and copy them.
- Socket handling, syslog message parsing and label emission. They belong to the listener runtime, not to this file.
