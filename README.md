# Leveled logger of serverless-azure-functions

This project models `LoggingService` from `src/services/loggingService.ts`. That
is the plugin's leveled logger. It has two parts:

- **Level resolution.** The constructor reads the raw `verbose` option and turns
  it into one of four `LogLevel`s, `ERROR (1) < WARN (2) < INFO (3) < DEBUG (4)`:
  - bare `true` gives `DEBUG`;
  - a string is lower-cased and looked up in a five-entry table (`error`,
    `warn`, `info`, `debug`, and `""` for `DEBUG`);
  - an unrecognised string gives the default `INFO`;
  - so does anything else (absent, `false`, other kinds of value).
- **Gated output.** `log(message, level = INFO)` forwards `message`, verbatim, to
  the host's log sink when `level` ranks at or below the threshold. `error`,
  `warn` and `debug` add the prefixes `"[ERROR] "`, `"[WARN] "` and `"[DEBUG] "`;
  `info` adds none.

Everything is in `logging_service.dfy`, module `Logging`:

- `LogLevel` is a datatype and `Rank` gives the enum's numbers.
- `Verbosity` (`Absent | Flag(bool) | Named(string) | Other`) is the raw option.
- `ResolveLevel` is the constructor's resolution, as a pure function.
- Class `LoggingService` holds the threshold `logLevel` and a `sink: seq<string>`. The sink is the sequence of strings handed to the host's `cli.log`. The logging methods append to `sink` and leave `logLevel` alone.

In the source, the case-insensitive lookup is `toLowerCase` followed by a table lookup. `ResolvedFromName` restates this without mentioning lower-casing: a string selects a level exactly when it spells that level's name in any case. The one exception is the empty string, which gives `DEBUG`. Every other string gives `INFO`.

## Model

| member | source | states |
|---|---|---|
| `Logging.Rank` | src/services/loggingService.ts:8-17 | every level carries a rank between 1 and 4 |
| `Logging.EnabledOrder` | src/services/loggingService.ts:5-17 | ERROR is shown under every threshold; every level is shown under DEBUG; DEBUG is shown only under DEBUG; raising the threshold never hides a message; distinct levels have distinct ranks |
| `Logging.LowerChar` | src/services/loggingService.ts:39 | lower-casing one character leaves no ASCII capital; it changes only ASCII capitals, each by the fixed distance from `A` to `a` |
| `Logging.ToLower` | src/services/loggingService.ts:39 | lower-casing keeps the length and lower-cases each character in its place |
| `Logging.ToLowerIdempotent` | src/services/loggingService.ts:39 | lower-casing an already lower-cased string changes nothing |
| `Logging.NameIsLower` | src/services/loggingService.ts:34-37 | the table's level names are already lower case |
| `Logging.LowersToName` | src/services/loggingService.ts:31-39 | a string lower-cases to a level's name iff it spells that name ignoring case |
| `Logging.TableKeys` | src/services/loggingService.ts:33-38 | the table's keys are exactly the empty string and the four names, each name mapping to its own level |
| `Logging.ResolveLevel` | src/services/loggingService.ts:24-44 | `true` gives DEBUG; `""` gives DEBUG; absent, `false` and every non-string value give the default INFO |
| `Logging.ResolvedFromName` | src/services/loggingService.ts:26-39 | a string option resolves to level l iff it spells l's name in any case, or it is `""` and l is DEBUG, or it is non-empty, spells no name and l is INFO (both directions) |
| `Logging.NameRoundTrip` | src/services/loggingService.ts:31-39 | any case variant of a level's name resolves back to that level |
| `Logging.UnknownNameIsDefault` | src/services/loggingService.ts:26-39 | a non-empty string that spells no level name resolves to INFO, not DEBUG |
| `Logging.DebugCaseVariants` | src/services/loggingService.ts:31-39 | `"DEBUG"`, `"Debug"` and `"debug"` all resolve to DEBUG |
| `Logging.VerboseWordIsDefault` | src/services/loggingService.ts:26-39 | the unrecognised word `"verbose"` resolves to INFO |
| `Logging.LoggingService.constructor` | src/services/loggingService.ts:24-44 | the threshold is the resolved level of the option and nothing has been logged yet |
| `Logging.LoggingService.Log` | src/services/loggingService.ts:52-56 | the message is appended exactly once and unchanged iff its level's rank is at most the threshold's; otherwise the sink is unchanged; the threshold never changes |
| `Logging.LoggingService.Error` | src/services/loggingService.ts:62-64 | `"[ERROR] " + message` is appended under every threshold |
| `Logging.LoggingService.Warn` | src/services/loggingService.ts:70-72 | `"[WARN] " + message` is appended iff the threshold is WARN, INFO or DEBUG; under ERROR nothing changes |
| `Logging.LoggingService.Info` | src/services/loggingService.ts:78-80 | the message is appended without a prefix iff the threshold is INFO or DEBUG; otherwise nothing changes |
| `Logging.LoggingService.Debug` | src/services/loggingService.ts:86-88 | `"[DEBUG] " + message` is appended iff the threshold is DEBUG; otherwise nothing changes |
| `Logging.LogDefaultIsInfo` | src/services/loggingService.ts:52-56 | `log` without a level gives the same output as `log` at INFO: the message when the threshold is INFO or DEBUG, nothing otherwise |
| `Logging.WarnScenario` | src/services/loggingService.ts:31-88 | with option `"warn"`, logging `a` at ERROR, `b` at WARN, `c` at INFO and `debug("d")` forwards exactly `a` then `b` |

## Left out

- The host `Serverless` object and its `cli.log` console. The model has a `sink` sequence in their place and does not model rendering or output.
- The `options` object and its typing. The constructor receives the raw `verbose` value (a `Verbosity`) directly.
- `Utils.get` (src/shared/utils.ts) is not part of this model. The option read and the table lookup are both modelled as plain lookups with a default. If that helper also finds inherited object properties, for example a lowered option `"constructor"`, the model does not capture it.
- `LowerChar`/`ToLower`: only ASCII lower-casing is modelled, not full Unicode `toLowerCase`. Every table key is ASCII. No single non-ASCII character lower-cases to one of the letters those keys use. So ASCII lower-casing decides table membership the same way.
- `Log`: the level is one of the four `LogLevel` values. TypeScript would also accept any other number as a numeric enum value; that is not modelled.
