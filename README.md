# guerrero, modelled in Dafny

guerrero collects technical metadata about media files kept on FTP servers, on Samba shares or on
the local disk. It lists a directory tree, filters the files by include/exclude globs, runs
`mediainfo` on the first bytes of each file and normalises the resulting property bags: text such
as `1 234 Kbps`, `1h 30mn` or `1.5 KiB` becomes numbers. The results go to a writer, for example a
JSON file.

This project models the sequential logic of that pipeline and proves properties of it:

- **Normalisers, both revisions.** This covers the value parsers and the key-to-parser dispatch
  table, plus the in-place pass over the info bag and the tracks.
  - The current revision (`Normalizer`, `NormalizerFacts`, `NormalizerBags`, `Patterns`, `Media`)
    returns `null` for a bad value, or throws when `bail` is set.
  - The older revision (`LegacyNormalizer`) only logs a failed check and computes anyway.
  - `LegacyFacts` relates the two revisions: where they agree, and where they diverge.
- **The collection pipeline (`Collector`).** This covers the constructor defaults, the matcher lists
  and the first-match and accepted semantics of the include/exclude filter. It also covers the
  `FileInfo` records and the events `execute` emits.
- **The directory reader (`DirectoryReader`).** This is a class with the reader's fields. Its
  traversal is a `while` loop over the FIFO queue, proved against a step function. Its termination,
  task count, progress reports and collected files are stated as lemmas, including the
  repository's fixture tree.
- **Transports.** Two modules model the Samba side:
  - `SmbParser` gives the `smbclient` `ls`/`du` output parsers, with the four line patterns written
    out as predicates.
  - `SmbClient` gives the `smbget`/`smbclient` arguments and the exit-code mapping.

  On the FTP side, `CurlFtp` models the curl command, and `FtpCollector` and `SmbCollector` model
  entry classification and display names.
- **Command-line builder and writer.** `Cli` models the command-line builder. `JsonWriter` models
  the delayed-separator JSON file writer.

Decimal numbers are exact `real`s. A JavaScript `null` is the `Null` value and `NaN` is `NaN`. An
exception is `Outcome.Throw(message)`.

The current `_parseDuration` and the older `parseTime` read `matches[2]` even when a token failed
to match. JavaScript then raises a TypeError. The model does the same, bail or no bail: the result
is `Throw(NullMatchError)`.

External libraries are parameters that the model does not interpret:

- Minimatch's `match` is `glob`.
- `shell-quote`'s `quote` is `quote`.
- `JSON.stringify` is `stringify`.
- The `process`, `list` and `loadMediaInfo` callbacks are maps or functions from their input to
  what the callback receives.

The test for `SmbClient` expects a `_buildGetCommand` method, which is not in the source. The model
follows the source.

## Model

| member | source | states |
|---|---|---|
| Normalizer.Warn | src/util/MediaInfoNormalizer.js:42-49 | with `bail` the warning throws its message; without it the result is `null` |
| Normalizer.ParseBool | src/util/MediaInfoNormalizer.js:60-70 | `Yes` is true, `No` is false, anything else is the warning `unparsable bool value` |
| NormalizerFacts.ParseBoolYesNo | src/util/MediaInfoNormalizer.js:60-70 | parsing inverts printing a boolean; a flag result comes only from `Yes`/`No`; it throws iff `bail` and the text is neither |
| Normalizer.FileSizeFactorPowers | src/util/MediaInfoNormalizer.js:118-125 | the file-size multipliers are 2^0, 2^10, …, 2^50 for Bytes … PiB |
| Normalizer.ParseBitrate | src/util/MediaInfoNormalizer.js:81-103 | an unknown unit is reported before the value is looked at; a number comes only with a known unit |
| NormalizerFacts.BitrateOf | src/util/MediaInfoNormalizer.js:84-102 | leading tokens joined without spaces that form a decimal `x`, followed by a known unit, give multiplier × `x` |
| NormalizerFacts.BitrateBadValue | src/util/MediaInfoNormalizer.js:97-100 | a known unit whose joined value is not a decimal gives the warning `unparsable bitrate value` |
| NormalizerFacts.BitrateExample | src/util/MediaInfoNormalizer.js:84-102 | `1 234 Kbps` is 1234 × 10e3 = 12340000 |
| Normalizer.Scaled | src/util/MediaInfoNormalizer.js:102 | the product is a number exactly when the text starts with a digit once spaces are removed, and `NaN` otherwise |
| Normalizer.ParseFileSize | src/util/MediaInfoNormalizer.js:114-130 | a number part that is not a decimal gives the warning `unparsable filesize string` |
| NormalizerFacts.FileSizeOf | src/util/MediaInfoNormalizer.js:114-137 | `<n> <unit>` with a decimal `n` and a known unit gives round(multiplier × n) |
| NormalizerFacts.FileSizeBadUnit | src/util/MediaInfoNormalizer.js:131-134 | a decimal number followed by an unknown unit gives the warning `unparsable filesize unit` |
| NormalizerFacts.FileSizeExample | src/util/MediaInfoNormalizer.js:114-137 | `1.5 KiB` is 1536 |
| NormalizerFacts.FileSizeExtraTokens | src/util/MediaInfoNormalizer.js:127-136 | more than two tokens never yield a number: the result reads `parts[0]`/`parts[1]` after joining the rest |
| Normalizer.Rounded | src/util/MediaInfoNormalizer.js:136 | `Math.round` of the product lies within one half of it; no float gives `NaN` |
| Normalizer.ParseSamplingRate | src/util/MediaInfoNormalizer.js:148-164 | other than two tokens gives the warning `unparsable sampling rate string`; an unknown unit gives `unparsable sampling rate unit` |
| NormalizerFacts.SamplingRateOf | src/util/MediaInfoNormalizer.js:148-171 | a decimal and a known unit give multiplier × value |
| NormalizerFacts.SamplingRateExample | src/util/MediaInfoNormalizer.js:148-171 | `1.5 KHz` is 1.5 × 10e3 = 15000 |
| Normalizer.DurationAdvance | src/util/MediaInfoNormalizer.js:195-209 | one token of the loop: no match throws the TypeError; an unknown unit gives the warning `unparsable time unit`; a known unit adds amount × factor |
| Normalizer.MediaInfoNormalizer.ParseDuration | src/util/MediaInfoNormalizer.js:182-212 | the accumulating loop computes the duration function over the space-separated tokens |
| Normalizer.Duration | src/util/MediaInfoNormalizer.js:182-212 | reference definition of `_parseDuration` over the space-separated tokens; described by NormalizerFacts.DurationOf, DurationOfJoin and DurationFromOutcomes, and computed by the ParseDuration loop |
| NormalizerFacts.DurationFromTokens | src/util/MediaInfoNormalizer.js:195-211 | well-formed tokens with known units sum to amount × {h: 3600, mn: 60, s: 1, ms: 0.001} |
| NormalizerFacts.DurationOf | src/util/MediaInfoNormalizer.js:182-212 | a string that splits into well-formed tokens with known units has as its duration the sum of their seconds |
| NormalizerFacts.DurationOfJoin | src/util/MediaInfoNormalizer.js:182-212 | printing tokens joined by spaces and parsing them back gives their total seconds |
| NormalizerFacts.DurationExample | src/util/MediaInfoNormalizer.js:182-212 | `1h 30mn` is 5400 seconds |
| NormalizerFacts.DurationEmpty | src/util/MediaInfoNormalizer.js:195-199 | the empty string throws the TypeError: its single empty token does not match |
| NormalizerFacts.DurationFromOutcomes | src/util/MediaInfoNormalizer.js:195-211 | the loop throws only the TypeError or, with `bail`, a warning; otherwise it yields a number or `null` |
| NormalizerFacts.WarningsAreNotNullMatch | src/util/MediaInfoNormalizer.js:42-49 | no warning message equals the TypeError's message |
| Patterns.MatchIntUnit | src/util/MediaInfoNormalizer.js:225-236 | a match is a number part (1 to 3 digits, then groups of 3 digits, each group led by white space when `spaceSep` is set), a space and one of the units; no match means no such suffix has a number part before it |
| Patterns.MatchIntUnitOf | src/util/MediaInfoNormalizer.js:225-236 | a number part of the pattern for the mode, then a space and a unit of the list, is matched to exactly that number part |
| Patterns.NoSpellingMatches | src/util/MediaInfoNormalizer.js:225-236 | no match means that for every unit the text before it is not a number part of the pattern for the mode |
| Patterns.SuffixUnique | src/util/MediaInfoNormalizer.js:229-232 | two units without spaces cannot both end the same integer text |
| Patterns.GroupedIntUnseparated | src/util/MediaInfoNormalizer.js:229-230 | without `spaceSep` the pattern `\d{1,3}(\d{3})*` accepts exactly the non-empty digit strings |
| Patterns.DigitsAreGroupedInt | src/util/MediaInfoNormalizer.js:229-230 | a plain digit string is a number part without `spaceSep`; with it, exactly when it has at most three digits, since each further group needs white space before it |
| Patterns.GroupedIntWithoutSpaces | src/util/MediaInfoNormalizer.js:237 | removing the separators of a grouped integer leaves a non-empty digit string |
| Patterns.GroupedDecimalOfDecimal | src/util/MediaInfoNormalizer.js:97-100 | every `\d+(\.\d+)?` decimal also passes the bitrate value pattern |
| Normalizer.ParseIntUnit | src/util/MediaInfoNormalizer.js:225-239 | no match of the pattern (white space mandatory between groups with `spaceSep`) gives the warning `unparsable int value`; a match gives a number |
| NormalizerFacts.IntUnitOfGroups | src/util/MediaInfoNormalizer.js:225-239 | a number part of the pattern and a listed unit give the integer with its white space removed |
| NormalizerFacts.IntUnitOf | src/util/MediaInfoNormalizer.js:225-239 | a number printed as plain digits with a listed unit is read back without `spaceSep`, and with it when below 1000; with `spaceSep` a number of 1000 or more printed so gives the warning `unparsable int value` |
| NormalizerFacts.GroupedShape | src/util/MediaInfoNormalizer.js:226 | printing a number with white space before each group of three digits gives a number part of the `spaceSep` pattern |
| NormalizerFacts.GroupedValue | src/util/MediaInfoNormalizer.js:233-238 | with its white space removed that printing spells the number again |
| NormalizerFacts.GroupedIntUnitOf | src/util/MediaInfoNormalizer.js:225-239 | a number printed with grouped digits, a space and a listed unit is read back with `spaceSep` |
| NormalizerFacts.IntUnitUngroupedExample | src/util/MediaInfoNormalizer.js:225-239 | `1920 pixels` is the warning `unparsable int value` with `spaceSep` |
| NormalizerFacts.IntUnitSeparatedExample | src/util/MediaInfoNormalizer.js:225-239 | `1 920 pixels` is 1920 when space separators are allowed |
| NormalizerFacts.IntUnitUnseparatedExample | src/util/MediaInfoNormalizer.js:225-239 | `1 920 pixels` is the warning `unparsable int value` when separators are not allowed |
| Patterns.MatchFloatUnit | src/util/MediaInfoNormalizer.js:251-258 | a match iff the text is a `\d+\.\d+` number followed by a space and the unit; the match is that number |
| Normalizer.ParseFloatUnit | src/util/MediaInfoNormalizer.js:251-261 | no match gives the warning `unparsable float value`; a match gives a number |
| NormalizerFacts.FloatUnitOf | src/util/MediaInfoNormalizer.js:251-261 | `whole.fraction unit` is parsed to the exact decimal value |
| NormalizerFacts.FloatUnitNeedsFraction | src/util/MediaInfoNormalizer.js:251-258 | an integer without a fraction part is rejected with the warning `unparsable float value` |
| Patterns.MatchTimeTokenShape | src/util/MediaInfoNormalizer.js:197-199 | a match of `^(\d+)(\w+)$` splits the token into a digit amount and a word unit that starts with a non-digit |
| Patterns.MatchTimeTokenOf | src/util/MediaInfoNormalizer.js:197-199 | an amount followed by a unit of that shape is matched back to exactly that amount and unit |
| Media.EncodedDate | src/util/MediaInfoNormalizer.js:410-413 | the zone is the text before the first space, and zone, space and local time give back the whole value |
| Media.MediaInfo.constructor | src/util/MediaInfoNormalizer.js:441-449 | the object holds the given info bag and tracks |
| Normalizer.MediaInfoNormalizer.constructor | src/util/MediaInfoNormalizer.js:16-22 | `bail` is the option given, `false` by default |
| NormalizerBags.NormalizeEntryUnhandled | src/util/MediaInfoNormalizer.js:275-375 | chapter-marker keys of a track, pass-through keys and unknown keys keep their value and never throw |
| NormalizerBags.NormalizeEntryQuiet | src/util/MediaInfoNormalizer.js:279-375 | without `bail` a property throws only the TypeError of a malformed duration |
| Normalizer.NormalizeEntry | src/util/MediaInfoNormalizer.js:273-377 | reference definition of one `_.each` body: chapter markers and unknown names are kept, the rest go through Convert; described by NormalizerBags.NormalizeEntryUnhandled and NormalizeEntryQuiet |
| NormalizerBags.ConvertQuiet | src/util/MediaInfoNormalizer.js:279-375 | without `bail` only the duration parser can throw, and only the TypeError |
| NormalizerBags.ConvertLeavesNoText | src/util/MediaInfoNormalizer.js:279-375 | a parser other than passthrough never returns text |
| Normalizer.Convert | src/util/MediaInfoNormalizer.js:279-375 | reference definition of the `switch` from a property kind to its parser; described by NormalizerBags.ConvertQuiet and ConvertLeavesNoText |
| Normalizer.MediaInfoNormalizer.NormalizeProperty | src/util/MediaInfoNormalizer.js:273-377 | one body of the `_.each`: the switch case for the key, applied to its text |
| Normalizer.MediaInfoNormalizer.NormalizeEntries | src/util/MediaInfoNormalizer.js:273-378 | the loop over a bag computes the bag pass, and stops at the first throw |
| Normalizer.NormalizeBag | src/util/MediaInfoNormalizer.js:271-379 | reference definition of a pass over one bag, stopping at the first throw; described by NormalizerBags.NormalizeBagPointwise, NormalizeBagKeys and NormalizeBagQuiet, and computed by NormalizeEntries |
| NormalizerBags.NormalizeBagPointwise | src/util/MediaInfoNormalizer.js:271-379 | without an error every property is rewritten in place; with one, property `k` threw that message, those before it are rewritten and the rest are unchanged |
| NormalizerBags.NormalizeBagKeys | src/util/MediaInfoNormalizer.js:271-379 | every property keeps its name and its position |
| NormalizerBags.NormalizeBagQuiet | src/util/MediaInfoNormalizer.js:271-379 | without `bail` a bag pass fails only with the TypeError |
| Normalizer.MediaInfoNormalizer.NormalizeInfo | src/util/MediaInfoNormalizer.js:389-432 | the info bag is rewritten in place by the info table; the tracks are untouched |
| Normalizer.MediaInfoNormalizer.NormalizeTrack | src/util/MediaInfoNormalizer.js:271-379 | track `j` is rewritten in place by the track table, with chapter markers skipped; the other tracks and the info bag are untouched |
| Normalizer.MediaInfoNormalizer.NormalizeEachTrack | src/util/MediaInfoNormalizer.js:444-446 | the loop over the tracks computes the tracks pass and stops at the first throw |
| Normalizer.NormalizeTracks | src/util/MediaInfoNormalizer.js:444-446 | reference definition of the pass over the tracks; described by NormalizerBags.NormalizeTracksPointwise, and computed by NormalizeEachTrack |
| NormalizerBags.NormalizeTracksPointwise | src/util/MediaInfoNormalizer.js:444-446 | every track is normalised; after a throw in track `k`, the later tracks are untouched |
| Normalizer.MediaInfoNormalizer.Normalize | src/util/MediaInfoNormalizer.js:441-449 | the object is rewritten in place and returned itself |
| Normalizer.NormalizeData | src/util/MediaInfoNormalizer.js:441-449 | reference definition of `normalize`: the info bag, then the tracks; described by NormalizerBags.NormalizeDataOrder and NormalizeDataQuiet, and computed by Normalize |
| NormalizerBags.NormalizeDataOrder | src/util/MediaInfoNormalizer.js:441-449 | the info bag goes first; when it throws, the tracks are untouched |
| NormalizerBags.NormalizeDataQuiet | src/util/MediaInfoNormalizer.js:441-449 | without `bail`, normalising throws at most the TypeError |
| LegacyNormalizer.TablesIncluded | src/MediaInfoNormalizer.js:33-57 | the older tables are the current ones without `Gbps`, `Tbps` and `PiB`, with equal multipliers |
| LegacyFacts.BoolAgrees | src/MediaInfoNormalizer.js:17-27 | `parseBool` is `_parseBool` without `bail` |
| LegacyNormalizer.ParseBool | src/MediaInfoNormalizer.js:17-27 | reference definition of `parseBool`; described by LegacyFacts.BoolAgrees |
| LegacyFacts.BitrateAgrees | src/MediaInfoNormalizer.js:29-47 | outside `Gbps`/`Tbps`, wherever the current parser gives a value the older one gives the same |
| LegacyFacts.LenientBitrate | src/MediaInfoNormalizer.js:38-46 | a value that fails the pattern is only logged: `12x Kbps` is 120000 in the older revision and a warning in the current one |
| LegacyFacts.GigabitDiverges | src/MediaInfoNormalizer.js:33-46 | `1 Gbps` is `NaN` in the older revision and 10e9 in the current one |
| LegacyNormalizer.ParseBitrate | src/MediaInfoNormalizer.js:29-47 | reference definition of `parseBitrate`; described by LegacyFacts.BitrateAgrees, LenientBitrate and GigabitDiverges |
| LegacyFacts.FileSizeAgrees | src/MediaInfoNormalizer.js:49-70 | outside `PiB`, wherever the current parser gives a value the older one gives the same |
| LegacyFacts.FileSizeIgnoresRest | src/MediaInfoNormalizer.js:58-69 | a wrong token count is only logged: tokens after the unit are ignored, and the result is round(multiplier × n) |
| LegacyFacts.PebibyteDiverges | src/MediaInfoNormalizer.js:51-69 | `1 PiB` is `NaN` in the older revision and 2^50 in the current one |
| LegacyNormalizer.ParseFileSize | src/MediaInfoNormalizer.js:49-70 | reference definition of `parseFileSize`; described by LegacyFacts.FileSizeAgrees, FileSizeIgnoresRest and PebibyteDiverges |
| LegacyFacts.SamplingRateAgrees | src/MediaInfoNormalizer.js:72-92 | wherever the current parser gives a value the older one gives the same |
| LegacyNormalizer.ParseSamplingRate | src/MediaInfoNormalizer.js:72-92 | reference definition of `parseSamplingRate`; described by LegacyFacts.SamplingRateAgrees |
| LegacyNormalizer.TimeAdvance | src/MediaInfoNormalizer.js:104-115 | one token of the `forEach`: no match throws the TypeError, otherwise amount × factor is added (an unknown unit gives `NaN`) |
| LegacyNormalizer.ParseTime | src/MediaInfoNormalizer.js:94-118 | the `forEach` accumulation computes the time function |
| LegacyNormalizer.Time | src/MediaInfoNormalizer.js:94-118 | reference definition of `parseTime`; described by LegacyFacts.TimeAgrees, TimeThrows and TimeStaysNaN, and computed by ParseTime |
| LegacyFacts.TimeAgrees | src/MediaInfoNormalizer.js:94-118 | wherever the current duration parser gives a value or throws, `parseTime` gives the same weighted sum or throws the same |
| LegacyFacts.TimeThrows | src/MediaInfoNormalizer.js:104-115 | `parseTime` throws iff some token fails to match, and then with the TypeError; otherwise it gives a number or `NaN` |
| LegacyFacts.TimeStaysNaN | src/MediaInfoNormalizer.js:104-115 | once the sum is `NaN` it stays `NaN` |
| LegacyFacts.UnknownTimeUnit | src/MediaInfoNormalizer.js:104-115 | `5x` is `NaN` in the older revision and the warning `unparsable time unit` in the current one |
| LegacyFacts.IntUnitAgrees | src/MediaInfoNormalizer.js:120-133 | `parseIntUnit` is `_parseIntUnit` without `bail`: `null` on mismatch, the number otherwise |
| LegacyNormalizer.ParseIntUnit | src/MediaInfoNormalizer.js:120-133 | reference definition of `parseIntUnit`, with the same pattern as the current revision; described by LegacyFacts.IntUnitAgrees |
| LegacyFacts.FloatUnitAgrees | src/MediaInfoNormalizer.js:135-145 | `parseFloatUnit` is `_parseFloatUnit` without `bail` |
| LegacyNormalizer.ParseFloatUnit | src/MediaInfoNormalizer.js:135-145 | reference definition of `parseFloatUnit`; described by LegacyFacts.FloatUnitAgrees |
| LegacyFacts.ConvertAgrees | src/MediaInfoNormalizer.js:147-251 | outside the missing units, each switch case gives what the current revision's case gives whenever that one gives a value |
| LegacyNormalizer.Convert | src/MediaInfoNormalizer.js:152-250 | reference definition of the older `switch`; described by LegacyFacts.ConvertAgrees |
| LegacyFacts.NormalizeBagOutcome | src/MediaInfoNormalizer.js:147-292 | the older pass keeps every name and position and throws nothing but the TypeError |
| LegacyNormalizer.BagAdvance | src/MediaInfoNormalizer.js:152-250 | one property of the `_.each`: its rewrite in place, or the throw that ends the pass |
| LegacyNormalizer.NormalizeEntry | src/MediaInfoNormalizer.js:149-250 | reference definition of one older `_.each` body; described by LegacyFacts.NormalizeBagOutcome |
| LegacyNormalizer.RewriteBag | src/MediaInfoNormalizer.js:147-292 | the older loop over a bag computes the older bag pass |
| LegacyNormalizer.NormalizeBag | src/MediaInfoNormalizer.js:147-292 | reference definition of the older pass over one bag; described by LegacyFacts.NormalizeBagOutcome, and computed by RewriteBag |
| LegacyNormalizer.NormalizeInfo | src/MediaInfoNormalizer.js:253-292 | the info bag is rewritten in place; the tracks are untouched |
| LegacyNormalizer.NormalizeTrack | src/MediaInfoNormalizer.js:147-251 | track `j` is rewritten in place, with chapter markers skipped; the rest is untouched |
| LegacyNormalizer.TracksAdvance | src/MediaInfoNormalizer.js:300-307 | one track of the loop: its rewrite, or the throw that ends the pass |
| LegacyNormalizer.NormalizeTracks | src/MediaInfoNormalizer.js:300-307 | reference definition of the older pass over the tracks; computed by the loop of LegacyNormalizer.Normalize |
| LegacyNormalizer.Normalize | src/MediaInfoNormalizer.js:300-307 | the info bag, then every track, is rewritten in place and the object itself is returned |
| LegacyNormalizer.NormalizeData | src/MediaInfoNormalizer.js:300-307 | reference definition of the older `normalize`; computed by LegacyNormalizer.Normalize |
| Collector.Matchers | src/collector/AbstractCollector.js:169-174 | one matcher per pattern, in order, each with the given options |
| Collector.ConfigureDefaults | src/collector/AbstractCollector.js:49-66 | concurrency 3 and no patterns by default; `dot` and `matchBase` are true unless given; a single pattern becomes a list of one |
| Collector.Collector.constructor | src/collector/AbstractCollector.js:46-67 | the fields are the configured options, and the normaliser is built without `bail` |
| Collector.FirstMatchLowest | src/collector/AbstractCollector.js:282-290 | `false` iff no matcher matches; otherwise the pattern of the lowest-index matcher that matches |
| Collector.Collector.GetFirstMatchingPattern | src/collector/AbstractCollector.js:282-290 | the index loop computes the first match |
| Collector.Collector.Accepted | src/collector/AbstractCollector.js:302-311 | reference definition of `_accepted`; described by Collector.Collector.AcceptedIff and Filtered |
| Collector.Collector.AcceptedIff | src/collector/AbstractCollector.js:302-311 | accepted iff the include list is empty or some include matches, and no exclude matches |
| Collector.Collector.Filtered | src/collector/AbstractCollector.js:212-217 | exactly the accepted entries are kept |
| Collector.Collector.FilteredConcat | src/collector/AbstractCollector.js:212-217 | filtering keeps listing order |
| Collector.Collector.FileInfos | src/collector/AbstractCollector.js:218-229 | each accepted entry becomes `{name, formattedName: formatFile(name), size, info: null}`, in order |
| Collector.Collector.Extracted | src/collector/AbstractCollector.js:259-270 | no result gives `null`; only the first result is normalised |
| Collector.Collector.ExtractedQuiet | src/collector/AbstractCollector.js:259-270 | without `bail` only the TypeError escapes; the returned object keeps the names and order of its info properties and its number of tracks |
| Collector.Collector.ExtractMediaInfo | src/collector/AbstractCollector.js:259-270 | the first object is normalised in place and returned |
| Collector.Collector.Handle | src/collector/AbstractCollector.js:232-243 | a loader error gives `problem` for the unchanged record; otherwise `info` with the extracted media information assigned, unless the normaliser throws |
| Collector.Collector.HandleReports | src/collector/AbstractCollector.js:218-243 | an event reports its file: the same name, display name and size, `problem` iff the loader failed |
| Collector.EmitCrashed | src/collector/AbstractCollector.js:230-243 | after the loop has thrown, later files add nothing |
| Collector.EmitPointwise | src/collector/AbstractCollector.js:230-243 | one event per file, in order, up to the file whose callback threw |
| Collector.Collector.Execute | src/collector/AbstractCollector.js:203-248 | the sequential loop emits the events and the completion of the model of `execute` |
| Collector.Collector.Executed | src/collector/AbstractCollector.js:203-248 | reference definition of what `execute` emits; described by Collector.Collector.ExecutedEvents, and computed by Execute |
| Collector.Collector.ExecutedEvents | src/collector/AbstractCollector.js:206-247 | the callback gets an error only when the listing failed; otherwise every accepted file is reported by exactly one event, in order, unless the normaliser throws the TypeError |
| DirectoryReader.RemoteDirectoryReader.constructor | src/collector/util/RemoteDirectoryReader.js:32-46 | idle, empty, with a concurrency of one unless given |
| DirectoryReader.RemoteDirectoryReader.Notify | src/collector/util/RemoteDirectoryReader.js:162-167 | reports `done` = tasks done and `total` = tasks done + queued directories |
| DirectoryReader.EnqueueOne | src/collector/util/RemoteDirectoryReader.js:235-238 | the queue grows at the back and a progress report with the new total follows; nothing else changes |
| DirectoryReader.RemoteDirectoryReader.Enqueue | src/collector/util/RemoteDirectoryReader.js:235-238 | the state after `_enqueue` is the step above |
| DirectoryReader.EnqueuedFacts | src/collector/util/RemoteDirectoryReader.js:221-238 | enqueueing a list appends it in order, with one report per directory, each at the current `done` |
| DirectoryReader.RemoteDirectoryReader.Run | src/collector/util/RemoteDirectoryReader.js:125-153 | a busy reader calls back `Reader is already running` at once and keeps its state; an idle one resets its fields and queues the root |
| DirectoryReader.RemoteDirectoryReader.Work | src/collector/util/RemoteDirectoryReader.js:178-226 | one worker task computes the step function on the head of the queue |
| DirectoryReader.Advance | src/collector/util/RemoteDirectoryReader.js:178-226 | reference definition of one worker task; described by DirectoryReader.AdvanceFacts, AdvanceProgressing, AdvanceWeight and AdvanceFiles, and computed by Work |
| DirectoryReader.AdvanceFacts | src/collector/util/RemoteDirectoryReader.js:181-224 | one task counts once either way; a listing appends its files and queues its subdirectories in order; a failure records `{directory, message}` |
| DirectoryReader.AdvanceProgressing | src/collector/util/RemoteDirectoryReader.js:162-183 | a task keeps the reported `done` monotone and never above the tasks done |
| DirectoryReader.AdvanceWeight | src/collector/util/RemoteDirectoryReader.js:178-226 | on an acyclic finite tree every task takes one unit off the work left, so the traversal ends |
| DirectoryReader.FinishFacts | src/collector/util/RemoteDirectoryReader.js:141-226 | the queue drains after exactly as many tasks as there are directories below it, and progress stays monotone |
| DirectoryReader.AdvanceFiles | src/collector/util/RemoteDirectoryReader.js:214-224 | a task moves its directory's own files into the list and leaves its subdirectories' files to the queue |
| DirectoryReader.FinishFiles | src/collector/util/RemoteDirectoryReader.js:141-224 | the files collected are exactly those of a depth-first walk from the queue, with their multiplicities |
| DirectoryReader.Finish | src/collector/util/RemoteDirectoryReader.js:141-153 | reference definition of the traversal until the queue drains; described by DirectoryReader.FinishFacts and FinishFiles, and computed by Traverse |
| DirectoryReader.RemoteDirectoryReader.Drain | src/collector/util/RemoteDirectoryReader.js:141-151 | one last report, the reader goes idle, and the callback gets the files iff there were no errors, else every failure |
| DirectoryReader.RemoteDirectoryReader.Traverse | src/collector/util/RemoteDirectoryReader.js:125-154 | `run` on an idle reader followed by the worker loop until the queue drains gives the finished state and its reply |
| DirectoryReader.FixtureRanked | test/specs/collector/util/RemoteDirectoryReader.test.js:15-44 | the fixture tree is finite and acyclic |
| DirectoryReader.FixtureListing | test/specs/collector/util/RemoteDirectoryReader.test.js:90-107 | reading the fixture from `/` takes seven tasks and calls back with its six files in the order the test asserts |
| SmbParser.Cut | src/collector/util/SmbParser.js:5-12 | the lazy `(.+?)` name capture: the shortest name after which the rest of the line matches |
| SmbParser.LsDirShortest | src/collector/util/SmbParser.js:9-12 | a directory line is two spaces, a non-empty name and then the `D … 0` tail with a date, with no shorter name possible |
| SmbParser.LsFileShortest | src/collector/util/SmbParser.js:5-8 | a file line is two spaces, a name, an optional `R`, sizes as digits and a date, with no shorter name possible |
| SmbParser.LsDir | src/collector/util/SmbParser.js:9-12 | reference definition of the directory-line pattern; described by SmbParser.LsDirShortest |
| SmbParser.LsFile | src/collector/util/SmbParser.js:5-8 | reference definition of the file-line pattern; described by SmbParser.LsFileShortest and DigitsFileTail |
| SmbParser.DirTailIsFileTail | src/collector/util/SmbParser.js:5-12 | the tail of a directory line, past the `D`, is the tail of a file of size 0 |
| SmbParser.DirLineMatchesFile | src/collector/util/SmbParser.js:5-88 | every directory line also matches the file pattern, so trying the directory pattern first is what keeps it out of the files |
| SmbParser.ClassifyLs | src/collector/util/SmbParser.js:77-88 | a line is a directory iff the directory pattern matches, a file iff only the file pattern matches, otherwise dropped |
| SmbParser.LsLines | src/collector/util/SmbParser.js:73 | each line is classified, in order |
| SmbParser.LsCollect | src/collector/util/SmbParser.js:73-88 | no more entries than lines |
| SmbParser.LsCollectConcat | src/collector/util/SmbParser.js:73-88 | entries are collected in line order |
| SmbParser.LsCollectEntries | src/collector/util/SmbParser.js:73-88 | the directories and files are exactly the classified lines; no line is both |
| SmbParser.LsOfEntries | src/collector/util/SmbParser.js:67-92 | the directories are exactly the lines matching the directory pattern, `.` and `..` included; the files are the other lines matching the file pattern |
| SmbParser.LsOf | src/collector/util/SmbParser.js:67-92 | reference definition of `ls`; described by SmbParser.LsOfEntries, and computed by Ls |
| SmbParser.Ls | src/collector/util/SmbParser.js:67-92 | the `forEach` over the lines computes the listing of the output split at newlines |
| SmbParser.ExampleDirectoryLine | test/specs/collector/util/SmbParser.test.js:10-51 | `  bla   D   0  <date>` is the directory `bla` |
| SmbParser.ExampleFileLine | test/specs/collector/util/SmbParser.test.js:10-51 | `  a.xm   4711  <date>` is the file `a.xm` of 4711 bytes |
| SmbParser.DirTailExample | src/collector/util/SmbParser.js:9-12 | the directory tail `   D   0  ` matches exactly when a date follows |
| SmbParser.FileTailExample | src/collector/util/SmbParser.js:5-8 | the file tail `   4711  ` matches exactly when a date follows, and gives the size 4711 |
| SmbParser.DigitsFileTail | src/collector/util/SmbParser.js:5-8 | spaces, digits, two spaces and a date give the size those digits spell |
| SmbParser.DatesMatch | src/collector/util/SmbParser.js:5-12 | every `Www Mmm dd hh:mm:ss yyyy` text matches the date part of the patterns |
| SmbParser.MatchesConcat | src/collector/util/SmbParser.js:5-12 | matching the patterns one part after another |
| SmbParser.Number | src/collector/util/SmbParser.js:13-18 | a `\d+` capture reads all leading digits and nothing else |
| SmbParser.Literal | src/collector/util/SmbParser.js:13-18 | a literal part of a pattern matches exactly its own text |
| SmbParser.TotalIsNotBlocks | src/collector/util/SmbParser.js:13-18 | no line is both a total line and a blocks line |
| SmbParser.DuTotal | src/collector/util/SmbParser.js:13-15 | reference definition of the total-line pattern; described by SmbParser.TotalIsNotBlocks |
| SmbParser.DuBlocks | src/collector/util/SmbParser.js:16-18 | reference definition of the blocks-line pattern; described by SmbParser.TotalIsNotBlocks |
| SmbParser.ClassifyDu | src/collector/util/SmbParser.js:47-53 | a line gives a total, a blocks triple, or nothing |
| SmbParser.DuLines | src/collector/util/SmbParser.js:44 | each line is classified, in order |
| SmbParser.DuCollectTotal | src/collector/util/SmbParser.js:36-57 | `total` stays `null` iff there is no total line; otherwise it is the value of the last one |
| SmbParser.DuCollectBlocks | src/collector/util/SmbParser.js:36-57 | the blocks stay unset iff there is no blocks line; otherwise they are the last one's |
| SmbParser.DuOf | src/collector/util/SmbParser.js:36-57 | reference definition of `du`; described by SmbParser.DuCollectTotal and DuCollectBlocks, and computed by Du |
| SmbParser.Du | src/collector/util/SmbParser.js:36-57 | the `forEach` over the lines computes the `du` result |
| Cli.CliHelper.constructor | src/util/CliHelper.js:18-25 | separator `=` unless given, no parameters, no masks |
| Cli.Stored | src/util/CliHelper.js:84-96 | `false` deletes; a string or finite number is stored as its text; any other value becomes the flag `true` |
| Cli.LookupAssign | src/util/CliHelper.js:84-96 | assigning one name changes only that name's lookup |
| Cli.LookupAssignAll | src/util/CliHelper.js:72-96 | after `set(args)` a name holds what its last occurrence stores; names not in `args` are unchanged |
| Cli.LookupPut | src/util/CliHelper.js:90-93 | storing a value changes only that name |
| Cli.LookupRemove | src/util/CliHelper.js:88-89 | `delete` removes only that name |
| Cli.NamesPut | src/util/CliHelper.js:90-93 | an existing key keeps its place and a new one goes to the end |
| Cli.PutAbsent | src/util/CliHelper.js:90-93 | a new key is appended |
| Cli.RemoveAt | src/util/CliHelper.js:88-89 | deleting cuts exactly that key out of the order |
| Cli.AssignDistinct | src/util/CliHelper.js:84-96 | the dictionary never holds a key twice |
| Cli.AssignAllStep | src/util/CliHelper.js:72-82 | `set` applies its keys one after the other |
| Cli.CliHelper.Set | src/util/CliHelper.js:72-96 | `set(name, value)` assigns one key and keeps the masks |
| Cli.CliHelper.SetAll | src/util/CliHelper.js:72-96 | `set(args)` assigns the keys in order and keeps the masks |
| Cli.CliHelper.MaskAll | src/util/CliHelper.js:49-70 | `mask(dict)` marks each name with the truthiness of its value |
| Cli.CliHelper.Mask | src/util/CliHelper.js:49-64 | `mask(name)` marks that name |
| Cli.CliHelper.MaskWith | src/util/CliHelper.js:49-64 | `mask(name, value)` marks the name with `!!value` |
| Cli.Names | src/util/CliHelper.js:98-107 | the keys in insertion order |
| Cli.Words | src/util/CliHelper.js:98-107 | one element per parameter, in key order |
| Cli.CliHelper.ToArray | src/util/CliHelper.js:98-107 | `toArray()` is the Words of the parameters; described by Cli.RenderedParameter and MaskedValuesHidden |
| Cli.RenderedParameter | src/util/CliHelper.js:98-107 | a flag renders `--name`; a value renders `--name` + separator + the quoted value, or the masked placeholder |
| Cli.MaskedValuesHidden | src/util/CliHelper.js:98-107 | the rendering does not depend on the values of masked parameters |
| Cli.CommandLineWords | src/util/CliHelper.js:109-111 | `toString` is the `toArray` elements joined with single spaces; splitting it gives them back |
| Cli.CliHelper.ToString | src/util/CliHelper.js:109-111 | `toString()` is the words joined with spaces; described by Cli.CommandLineWords |
| CurlFtp.Configure | src/collector/util/CurlFtp.js:27-34 | every option not given takes its default |
| CurlFtp.DefaultOptions | src/collector/util/CurlFtp.js:27-34 | the defaults are `localhost`, 21, `anonymous`, `guest` |
| CurlFtp.DownloadArgsAssigned | src/collector/util/CurlFtp.js:47-53 | the fresh helper holds the five parameters in the order given |
| CurlFtp.DownloadCommand | src/collector/util/CurlFtp.js:45-56 | reference definition of `_getDownloadCommand`; described by CurlFtp.DownloadCommandText and UserInCommand |
| CurlFtp.DownloadCommandText | src/collector/util/CurlFtp.js:45-56 | `curl --no-epsv --silent --speed-time 1 --user … --range …` followed by the quoted URL, with single-space separators |
| CurlFtp.UserInCommand | src/collector/util/CurlFtp.js:46-51 | the command carries `--user` with `user:password`, or the placeholder when masking |
| CurlFtp.RangeCoversSize | src/collector/util/CurlFtp.js:52 | the range `0-(size-1)` names exactly `size` bytes |
| CurlFtp.Url | src/collector/util/CurlFtp.js:70-73 | reference definition of the download URL; described by CurlFtp.UrlPath |
| CurlFtp.UrlPath | src/collector/util/CurlFtp.js:70-73 | `ftp://host:port` then the path with a leading `/` ensured, never doubled |
| CurlFtp.DownloadRequest | src/collector/util/CurlFtp.js:67-77 | the exec buffer limit is the chunk size |
| CurlFtp.RequestShowsPassword | src/collector/util/CurlFtp.js:70-76 | the executed command carries the real password |
| CurlFtp.LoggedCommandHidesPassword | src/collector/util/CurlFtp.js:80 | the logged command shows `user:` and the placeholder, whatever the password |
| SmbClient.EscapeIdentity | src/collector/util/SmbClient.js:41-44 | replacing each quote character by `$1` gives back the string unchanged |
| SmbClient.Escape | src/collector/util/SmbClient.js:41-44 | reference definition of `_escape`; described by SmbClient.EscapeIdentity |
| SmbClient.DownloadArgs | src/collector/util/SmbClient.js:57-68 | starts with `--stdout`; `--guest` iff no user name; `--password=` iff both user and password |
| SmbClient.DownloadCommand | src/collector/util/SmbClient.js:70-73 | reference definition of the download command; described by SmbClient.DownloadPipesIntoHead |
| SmbClient.DownloadRequest | src/collector/util/SmbClient.js:70-77 | the exec buffer limit is the chunk size |
| SmbClient.DownloadPipesIntoHead | src/collector/util/SmbClient.js:70-73 | `smbget` piped into `head --bytes=<size>` |
| SmbClient.RemoteArgs | src/collector/util/SmbClient.js:107-119 | the service, the password at index 1 whenever given, then `--no-pass`, the directory and the command, and `--user=` last only with a user name |
| SmbClient.PasswordLogged | src/collector/util/SmbClient.js:116-121 | the password is logged in the clear, right after the service |
| SmbClient.CommandsSent | src/collector/util/SmbClient.js:151-166 | `ls` runs `ls` in the given directory; `du` runs `du "<file>"` in `/` |
| SmbClient.RemoteProcess.constructor | src/collector/util/SmbClient.js:122-123 | nothing collected yet |
| SmbClient.RemoteProcess.OnStdout | src/collector/util/SmbClient.js:124-126 | stdout grows by the chunk |
| SmbClient.RemoteProcess.OnStderr | src/collector/util/SmbClient.js:128-130 | stderr grows by the chunk |
| SmbClient.Closed | src/collector/util/SmbClient.js:132-140 | exit code 0 gives stdout; any other gives an error carrying stderr and the exit code |
| SmbClient.RemoteProcess.OnClose | src/collector/util/SmbClient.js:132-140 | the close handler maps the collected output by exit code |
| SmbClient.Run | src/collector/util/SmbClient.js:122-140 | the handlers over a run of output chunks compute the mapped result |
| SmbClient.RunExamples | test/specs/collector/util/SmbClient.test.js:144-172 | the repository's success and failure runs |
| FtpCollector.Configure | src/collector/FtpCollector.js:29-34 | defaults `localhost`, 21, `anonymous`, and no password |
| FtpCollector.CurlOptions | src/collector/FtpCollector.js:37 | curl gets the same settings, and a missing password is concatenated as `null` |
| FtpCollector.CurlWithoutPassword | src/collector/FtpCollector.js:29-37 | without a password the user argument ends in `:null` |
| FtpCollector.FormatFile | src/collector/FtpCollector.js:80-82 | reference definition of `formatFile`; described by FtpCollector.FormatFileNames |
| FtpCollector.FormatFileNames | src/collector/FtpCollector.js:80-82 | `ftp://user@host` followed by the file, so different files have different names |
| FtpCollector.ListDirectory | src/collector/FtpCollector.js:91 | a leading `/` ensured, then one trailing `/` removed |
| FtpCollector.RootDirectory | src/collector/FtpCollector.js:91-131 | `/` is listed as `''` and its entries as `/name` |
| FtpCollector.EntryPath | src/collector/FtpCollector.js:131 | the directory with a trailing `/` ensured, then the name |
| FtpCollector.Classify | src/collector/FtpCollector.js:133-142 | `-` is a file, `d` other than `.`/`..` is a directory, links and other kinds are dropped |
| FtpCollector.ProcessListing | src/collector/FtpCollector.js:130-143 | the `forEach` pushes computes the classified listing |
| FtpCollector.ClassifiedConcat | src/collector/FtpCollector.js:130-143 | order is preserved |
| FtpCollector.ClassifiedEntries | src/collector/FtpCollector.js:130-143 | exactly the `-` entries become files and exactly the `d` entries other than `.`/`..` directories |
| FtpCollector.ProcessDirectory | src/collector/FtpCollector.js:119-148 | a listing error is passed on with no result |
| SmbCollector.Configure | src/collector/SmbCollector.js:24-28 | the service defaults to `''`, the credentials to `null` |
| SmbCollector.FormatFile | src/collector/SmbCollector.js:74-80 | reference definition of `formatFile`; described by SmbCollector.FormatFileNames and FormatFileAccount |
| SmbCollector.FormatFileNames | src/collector/SmbCollector.js:74-80 | a fixed `smb://account@share` prefix followed by the file |
| SmbCollector.FormatFileAccount | src/collector/SmbCollector.js:74-80 | the account is the user name or `guest`; one leading `//` of the service is removed |
| SmbCollector.FilePaths | src/collector/SmbCollector.js:103-108 | every file becomes `{directory + '/' + name, size}` in order, and dates are dropped |
| SmbCollector.DirPathsConcat | src/collector/SmbCollector.js:109-111 | directories keep their order |
| SmbCollector.DirPathsEntries | src/collector/SmbCollector.js:99-111 | exactly the directories other than `.` and `..` are kept, under `directory + '/' + name` |
| SmbCollector.LinesDirectories | src/collector/SmbCollector.js:94-111 | a directory for each `ls` line the directory pattern matches, other than `.`/`..`, and no other |
| SmbCollector.LinesFiles | src/collector/SmbCollector.js:94-108 | a file for each line only the file pattern matches, and no other |
| SmbCollector.ProcessDirectory | src/collector/SmbCollector.js:87-115 | a client error is passed on and the output is not parsed |
| JsonWriter.Configure | src/writer/JsonFileWriter.js:27-32 | flags `w`, mode 0666 and `utf8` unless given |
| JsonWriter.JsonFileWriter.constructor | src/writer/JsonFileWriter.js:22-37 | the options and the serialiser, nothing written |
| JsonWriter.JsonFileWriter.Initialize | src/writer/JsonFileWriter.js:46-58 | nothing held and `[` written |
| JsonWriter.JsonFileWriter.Info | src/writer/JsonFileWriter.js:64-70 | the item held so far is written with `, `, and the new item is held |
| JsonWriter.InfoWrites | src/writer/JsonFileWriter.js:64-70 | the first `info` writes nothing; each later one writes the previous item and `, ` |
| JsonWriter.JsonFileWriter.Finalize | src/writer/JsonFileWriter.js:77-80 | the held item or `null` is written, then `]`, and the stream ends |
| JsonWriter.Document | src/writer/JsonFileWriter.js:46-80 | reference definition of the whole file; described by JsonWriter.DocumentItems and EmptyDocument, and reached by Finalize |
| JsonWriter.Rendered | src/writer/JsonFileWriter.js:66-78 | each item serialised, in order |
| JsonWriter.ContentsPrefixed | src/writer/JsonFileWriter.js:54-57 | the file starts with `[` |
| JsonWriter.PendingJoined | src/writer/JsonFileWriter.js:64-78 | what was written, then the held item, is the items joined with `, ` |
| JsonWriter.DocumentItems | src/writer/JsonFileWriter.js:46-80 | after one or more items the file is `[` + the serialised items joined by `, ` + `]` |
| JsonWriter.EmptyDocument | src/writer/JsonFileWriter.js:53-79 | without items the file is `[null]` |
| JsonWriter.WriteDocument | src/writer/JsonFileWriter.js:46-80 | `initialize`, one `info` per item and `finalize` leave exactly that document |

## Left out

- Child processes, the network and the file system are left out. This covers the `exec` and `spawn` calls, the FTP client connection, the temporary files, the `mediainfo` runs and the file stream. The JSON writer's stream is the list of chunks written to it.
- Logging through winston, including `_logFilterMessage`, is left out. The only effect of `_warn` kept is the throw under `bail`.
- `async` scheduling is left out. Collector.Collector.Execute runs the loads one after the other, and DirectoryReader.RemoteDirectoryReader.Traverse runs one task at a time, which is the default concurrency. Higher concurrency changes only arrival order, which the code does not promise.
- The glob semantics of Minimatch, `shell-quote`'s quoting and `JSON.stringify` are parameters that the model does not interpret.
- Media.EncodedDate splits the value into zone and local time. It does not convert the pair to epoch milliseconds with the `time` library.
- The dates that SmbParser captures stay as raw strings. The `new Date(...)` conversion is not modelled.
- IEEE floating point is not modelled. Values are exact reals, and `Math.round` rounds half up.
- `parseInt` and `parseFloat` are modelled only on their leading-digit forms. Leading white space, signs, exponents and `Infinity` are not modelled (Text.ParseInt, Text.ParseFloat).
- NormalizerFacts.TotalSeconds counts an ill-formed or unknown-unit token as zero. The duration lemmas are stated only for well-formed tokens with known units, where that case does not arise.
- Normalizer.NormalizeEntry leaves a property whose value is not text unchanged. A `mediainfo` property bag only holds text. The source would hand such a value to the parser for its key: `_parseBool` would warn, and the parsers that call `split` or `match` would throw a TypeError. Normalising an object a second time is therefore outside the model, and no idempotence is claimed for it.
- Cli.Stored: finite numbers are integers here. Non-integer and non-finite numbers are left out.
- Cli.CliHelper.Mask: a call to `mask()` with no arguments is left out.
- Cli.Names: keys stay in insertion order. JavaScript's reordering of integer-like keys is left out.
- Collector.Collector.AcceptedIff is stated for pattern lists without the empty pattern. A match of `""` is falsy, and Collector.Collector.Accepted models that case as written.
- JsonWriter.JsonFileWriter.Info holds an item as an option. An item that JavaScript treats as falsy, which `if (this._last)` would skip, is left out. The order of the stream's `open` event relative to `info` calls is also left out.
- DirectoryReader.RemoteDirectoryReader.Traverse requires a finite, acyclic tree given with a rank map. The reader does not detect cycles.
- The older normaliser module exports a single stateless instance. Here it is the module-level functions and methods of `LegacyNormalizer`.
- The busy case of DirectoryReader.RemoteDirectoryReader.Run is taken from the source lines. The repository's test for it builds two separate readers.
- The writers other than the JSON file writer, RemoteCollector, FileSystemCollector and the build and test configuration are not part of this model.
