# logging-utils, modelled in Dafny

A model of the level-formatting helpers of the `logging-utils` module
(`mod.ts`): the five logging levels, their priority ranks, the four
comparisons between levels (`logLt`, `logLte`, `logGt`, `logGte`), the fixed
display table `infos`, and `renderMessagePrefix`, which builds the prefix of a
log line from the coloured, bracketed level label, an alignment space for
`info` and `warn`, and four spaces of indentation per group level.

Everything in the original is pure, so the model is functions and lemmas:

- `string_repeat.dfy` — module `StringRepeat`: `Repeat`, the model of
  `String.prototype.repeat` for a non-negative count, with its length and
  content lemmas.
- `log_levels.dfy` — module `LogLevels`: the `LogLevel` datatype, its string
  `Tag`, `LevelToInt`, the four comparisons and the ordering lemmas. The
  reference the rank is checked against is `Ascending`, the levels in the
  order their documentation lists them.
- `message_prefix.dfy` — module `MessagePrefix`: the colours, the table
  `Infos`, `Padding`, `RenderMessagePrefix` and the lemmas about the shape of
  the prefix.

The colour functions (`Colors.magenta`, `blue`, `green`, `yellow`, `red` of
the terminal-styling library) are not modelled: `RenderMessagePrefix` takes a
`Styler` value holding five arbitrary `string -> string` transforms, and every
lemma holds for all of them. The table stores which colour each level uses;
`Styler.Apply` picks the transform. The table field `label` is called `text`
in the model because `label` is a Dafny keyword. The optional `groupDepth`
parameter is a `nat` with default value 0.

## Model

| member | source | states |
|---|---|---|
| `LogLevels.LevelToInt` | mod.ts:20-32 | the rank is within the five-entry order and is the position of the level in the ascending order debug, trace, info, warn, error |
| `LogLevels.RankInjective` | mod.ts:20-32 | two levels have the same rank exactly when they are the same level |
| `LogLevels.RankOfAscending` | mod.ts:9-32 | the level at position i of the documented ascending order has rank i |
| `LogLevels.TagInjective` | mod.ts:18 | distinct levels are written as distinct strings |
| `LogLevels.ComparisonsFollowAscending` | mod.ts:38-64 | each of the four comparisons on two levels holds exactly when the corresponding comparison holds between their positions in the ascending order |
| `LogLevels.ComparisonsAgree` | mod.ts:38-64 | `logGt(a,b) == logLt(b,a)`, `logGte(a,b) == logLte(b,a)`, `logGte == !logLt`, `logGt == !logLte`, and `logLte` is `logLt` or equality |
| `LogLevels.Trichotomy` | mod.ts:20-40 | for any two levels exactly one of `logLt(a,b)`, `a == b`, `logLt(b,a)` holds |
| `LogLevels.LogLteIsTotalOrder` | mod.ts:46-48 | `logLte` is reflexive, antisymmetric, transitive and total |
| `LogLevels.LogLtIsStrictTotalOrder` | mod.ts:38-40 | `logLt` is irreflexive, asymmetric, transitive and connected |
| `LogLevels.Extremes` | mod.ts:9-18 | debug is of lowest and error of highest priority |
| `MessagePrefix.TableLockStep` | mod.ts:71-92 | the rank of every level indexes an entry of the table, and that entry holds the level's own colour and its tag as label |
| `MessagePrefix.TableEntriesDistinct` | mod.ts:71-92 | no two table entries share a label or a colour |
| `MessagePrefix.PaddingOnlyInfoWarn` | mod.ts:103 | the padding is one space for info and warn and empty for the other levels |
| `MessagePrefix.PrefixStructure` | mod.ts:101-107 | the prefix is the style of the level applied to `[` + tag + `]`, then the padding, then `groupDepth` copies of the four-space indent; the style covers the bracketed label only |
| `MessagePrefix.SuffixIsSpaces` | mod.ts:101-107 | the prefix starts with the styled label and everything after it is spaces, 1 (info, warn) or 0 of padding plus 4 per group level |
| `MessagePrefix.DefaultDepthIsZero` | mod.ts:101-106 | omitting `groupDepth` gives the same prefix as passing 0, which has no indentation |
| `MessagePrefix.DeeperGroup` | mod.ts:104-106 | one more group level appends exactly one four-space indent |
| `MessagePrefix.DebugPrefix` | mod.ts:72-75 | the debug prefix is the magenta `[debug]`, with no padding and no indentation |
| `MessagePrefix.TracePrefix` | mod.ts:76-79 | the trace prefix at depth 1 is the blue `[trace]` followed by four spaces, with no padding |
| `MessagePrefix.ErrorPrefix` | mod.ts:88-91 | the error prefix is the red `[error]`, with no padding and no indentation |
| `MessagePrefix.InfoPrefix` | mod.ts:80-83 | the info prefix is the green `[info]` followed by one space |
| `MessagePrefix.WarnTwoGroupsDeep` | mod.ts:84-87 | the warn prefix at depth 2 is the yellow `[warn]`, one space, then eight spaces |
| `StringRepeat.Repeat` | mod.ts:105 | repeating a string n times gives a string n times as long |
| `StringRepeat.RepeatAt` | mod.ts:105 | position i of the j-th copy holds the i-th character of the repeated string |
| `StringRepeat.RepeatSnoc` | mod.ts:105 | repeating n+1 times is repeating n times followed by one more copy |
| `StringRepeat.RepeatUniform` | mod.ts:105 | repeating a string of one character gives only that character |

## Left out

- The colour functions of the terminal-styling library (ANSI escape codes, colour disabling by environment): they are an external dependency, so they are parameters (`Styler`) and their output is not modelled.
- Negative `groupDepth`: `String.prototype.repeat` raises a range error for it; the model types `groupDepth` as a natural number, so that error path is not modelled.
- Fractional `groupDepth`: `repeat` truncates a finite non-integer count; JavaScript numbers are not modelled, only natural numbers.
- RenderMessagePrefix, Repeat: `groupDepth` is an unbounded `nat`; the range error `repeat` raises for `Infinity` and for a result longer than the engine's maximum string length is not modelled, and neither is `NaN` (which `repeat` treats as 0).
- LevelToInt: the final `else` of the source ranks any value outside the five tags as 4, which an untyped JavaScript caller can reach; the closed `LogLevel` datatype has no such values.
- Writing the prefix anywhere (`console.log` and similar): the module performs no I/O.
