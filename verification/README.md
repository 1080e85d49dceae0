# Meta-information panel of the profiler, modelled in Dafny

The profiler's meta-information panel (`MetaInfoPanelImpl` in
`src/components/app/MenuButtons/MetaInfo.js`) turns a profile's metadata and
the current symbolication status into a read-only list of sections and rows.
This project models that projection as pure functions and proves what it
displays:

- **Symbolication status projector** (`Symbolication`): the two states
  `DONE` and `SYMBOLICATING`, the "Symbols:" sentence chosen by
  `meta.symbolicated`, the "(Re-)symbolicate profile" button shown only when
  done, and the exhaustiveness error for any other status tag.
- **Metadata projector** (`MetaInfo`): which rows appear (truthiness tests,
  `debug !== undefined`, non-empty lists), the fixed section and row order,
  and the strings the panel builds itself: the CPU sentence with
  pluralisation and a `", "` separator, `"N seconds"` / `"Unlimited"`, the
  buffer size `capacity * 8`, and the Build ID as text or link.
- **Decimal text** (`Decimal`): JavaScript's rendering of an integer
  concatenated into a string, with a parser proved to undo it.
- **Inputs and outputs** (`ProfileMeta`): the metadata record with optional
  fields, the closed `Status` datatype, the injected formatters, and the
  `Row` / `Section` datatypes. `Wrappers` holds `Option` and `Result`.

Modelling choices:

- Absent fields are `None`. JavaScript truthiness is written out:
  `TruthyInt` (absent or 0 is false), `TruthyReal` (absent or 0.0),
  `TruthyString` (absent or `""`).
- The formatting utilities `formatBytes`, `formatTimestamp`,
  `formatProductAndVersion`, `formatPlatform` and the locale-dependent
  `_formatDate` are function-valued fields of a `Formatters` value passed
  in. Nothing is assumed about them. For `formatPlatform`, only the check
  that its result is non-empty is modelled, because that check decides
  whether the OS row appears.
- The profiler-overhead payload is a type parameter `O`. It is handed
  unchanged to an `OverheadStatistics` section.
- Numbers the source joins into strings (CPU counts, buffer duration) go
  through `Decimal.IntToString`. Numbers it renders as bare children
  (profile version, visual metrics) become `Number` content.
- `render` calls `renderSymbolication`, so an unknown status makes the
  whole panel throw. `MetaInfo.RenderTagged` models this with a `Result`.
  `MetaInfo.Render` takes the closed `Status` and is total.
- Row presence follows the code: truthiness for most fields, so 0 and `""`
  hide rows; only `debug` is tested with `!== undefined`.

## Model

| member | source | states |
|---|---|---|
| `Decimal.NatToString` | src/components/app/MenuButtons/MetaInfo.js:107-116 | the decimal text of a count has at least one digit, only digits, and no leading zero |
| `Decimal.IntToString` | src/components/app/MenuButtons/MetaInfo.js:107-116 | an integer's text starts with '-' exactly when it is negative; every other character is a digit, so it contains no comma or space; the digits have no leading zero, and 0 is the single text "0" |
| `Decimal.IntToStringRoundTrip` | src/components/app/MenuButtons/MetaInfo.js:107-116 | parsing the decimal text of any integer gives back that integer |
| `Decimal.ParsedTextIsCanonical` | src/components/app/MenuButtons/MetaInfo.js:107-116 | the decimal text of an integer is the only text that reads back as that integer, so no leading zero, "-0" or sign variant stands for it |
| `Symbolication.RenderSymbolication` | src/components/app/MenuButtons/MetaInfo.js:51-87 | DONE gives exactly two rows: a "Symbols:" sentence, then a button labelled "Re-symbolicate profile" or "Symbolicate profile". SYMBOLICATING gives exactly one row and no button. Only the second row of DONE is a button |
| `Symbolication.ReadRenderedSymbolication` | src/components/app/MenuButtons/MetaInfo.js:55-87 | the displayed rows identify both the status and `meta.symbolicated`: the four combinations render distinguishably |
| `Symbolication.ParseStatus` | src/components/app/MenuButtons/MetaInfo.js:55-92 | only the tags "DONE" and "SYMBOLICATING" are accepted, each as its own state; any other tag is the "Unhandled SymbolicationStatus." error |
| `Symbolication.RenderSymbolicationTag` | src/components/app/MenuButtons/MetaInfo.js:55-93 | an unknown status tag fails with the exhaustiveness error instead of defaulting to either state; a known tag renders that state's rows |
| `MetaInfo.RowOfList` | src/components/app/MenuButtons/MetaInfo.js:262-278 | a list row is omitted exactly when the list is empty; otherwise its label is the name plus ':' and its items are the input list itself: same length and order, no deduplication |
| `MetaInfo.CapacityBytes` | src/components/app/MenuButtons/MetaInfo.js:152-154 | the byte count is a multiple of 8 and divides back to the capacity in entries |
| `MetaInfo.BufferDurationText` | src/components/app/MenuButtons/MetaInfo.js:156-161 | the text is "Unlimited" exactly when the duration is 0 |
| `MetaInfo.BufferDurationRoundTrip` | src/components/app/MenuButtons/MetaInfo.js:158-160 | reading back the duration text (`"N seconds"`, or "Unlimited" for 0) recovers the configured duration |
| `MetaInfo.CpuClause` | src/components/app/MenuButtons/MetaInfo.js:106-117 | a CPU clause is longer than its count's text, its last character is 's' exactly when the count is not 1, and it contains no comma |
| `MetaInfo.CpuClauseRoundTrip` | src/components/app/MenuButtons/MetaInfo.js:106-116 | a CPU clause reads back as its count, then " physical " or " logical " for its kind, then "core" for a count of 1 and "cores" for any other count |
| `MetaInfo.ReadCpuClauseExact` | src/components/app/MenuButtons/MetaInfo.js:106-116 | the clause for a count and kind is the only text that reads back as that count and kind |
| `MetaInfo.CpuText` | src/components/app/MenuButtons/MetaInfo.js:102-126 | the CPU text exists exactly when either count is truthy; it is the present clauses, physical before logical, joined by ", " |
| `MetaInfo.CpuSeparatorIffBoth` | src/components/app/MenuButtons/MetaInfo.js:118-124 | the CPU text contains ", " exactly when both counts are shown |
| `MetaInfo.BuildIdContent` | src/components/app/MenuButtons/MetaInfo.js:184-199 | the Build ID always reads as the build ID; it is a link exactly when `sourceURL` is non-empty, and the link targets `sourceURL` |
| `MetaInfo.BuildTypeText` | src/components/app/MenuButtons/MetaInfo.js:201-205 | the build type reads "Debug" exactly when `debug` is true and "Opt" exactly when it is false |
| `MetaInfo.Render` | src/components/app/MenuButtons/MetaInfo.js:128-258 | the panel is the untitled general section, then Application, then Platform, then Visual Metrics exactly when metrics exist, then the overhead view exactly when overhead data exists, carrying that payload |
| `MetaInfo.OverheadOnlyLast` | src/components/app/MenuButtons/MetaInfo.js:250-256 | a section is the overhead statistics view exactly when the profile has overhead data and it is the last section |
| `MetaInfo.RenderTagged` | src/components/app/MenuButtons/MetaInfo.js:96-168 | the whole panel fails with the exhaustiveness error for an unknown status tag and otherwise is the panel for that status |
| `MetaInfo.GeneralHeadings` | src/components/app/MenuButtons/MetaInfo.js:130-169 | the general section's rows are exactly those the presence table selects, in the order start time, interval, version, buffer capacity, buffer duration, features, threads filter, symbols, button |
| `MetaInfo.ApplicationHeadings` | src/components/app/MenuButtons/MetaInfo.js:170-210 | the Application rows are exactly the selected ones in the order product, update channel, build ID, build type, extensions; build type is selected whenever `debug` is defined, including false |
| `MetaInfo.PlatformHeadings` | src/components/app/MenuButtons/MetaInfo.js:211-226 | the Platform rows are exactly the selected ones in the order OS, ABI, CPU |
| `MetaInfo.PanelLayout` | src/components/app/MenuButtons/MetaInfo.js:128-249 | in the rendered panel, each fixed section shows exactly the selected headings in the fixed order, and Visual Metrics shows Speed Index, Perceptual and Contentful Speed Index in that order |
| `MetaInfo.GeneralRecordingContents` | src/components/app/MenuButtons/MetaInfo.js:131-148 | when truthy, the start time row shows the formatted date, the interval row shows `formatTimestamp(interval, 4, 1)`, and the version row shows the version |
| `MetaInfo.ConfigurationContents` | src/components/app/MenuButtons/MetaInfo.js:149-166 | with a configuration, the capacity row shows `formatBytes(capacity * 8, 0)`, the duration row shows the duration text, and the non-empty feature and thread lists are shown as given |
| `MetaInfo.GeneralBufferContents` | src/components/app/MenuButtons/MetaInfo.js:149-167 | the same buffer facts hold in the general section as a whole |
| `MetaInfo.GeneralSymbolsContents` | src/components/app/MenuButtons/MetaInfo.js:51-87 | the general section's "Symbols:" row shows the status sentence, and in DONE its button row shows the (re-)symbolicate caption |
| `MetaInfo.ProductContents` | src/components/app/MenuButtons/MetaInfo.js:172-177 | a truthy product shows `formatProductAndVersion(meta)` |
| `MetaInfo.ChannelContents` | src/components/app/MenuButtons/MetaInfo.js:178-183 | a truthy update channel is shown as is |
| `MetaInfo.BuildIdContents` | src/components/app/MenuButtons/MetaInfo.js:184-200 | in the Application section, the Build ID row reads as `appBuildID` and is a link to `sourceURL` exactly when that is non-empty |
| `MetaInfo.BuildTypeContents` | src/components/app/MenuButtons/MetaInfo.js:201-206 | a defined `debug` shows the build type text |
| `MetaInfo.ExtensionsContents` | src/components/app/MenuButtons/MetaInfo.js:207-209 | a non-empty extension name list is shown as given |
| `MetaInfo.PlatformContents` | src/components/app/MenuButtons/MetaInfo.js:100-126 | the OS row shows the formatted platform, the ABI row the ABI, and the CPU row the joined CPU clauses |
| `MetaInfo.VisualMetricsContents` | src/components/app/MenuButtons/MetaInfo.js:227-249 | visual metrics give exactly three rows in Speed Index, Perceptual, Contentful order, each passing its value through |

## Left out

- JSX markup, CSS class names and the stylesheet import are presentation only. The Build ID link's `title`, `target="_blank"` and `rel="noopener noreferrer"` attributes (lines 188-193), which open the source in a new context without an opener, are not modelled: `Link` carries only the target URL and the text. The inner `metaInfoSection` around the Features and Threads Filter rows (lines 162-165) is flattened into the general section's rows.
- The store binding (`explicitConnect`, the `getProfile` and `getSymbolicationStatus` selectors) and the `resymbolicateProfile` dispatch are store plumbing. The button is modelled only by its caption, not its click effect.
- `_formatDate`, `formatBytes`, `formatTimestamp`, `formatPlatform` and `formatProductAndVersion` are locale-dependent or not part of this model. They are injected as black-box `Formatters`.
- `MetaOverheadStatistics` is not part of this model. Only whether its section appears, and the payload handed to it, are modelled.
- Floating point: the start time, interval and visual metrics are `real`. NaN, which is also falsy in JavaScript, is not modelled. The text of non-integer numbers is left to the renderer (`Number` content).
- Decimal.IntToString: models JavaScript's integer-to-string only for integer values. The exponent notation JavaScript uses at 1e21 and above is not modelled, nor are fractional CPU counts or durations.
- React's duplicate-key warning for repeated list items (`key={d}`) is a development-time diagnostic. Items are kept as given.
