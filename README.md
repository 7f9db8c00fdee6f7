# Orion's Gate settings core, in Dafny

This project models the settings machinery of the Orion's Gate desktop
client (an Electron shell around YouTube) and proves properties of it:

- **the settings schema** (`SettingsSchema`, `SettingsCodec`): six sections
  (window, user agent, DPI proxy, adblock, interface, floating button) with
  their bounds, enumerations and defaults; the schema parser as a function
  from JavaScript values to typed settings; the object form a snapshot is
  written to disk as; and `clamp`;
- **the main-process store** (`DeepMerging`, `ButtonOrderMigration`,
  `SettingsStore`, `SessionEffects`): the recursive `deepMerge`, the
  button-order migration, `normalizeSettings`, `readFromDisk` and its
  fallback to the defaults, the lazily filled cache behind `getSettings`
  and `setSettings`, and the effects that `applyWindowSettings`,
  `applyUserAgent`, `applyDpiBypass` and `initializeSettings` have on the
  window, the two browser sessions and the command line;
- **the DPI proxy lifecycle** (`DpiManager`): the three-field state record
  with its `stopDpiProcess` and `ensureDemergi` transitions;
- **the overlay visibility store** (`OverlayStore`): four flags and the eight
  actions that set them;
- **the settings editor** (`SettingsEditor`): the draft that the settings
  overlay fills with `toNormalized`, the per-section `update*` reducers, the
  width, port and user-agent value rules, `moveItem` and button reordering,
  and what saving the draft commits.

Stateful code is modelled as classes: the store's cache, file and captured
user agent (`SettingsStore.Store`), the proxy state (`DpiManager.Manager`),
and the overlay flags (`OverlayStore.Store`). Loops and in-place array work
are methods proved against specification functions: the migration's
`includes`/`indexOf`/`splice` and `moveItem`'s copy-and-swap. Electron calls
are returned as lists of `Effect`s in the order they are issued. The disk,
the outcome of a write, the outcome of a first load of the proxy module, the
window's current bounds and the session's own user agent are inputs.

Behaviour of the code worth noting, which the model follows:

- Numeric fields are `real`: the schema's `z.number()` accepts fractions.
- A button order of five or six actions is valid even with repeated
  actions.
- `applyDpiBypass` appends the `proxy-server` switch on every successful
  call, not only on the first activation.
- When validation in `setSettings` fails, nothing is committed. The cache
  is still left holding the current snapshot, because the `getSettings`
  call that precedes validation fills an empty cache from disk.
- When the proxy already runs on another port, `ensureDemergi` reports
  success without restarting it. `applyDpiBypass` then points both sessions
  at the new port, where nothing listens.
- The proxy module is loaded once per process. `stopDpiProcess` only marks
  the proxy stopped, and Node keeps the loaded module, so a later
  `ensureDemergi` neither fails nor moves the proxy: it records a proxy
  running on the newly requested port while the proxy still listens on the
  port of the first load, and `applyDpiBypass` points both sessions there.
- The editor's proxy default is the schema default (demergi on port 8080).
  `defaultSettings` always holds a proxy and an adblock section, so the
  editor's own fallback (off on port 9880) is never used.

## Model

| member | source | states |
|---|---|---|
| SettingsSchema.Clamp | apps/desktop/src/shared/settings.ts:88 | The result lies in `[min, max]` whenever `min <= max`. A value already in range is returned unchanged. Below the range it gives `min`, above it gives `max`. The editor's own `clamp` (src/renderer/components/Overlay/SettingsOverlay.tsx:805-807) has the same formula, so it is this member too. |
| SettingsSchema.DefaultsValid | apps/desktop/src/shared/settings.ts:70-86 | `defaultSettings` satisfies the schema. Its button order holds each of the six actions exactly once. |
| SettingsCodec.DefaultsFromSchema | apps/desktop/src/shared/settings.ts:78-86 | Parsing six empty sections gives exactly the declared defaults of every field. |
| SettingsSchema.ValidSettings | apps/desktop/src/shared/settings.ts:5-74 | The bounds of the schema, section by section; adblock has none. Its contract is carried by `SettingsCodec.Parse` (whatever is accepted is valid) and `SettingsCodec.SettingsRoundTrip` (whatever is valid is accepted from its written form). |
| SettingsSchema.ValidNormalized | apps/desktop/src/main/settings.ts:19-26 | A snapshot with every section present and within the schema's bounds. `SettingsStore.Normalize`, `SettingsStore.LoadSettings` and `SettingsStore.Update` ensure it of every snapshot the store hands out. |
| SettingsCodec.Parse | apps/desktop/src/shared/settings.ts:5-74 | Whatever the parser accepts satisfies every bound of the schema. |
| SettingsCodec.SettingsRoundTrip | apps/desktop/src/shared/settings.ts:5-74 | Every value within the schema's bounds is what the parser returns for its object form. With `Parse`, the validity predicate is exactly the set of parser outputs. |
| SettingsCodec.ParseOfSections | apps/desktop/src/shared/settings.ts:5-74 | A document whose version and six sections each parse successfully parses to the record of those results. |
| SettingsCodec.ParseYieldsSections | apps/desktop/src/shared/settings.ts:5-74 | A successful parse is made of successful parses of each section. |
| SettingsCodec.ParseOfWritten | apps/desktop/src/shared/settings.ts:5-74 | An object holding version 1 and, for each section, the object form of a valid value or nothing parses to that value. |
| SettingsCodec.ParseOfForms | apps/desktop/src/shared/settings.ts:5-74 | A document holding version 1 and the object forms of a valid snapshot's six sections parses to that snapshot. |
| SettingsCodec.VersionChecked | apps/desktop/src/shared/settings.ts:6 | A present version other than the literal 1 rejects the whole document. An accepted document always has version 1, an absent version included. |
| SettingsCodec.NumberField | apps/desktop/src/shared/settings.ts:9 | An absent number takes its default. An accepted number lies within its bounds, and an in-range number is accepted as is. |
| SettingsCodec.NullableNumberField | apps/desktop/src/shared/settings.ts:10 | An absent height and an explicit `null` are both accepted as null. An in-range number is accepted as that number. Nothing else is accepted. |
| SettingsCodec.EnumField | apps/desktop/src/shared/settings.ts:11 | An absent value takes the default. The name of a member is accepted as that member. Anything else present is rejected. |
| SettingsCodec.StringField | apps/desktop/src/shared/settings.ts:22 | An absent string takes the default. A string within the length limit, when one is given, is accepted as it is. An accepted string never exceeds the limit. |
| SettingsCodec.ScaleField | apps/desktop/src/shared/settings.ts:49 | An absent scale is 1. A number is accepted exactly when it is one of the four scale literals, and then as that number. |
| SettingsCodec.ParseActions | apps/desktop/src/shared/settings.ts:3 | A list of names parses to the actions they name, position by position. It fails exactly when some item is not an action name. |
| SettingsCodec.ButtonOrderField | apps/desktop/src/shared/settings.ts:70 | An absent order is the default six-button order. An array is accepted exactly when it holds five or six action names, and then as the actions it names, in order. An accepted order is valid. |
| SettingsCodec.Section | apps/desktop/src/shared/settings.ts:17-18 | An absent section stays absent. An object whose fields parse is accepted as those fields. `null` and every other non-object are rejected. |
| SettingsCodec.WindowFields | apps/desktop/src/shared/settings.ts:8-16 | An accepted window section satisfies the window bounds. Each field it names holds the written form of the parsed value, so a named field keeps its value. Each field it leaves out takes the schema default. |
| SettingsCodec.UaFields | apps/desktop/src/shared/settings.ts:20-24 | An accepted user-agent section has a custom string of at most 512 characters. Each named field keeps its value, and each field left out takes the schema default. |
| SettingsCodec.DpiFields | apps/desktop/src/shared/settings.ts:28-33 | An accepted proxy section has a port in 1..65535. Each named field keeps its value, and each field left out takes the schema default. |
| SettingsCodec.AdblockFields | apps/desktop/src/shared/settings.ts:37-41 | Each named field of an adblock section keeps its value, and each field left out takes the schema default (enabled, full strength, cosmetics on). |
| SettingsCodec.UiFields | apps/desktop/src/shared/settings.ts:46-57 | An accepted interface section has a valid scale and a backdrop opacity in 0..0.4. Each named field keeps its value, and each field left out takes the schema default. |
| SettingsCodec.FabFields | apps/desktop/src/shared/settings.ts:61-71 | An accepted floating-button section has padding in 8..32, opacity in 0.6..1 and a valid order. Each named field keeps its value, and each field left out takes the schema default. |
| SettingsCodec.EmptySectionsDefault | apps/desktop/src/shared/settings.ts:8-71 | An empty object parses, in every section, to that section's declared defaults. |
| SettingsCodec.WidthOutOfBoundsRejected | apps/desktop/src/shared/settings.ts:9 | A window width outside 800..3840 rejects the whole document. |
| SettingsCodec.PortOutOfBoundsRejected | apps/desktop/src/shared/settings.ts:30 | A proxy port outside 1..65535 rejects the whole document. |
| SettingsCodec.ButtonOrderLengthRejected | apps/desktop/src/shared/settings.ts:70 | A button order with fewer than five or more than six entries rejects the whole document. |
| SettingsCodec.FabActionName | apps/desktop/src/shared/settings.ts:3 | Every action's name parses back to that action. |
| SettingsCodec.StartStateName | apps/desktop/src/shared/settings.ts:11 | Every start state's name parses back to it. |
| SettingsCodec.UaModeName | apps/desktop/src/shared/settings.ts:21 | Every user-agent mode's name parses back to it. |
| SettingsCodec.DpiModeName | apps/desktop/src/shared/settings.ts:29 | Every proxy mode's name parses back to it. |
| SettingsCodec.StrengthName | apps/desktop/src/shared/settings.ts:39 | Every adblock strength's name parses back to it. |
| SettingsCodec.LanguageName | apps/desktop/src/shared/settings.ts:47 | Every language's name parses back to it. |
| SettingsCodec.ThemeName | apps/desktop/src/shared/settings.ts:48 | Every theme's name parses back to it. |
| SettingsCodec.IconSetName | apps/desktop/src/shared/settings.ts:56 | Every icon set's name parses back to it. |
| SettingsCodec.PositionName | apps/desktop/src/shared/settings.ts:62 | Every button position's name parses back to it. |
| SettingsCodec.SizeName | apps/desktop/src/shared/settings.ts:64 | Every button size's name parses back to it. |
| SettingsCodec.ShapeName | apps/desktop/src/shared/settings.ts:65 | Every button shape's name parses back to it. |
| SettingsCodec.ActionsRoundTrip | apps/desktop/src/shared/settings.ts:70 | Writing a button order and parsing it back gives the same order. |
| SettingsCodec.WindowRoundTrip | apps/desktop/src/shared/settings.ts:8-16 | A valid window section survives writing and parsing. |
| SettingsCodec.UaRoundTrip | apps/desktop/src/shared/settings.ts:20-24 | A valid user-agent section survives writing and parsing. |
| SettingsCodec.DpiRoundTrip | apps/desktop/src/shared/settings.ts:28-33 | A valid proxy section survives writing and parsing. |
| SettingsCodec.AdblockRoundTrip | apps/desktop/src/shared/settings.ts:37-41 | Every adblock section survives writing and parsing. |
| SettingsCodec.UiRoundTrip | apps/desktop/src/shared/settings.ts:46-57 | A valid interface section survives writing and parsing. |
| SettingsCodec.FabRoundTrip | apps/desktop/src/shared/settings.ts:61-71 | A valid floating-button section survives writing and parsing. |
| SettingsCodec.SettingsToJsonKeys | apps/desktop/src/main/settings.ts:83 | The written object has no keys besides the version and the six sections. |
| SettingsCodec.SectionFormsCover | apps/desktop/src/main/settings.ts:7-17 | Any full section's object form, merged over another of the same section, replaces it entirely. |
| SettingsCodec.DpiFormWithPort | apps/desktop/src/main/settings.ts:153 | Setting the port key of a proxy section's object form is setting the section's port. |
| DeepMerging.DeepMerge | apps/desktop/src/main/settings.ts:7-17 | The result has the target's keys plus the source's defined keys. A key the source leaves undefined keeps the target's value. Arrays, scalars and `null` replace the target's value. Plain objects stay objects. Merging `{}` returns the target. |
| DeepMerging.MergeKeepsField | apps/desktop/src/main/settings.ts:12 | A key the source leaves undefined reads the same after the merge. |
| DeepMerging.MergeOneLeaf | apps/desktop/src/main/settings.ts:12-13 | Merging a single defined non-object value sets that one key. |
| DeepMerging.LeavesCover | apps/desktop/src/main/settings.ts:7-17 | A source of leaves naming every key of the target replaces the target entirely. |
| DeepMerging.DeepMergeIdempotent | apps/desktop/src/main/settings.ts:7-17 | Merging the same source twice is merging it once. |
| DeepMerging.CoveringSourceWins | apps/desktop/src/main/settings.ts:7-17 | A source defining every key of the target, at every depth, is the result of the merge. |
| DeepMerging.MergeOfCloneIsMerge | apps/desktop/src/main/settings.ts:153 | Merging a fresh copy of the partial is the same as merging the partial itself. |
| ButtonOrderMigration.IndexOf | apps/desktop/src/main/settings.ts:35 | The result is -1 exactly when the element is absent. Otherwise it is the first position holding it. |
| ButtonOrderMigration.Migrate | apps/desktop/src/main/settings.ts:32-40 | The migrated order has six entries where the migration applies, and the same length elsewhere. |
| ButtonOrderMigration.MigrateInserts | apps/desktop/src/main/settings.ts:36-38 | Where it applies, `refresh` lands right after the first `forward`. The entries before and after keep their places, and the multiset gains exactly `refresh`. |
| ButtonOrderMigration.MigrateLeavesOthers | apps/desktop/src/main/settings.ts:33-39 | A length other than five, `refresh` already present, or no `forward`: the order is returned untouched. |
| ButtonOrderMigration.MigrateIdempotent | apps/desktop/src/main/settings.ts:33-39 | Migrating twice is migrating once. |
| ButtonOrderMigration.MigratePreservesValidity | apps/desktop/src/main/settings.ts:32-40 | The migration keeps a valid button order valid. Whenever it changes the order, `refresh` is in the result. |
| ButtonOrderMigration.Includes | apps/desktop/src/main/settings.ts:33 | The linear search answers exactly membership. |
| ButtonOrderMigration.FindIndex | apps/desktop/src/main/settings.ts:35 | The linear search returns `indexOf`. |
| ButtonOrderMigration.InsertAt | apps/desktop/src/main/settings.ts:37 | Splicing into a grown array shifts the tail right by one and puts the element at the position. |
| ButtonOrderMigration.SpliceRefresh | apps/desktop/src/main/settings.ts:34-39 | The copy, search and splice steps compute exactly the migration. |
| SettingsStore.Normalize | apps/desktop/src/main/settings.ts:28-51 | The result keeps the version. It is valid when the input is, and it is always settled: its button order is a fixed point of the migration. |
| SettingsStore.NormalizeSettings | apps/desktop/src/main/settings.ts:28-51 | Copying and splicing the order computes `Normalize`. |
| SettingsStore.NormalizeDefaults | apps/desktop/src/main/settings.ts:78 | Normalising the defaults gives the six default sections. |
| SettingsStore.NormalizeSettledFixed | apps/desktop/src/main/settings.ts:28-51 | A settled snapshot is a fixed point of normalisation. |
| SettingsStore.NormalizeIdempotent | apps/desktop/src/main/settings.ts:28-51 | Normalising twice is normalising once. |
| SettingsStore.MigrateDocument | apps/desktop/src/main/settings.ts:63-71 | The migration on the raw document touches only the `fab` key and keeps every key. |
| SettingsStore.MigrateDocumentInPlace | apps/desktop/src/main/settings.ts:63-71 | Copying and splicing the document's array computes `MigrateDocument`. |
| SettingsStore.IndexOfEncoded | apps/desktop/src/main/settings.ts:66 | Searching the written order for an action's name finds the action's position in the typed order. |
| SettingsStore.MigrateCommutesWithEncoding | apps/desktop/src/main/settings.ts:63-71 | Migrating the written order gives the written form of the migrated typed order. The two migrations agree. |
| SettingsStore.MigrateDocumentOfForm | apps/desktop/src/main/settings.ts:63-71 | Migrating a snapshot's written object is writing the snapshot with its order migrated. |
| SettingsStore.MigrateDocumentSettled | apps/desktop/src/main/settings.ts:63-71 | The document migration leaves a settled snapshot's written object alone. |
| SettingsStore.MergeOntoDefaultsFills | apps/desktop/src/main/settings.ts:61 | Merging a schema value onto the defaults fills in exactly its absent sections. |
| SettingsStore.NormalizeIsMergeOntoDefaults | apps/desktop/src/main/settings.ts:61-73 | The typed normalisation agrees with the store's document pipeline: merge onto the defaults, then migrate. |
| SettingsStore.LoadSettings | apps/desktop/src/main/settings.ts:56-79 | A read always yields a valid, settled snapshot. It yields exactly the defaults when the file is missing or not JSON. |
| SettingsStore.RejectedFileLoadsDefaults | apps/desktop/src/main/settings.ts:75-78 | A file that fails validation loads as the defaults. |
| SettingsStore.SnapshotFormsCover | apps/desktop/src/main/settings.ts:61 | The written object of any snapshot defines every key of another's, at every depth. |
| SettingsStore.SavedSnapshotReloads | apps/desktop/src/main/settings.ts:81-87 | What the store writes for a valid, settled snapshot reads back as that snapshot. |
| SettingsStore.Update | apps/desktop/src/main/settings.ts:151-155 | The committed snapshot has version 1, is valid and is settled. An update is rejected exactly when the merged document fails validation. |
| SettingsStore.UpdateWithNothing | apps/desktop/src/main/settings.ts:151-155 | An empty partial commits the current snapshot unchanged. |
| SettingsStore.UpdateDocumentAt | apps/desktop/src/main/settings.ts:153-154 | Inside a section, the validated document is the partial merged onto the current snapshot. |
| SettingsStore.UpdateDocumentKeeps | apps/desktop/src/main/settings.ts:153 | A section the partial does not name is copied from the current snapshot. |
| SettingsStore.UpdateKeepsUnnamedFields | apps/desktop/src/main/settings.ts:153 | Inside the validated document, a field that the partial does not name keeps its current value. The per-section lemmas below lift this to the committed snapshot. |
| SettingsStore.UpdateKeepsUnnamedSections | apps/desktop/src/main/settings.ts:151-155 | A section the partial does not name comes out of a successful update as it was. |
| SettingsStore.UpdateKeepsUnnamedWindowFields | apps/desktop/src/main/settings.ts:151-155 | When the partial names the window section, every window field it leaves out is committed with its current value. |
| SettingsStore.UpdateKeepsUnnamedUaFields | apps/desktop/src/main/settings.ts:151-155 | The same for the user-agent section. |
| SettingsStore.UpdateKeepsUnnamedDpiFields | apps/desktop/src/main/settings.ts:151-155 | The same for the proxy section. |
| SettingsStore.UpdateKeepsUnnamedAdblockFields | apps/desktop/src/main/settings.ts:151-155 | The same for the adblock section. |
| SettingsStore.UpdateKeepsUnnamedUiFields | apps/desktop/src/main/settings.ts:151-155 | The same for the interface section. |
| SettingsStore.UpdateKeepsUnnamedFabFields | apps/desktop/src/main/settings.ts:151-155 | The same for the floating-button section. A button order left out stays as it was, because the current order is already migrated. |
| SettingsStore.UpdateOfForms | apps/desktop/src/main/settings.ts:151-155 | An update whose merged document holds the object form of every section of a valid, settled snapshot commits exactly that snapshot. |
| SettingsStore.UpdatePortOnly | apps/desktop/src/main/settings.ts:151-155 | Setting only an allowed proxy port commits the current snapshot with exactly that field changed. |
| SettingsStore.UpdateRejectsBadPort | apps/desktop/src/main/settings.ts:155 | A port outside 1..65535 is rejected. |
| SettingsStore.ValidateUpdate | apps/desktop/src/main/settings.ts:152-155 | Clone, merge, version and parse steps compute `Update`. |
| SettingsStore.Store.constructor | apps/desktop/src/main/settings.ts:54 | At start nothing is cached, no user agent is captured and the file has not been read. |
| SettingsStore.Store.ReadFromDisk | apps/desktop/src/main/settings.ts:56-79 | One read of the file, returning `LoadSettings` of it. |
| SettingsStore.Store.GetSettings | apps/desktop/src/main/settings.ts:144-149 | An empty cache is filled by exactly one read. A filled cache is returned without touching the file. The cache always holds the result afterwards. |
| SettingsStore.Store.SetSettings | apps/desktop/src/main/settings.ts:151-160 | The result is `Update` of the current snapshot. On success the cache holds it and the file holds its JSON when the write succeeds. The proxy makes the `ensureDemergi` transition for the new proxy section, and the effects follow whether it ends up running. On a validation error nothing is committed, the proxy is untouched and no effect is issued. |
| SettingsStore.Store.UpdateFrom | apps/desktop/src/main/settings.ts:153-158 | From the snapshot `getSettings` returned, the result is `Update` of it. On success the cache, the file and the proxy are committed as in `Commit`. On failure nothing changes: the cache, the file and the proxy stay as they were and no effect is issued. |
| SettingsStore.Store.Commit | apps/desktop/src/main/settings.ts:156-158 | Committing sets the cache, writes the file and makes the proxy's `ensureDemergi` transition, in that order. The cache invariant is kept. |
| SettingsStore.Store.WriteToDisk | apps/desktop/src/main/settings.ts:81-87 | The file holds the snapshot's JSON after a successful write, and is unchanged after a failed one. |
| SettingsStore.CapturedUserAgent | apps/desktop/src/main/settings.ts:202-203 | Afterwards a user agent is always captured. A non-empty captured one is kept; otherwise the session's own is taken, so the capture is empty only when the session's own user agent is. |
| SettingsStore.CaptureOnce | apps/desktop/src/main/settings.ts:202-203 | Once a non-empty session user agent is captured, later calls keep it whatever the session reports. |
| SettingsStore.Store.ApplyUserAgent | apps/desktop/src/main/settings.ts:196-215 | The session's user agent is captured the first time only. Both sessions then get the user agent chosen for the mode. |
| SettingsStore.Store.Initialize | apps/desktop/src/main/settings.ts:217-222 | Startup reads the settings through the cache without writing the file. The session's user agent is captured unless a non-empty one already was. The proxy makes its transition for the snapshot's proxy section. The effects are the window plan, the user agent without reload and the proxy plan of that snapshot. |
| SettingsStore.Store.ApplySnapshot | apps/desktop/src/main/settings.ts:218-221 | The three applications of `initializeSettings`: the window plan, the user agent captured by the first-capture rule and applied without reload, and the proxy transition with its effects. |
| SessionEffects.WindowPlanBounds | apps/desktop/src/main/settings.ts:162-178 | Without a window nothing happens. Otherwise come resizable, minimum size and always-on-top, then bounds at the same position with the width clamped between the minimum and 3840. The height is clamped between the minimum and 2160 when a non-zero height is stored; otherwise the current height is kept. Maximized maximizes, normal unmaximizes, and last does neither. Valid settings keep the window within its limits. |
| SessionEffects.ApplyWindowSettings | apps/desktop/src/main/settings.ts:162-178 | The call sequence is the window plan. |
| SessionEffects.SkipLeading | apps/desktop/src/main/settings.ts:188 | Everything skipped is white space, and the text resumes at a character that is not. |
| SessionEffects.SkipTrailing | apps/desktop/src/main/settings.ts:188 | Everything dropped from the end is white space, and what is kept ends with a character that is not. |
| SessionEffects.TrimEnds | apps/desktop/src/main/settings.ts:188 | The trimmed prefix and suffix are white space, and nothing is left exactly when the whole string is white space. |
| SessionEffects.Trim | apps/desktop/src/main/settings.ts:188 | The result is the slice between leading and trailing white space. It is empty exactly when the string is all white space. |
| SessionEffects.UserAgentValue | apps/desktop/src/main/settings.ts:180-194 | Desktop and Android modes give their fixed strings, and the default mode gives the session's own user agent. Custom mode gives the trimmed string, or the desktop string when nothing is left, so it is never empty. |
| SessionEffects.UserAgentEffectsShape | apps/desktop/src/main/settings.ts:202-214 | Both sessions get the user agent first. The cache is cleared exactly on a reload, and the page reloads exactly on a reload with a window. |
| SessionEffects.ProxyPlan | apps/desktop/src/main/settings.ts:94-131 | Both sessions end direct, unless the mode is demergi and the proxy is up; then they end on the local port with the bypass list. The `proxy-server` switch appears exactly in the latter case, and the bypass switch only with a non-empty list. Nothing else is issued. |
| SessionEffects.ApplyDpiBypass | apps/desktop/src/main/settings.ts:89-134 | The proxy ends in the `ensureDemergi` state for the settings. Off, or demergi without auto-start, stops the proxy, starts nothing and sets both sessions direct. Demergi with auto-start starts a stopped proxy once and leaves a running one untouched. The effects follow whether the proxy ends up running. A port change while running points the sessions at a port the proxy does not serve. So does a new port after the module was loaded once, even across a stop: the start is recorded as running on the new port, and the module stays loaded on its first port. |
| DpiManager.Manager.constructor | src/main/dpiManager.ts:28-32 | Initially the proxy is not running, the mode is off and there is no port. |
| DpiManager.ProxyAfter | src/main/dpiManager.ts:45-95 | The recorded state: running afterwards only for demergi with auto-start, and otherwise the initial stopped state. A proxy recorded as running for demergi with auto-start is kept as it was. A stopped proxy for demergi with auto-start is recorded as running exactly when requiring the proxy module does not throw, and then on the requested port, which need not be the port it listens on; otherwise it stays stopped. |
| DpiManager.ProxyAfterConsistent | src/main/dpiManager.ts:45-95 | The transition keeps running, demergi mode and a known port together. |
| DpiManager.ProxyAfterIdempotent | src/main/dpiManager.ts:45-95 | A second identical request, with the same loading outcome, changes nothing. |
| DpiManager.StopAfterAnyRequest | src/main/dpiManager.ts:34-50 | Whatever a request left behind, a request with the mode off returns to the initial state. |
| DpiManager.Manager.StopDpiProcess | src/main/dpiManager.ts:34-43 | Afterwards the proxy is stopped, off and without a port. A stopped proxy is left untouched, so stopping twice is stopping once. |
| DpiManager.Manager.EnsureDemergi | src/main/dpiManager.ts:45-95 | The new state is `ProxyAfter` of the old one. A non-demergi mode or no auto-start stops the proxy and reports false. A running proxy, on any port, reports true and nothing changes. Otherwise one start is attempted. Before the module was ever loaded, its load decides: success records running demergi on the requested port and loads the module there; failure gives stopped. Once the module is loaded, the start always succeeds and is recorded on the requested port, while the module stays on the port of its first load. The result is whether the proxy is recorded as running, and the invariant running ⇔ demergi ⇔ port known, with running ⇒ loaded, is kept. |
| DpiManager.Manager.Loads | src/main/dpiManager.ts:82 | Requiring the proxy module cannot throw once it is loaded; before that, the outcome of the first load decides. |
| DpiManager.RestartKeepsFirstPort | src/main/dpiManager.ts:34-95 | Starting on 8080, stopping, then starting on 9090 records a proxy running on 9090 while the module stays loaded on 8080, whatever a fresh load would have done. |
| DpiManager.Manager.GetDpiState | src/main/dpiManager.ts:97-101 | The reported running flag, mode and port are the current ones, and so obey the invariant. |
| OverlayStore.Store.constructor | src/renderer/state/overlayStore.ts:19-22 | All four flags start false. |
| OverlayStore.Store.OpenPanel | src/renderer/state/overlayStore.ts:23 | Opens the panel and changes nothing else. |
| OverlayStore.Store.TogglePanel | src/renderer/state/overlayStore.ts:24 | Flips only the panel flag. |
| OverlayStore.Store.ClosePanel | src/renderer/state/overlayStore.ts:25 | Clears only the panel flag. |
| OverlayStore.Store.OpenSearch | src/renderer/state/overlayStore.ts:26 | Opens search and closes the panel, leaving settings and diagnostics alone. |
| OverlayStore.Store.CloseSearch | src/renderer/state/overlayStore.ts:27 | Clears only the search flag. |
| OverlayStore.Store.OpenSettings | src/renderer/state/overlayStore.ts:28 | Opens settings and closes the panel, leaving search and diagnostics alone. |
| OverlayStore.Store.CloseSettings | src/renderer/state/overlayStore.ts:29 | Clears only the settings flag. |
| OverlayStore.Store.ToggleDiagnostics | src/renderer/state/overlayStore.ts:30 | Flips only the diagnostics flag. |
| OverlayStore.TogglesUndo | src/renderer/state/overlayStore.ts:24-30 | Toggling the panel twice and diagnostics twice restores every flag. |
| OverlayStore.ClosePanelIdempotent | src/renderer/state/overlayStore.ts:25 | The state after a second close equals the state after the first, which is the old state with the panel closed. |
| OverlayStore.CloseOverlaysIdempotent | src/renderer/state/overlayStore.ts:27-29 | The state after closing search and settings a second time equals the state after the first round, which is the old state with both closed. |
| SettingsEditor.EditorDefaultsAgree | src/renderer/components/Overlay/SettingsOverlay.tsx:30-77 | The editor's copies of the defaults equal the schema's. Its proxy default is the schema's demergi on 8080, never its fallback. |
| SettingsEditor.ToNormalized | src/renderer/components/Overlay/SettingsOverlay.tsx:79-87 | The draft has version 1. Every section the incoming settings hold is taken as it is, and every missing one is the schema's default. Valid settings give a valid draft. |
| SettingsEditor.ToNormalizedIsNormalizeWithoutMigration | src/renderer/components/Overlay/SettingsOverlay.tsx:79-87 | For version-1 settings, the editor's draft is the store's normalisation without the button-order migration. Valid settings give a valid draft, and a settled draft equals the store's normalisation. |
| SettingsEditor.ToNormalizedOfSnapshot | src/renderer/components/Overlay/SettingsOverlay.tsx:79-87 | A store snapshot opened in the editor is the draft unchanged. |
| SettingsEditor.UpdateWindow | src/renderer/components/Overlay/SettingsOverlay.tsx:109-110 | `updateWindow` changes only the window section. Each field the patch supplies takes the supplied value, and every other field keeps its value; an in-bounds patch keeps a valid draft valid. |
| SettingsEditor.UpdateUa | src/renderer/components/Overlay/SettingsOverlay.tsx:111-112 | `updateUA` changes only the ua section. Each field the patch supplies takes the supplied value, and every other field keeps its value; a custom string of at most 512 characters keeps a valid draft valid. |
| SettingsEditor.UpdateDpi | src/renderer/components/Overlay/SettingsOverlay.tsx:113-114 | `updateDpi` changes only the dpi section. Each field the patch supplies takes the supplied value, and every other field keeps its value; a port in 1..65535 keeps a valid draft valid. |
| SettingsEditor.UpdateAdblock | src/renderer/components/Overlay/SettingsOverlay.tsx:115-116 | `updateAdblock` changes only the adblock section. Each field the patch supplies takes the supplied value, and every other field keeps its value; every patch keeps a valid draft valid. |
| SettingsEditor.UpdateUi | src/renderer/components/Overlay/SettingsOverlay.tsx:118-119 | `updateUI` changes only the ui section. Each field the patch supplies takes the supplied value, and every other field keeps its value; an allowed scale and opacity keep a valid draft valid. |
| SettingsEditor.UpdateFab | src/renderer/components/Overlay/SettingsOverlay.tsx:120-121 | `updateFab` changes only the fab section. Each field the patch supplies takes the supplied value, and every other field keeps its value; an in-bounds padding and opacity and a valid order keep a valid draft valid. |
| SettingsEditor.UpdateWindowLaws | src/renderer/components/Overlay/SettingsOverlay.tsx:109-110 | `updateWindow` changes only the window section, and an empty patch changes nothing. Two patches in a row are their combination, so repeating a patch is applying it once. In-bounds values keep a valid draft valid and a settled draft settled. |
| SettingsEditor.UpdateUaLaws | src/renderer/components/Overlay/SettingsOverlay.tsx:111-112 | The same laws for `updateUA`; a custom string of at most 512 characters keeps the draft valid. |
| SettingsEditor.UpdateDpiLaws | src/renderer/components/Overlay/SettingsOverlay.tsx:113-114 | The same laws for `updateDpi`; a port in 1..65535 keeps the draft valid. |
| SettingsEditor.UpdateAdblockLaws | src/renderer/components/Overlay/SettingsOverlay.tsx:115-116 | The same laws for `updateAdblock`; any adblock patch keeps the draft valid. |
| SettingsEditor.UpdateUiLaws | src/renderer/components/Overlay/SettingsOverlay.tsx:118-119 | The same laws for `updateUI`; an allowed scale and opacity keep the draft valid. |
| SettingsEditor.UpdateFabLaws | src/renderer/components/Overlay/SettingsOverlay.tsx:120-121 | The same laws for `updateFab`; a patch without a new order keeps a settled draft settled. |
| SettingsEditor.ApplyWidth | src/renderer/components/Overlay/SettingsOverlay.tsx:144-148 | Only the draft's width changes. The new width lies in 800..3840, equals the value when in range and the nearer bound otherwise. A valid draft stays valid. |
| SettingsEditor.CustomWidthCommitted | src/renderer/components/Overlay/SettingsOverlay.tsx:529 | Leaving the custom-width field applies the typed width. A valid draft stays valid, and an empty, zero or non-numeric entry leaves it unchanged. |
| SettingsEditor.PortEdited | src/renderer/components/Overlay/SettingsOverlay.tsx:311-312 | Only the port changes, and it lands in 1..65535 whatever the draft held. An in-range entry is taken as is. An empty, zero or non-numeric entry keeps a valid draft unchanged. The draft is valid afterwards whenever its other sections are. |
| SettingsEditor.ApplyUa | src/renderer/components/Overlay/SettingsOverlay.tsx:150-154 | Only the mode and the custom string change. The custom string survives only in custom mode, falling back to the saved string when none is given; any other mode clears it. A custom string of at most 512 characters (the field's limit) keeps the draft valid. |
| SettingsEditor.MoveTarget | src/renderer/components/Overlay/SettingsOverlay.tsx:13 | The target is the neighbour when it exists, and is clamped to the first or last position otherwise. |
| SettingsEditor.MovedPermutes | src/renderer/components/Overlay/SettingsOverlay.tsx:11-18 | The result has the same length and the same entries. The entry and its neighbour are exchanged, every other position is unchanged, and moving outward at an edge changes nothing. |
| SettingsEditor.MoveBackRestores | src/renderer/components/Overlay/SettingsOverlay.tsx:11-18 | Moving an entry and then moving it back restores the list. |
| SettingsEditor.MoveItem | src/renderer/components/Overlay/SettingsOverlay.tsx:11-18 | Copying into a fresh array and swapping the two cells computes the specified move. The input is not modified. |
| SettingsEditor.ReorderButton | src/renderer/components/Overlay/SettingsOverlay.tsx:162-165 | Only the button order changes, and it keeps its entries. A valid draft stays valid and a settled one stays settled. |
| SettingsEditor.PermutationKeepsSettled | src/renderer/components/Overlay/SettingsOverlay.tsx:162-165 | Whether the migration applies depends only on the entries of an order, so a reordered settled order stays settled. |
| SettingsEditor.SavePartial | src/renderer/components/Overlay/SettingsOverlay.tsx:124-135 | The saved partial names the six sections and no version. |
| SettingsEditor.SavedSectionAt | src/renderer/components/Overlay/SettingsOverlay.tsx:124-135 | Each section the editor sends replaces the store's section whole. |
| SettingsEditor.SaveCommitsDraft | src/renderer/components/Overlay/SettingsOverlay.tsx:124-135 | Saving a valid, settled draft commits exactly the draft, whatever the store held before. |

## Left out

- File I/O and JSON text are abstracted. The settings file is `Missing`, `Corrupt` (not JSON) or holds a parsed value. Whether a write succeeds is an input. The file's formatting is not modelled.
- Electron windows, sessions and the command line are modelled as returned effect lists. The window's bounds and the session's own user agent are inputs. `session.getUserAgent` is read once, as `applyUserAgent` does.
- The asynchronous, fire-and-forget calls (`void applyDpiBypass`, the cache clear) are treated as sequential. Interleavings and last-write-wins races are not modelled.
- Logging is left out.
- `process.env` settings for the proxy module, and the module load itself, are left out. The first load's success or failure is an input. Node's module cache is the manager's `loadedOn`: a loaded module is never loaded again.
- Numbers are unbounded reals. `NaN`, infinities and `-0` are not modelled; a text that is not a number is `None` in `NumberOr`.
- String lengths count characters, not UTF-16 code units. The 512-character limit of the user-agent string is checked on that count.
- JavaScript values that are neither JSON nor `undefined` are not modelled. Examples are functions, class instances and arrays as merge targets; a non-object merge target counts as `{}`.
- SettingsEditor.ToNormalized: an incoming section is taken as complete, as the schema produces it. A partial section spread field by field over the editor default is not modelled.
- SettingsEditor.UpdateWindow: a supplied field is a value, never an explicit `undefined`. The same holds for the other five reducers.
- SettingsEditor.MoveItem: requires an index inside the list and a direction of -1 or 1, which are the only calls the editor makes. An out-of-range index would grow a JavaScript array and is not modelled.
- The editor's text state (`customWidth`, `customUA`), the reset of the draft when the saved settings change, `handleCancel`, the width presets and all JSX are UI-only and left out.
- src/shared/settings.ts, which the editor imports, is not part of this model. It is taken to hold the same schema and defaults as apps/desktop/src/shared/settings.ts.
- The startup connectivity probe and DPI sequence, the IPC bridges, the preload scripts and the renderer's CSS-variable settings store are outside the modelled core.
