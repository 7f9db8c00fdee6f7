/**
 * The main-process settings store: normalisation onto the defaults, loading
 * the settings file, the update pipeline of `setSettings`, and the lazily
 * filled cache behind `getSettings`.
 *
 * The settings file is a `DiskFile` the store holds; whether a write
 * reaches the disk, whether the proxy module loads, the window's bounds and
 * the session's own user agent are inputs of the operations that need them.
 */
module SettingsStore {
  import opened Wrappers
  import opened JsonValues
  import opened DeepMerging
  import opened SettingsSchema
  import opened SettingsCodec
  import opened ButtonOrderMigration
  import opened DpiManager
  import opened SessionEffects

  // Normalisation

  /** The six default sections, as `normalizeSettings(defaultSettings)` yields them. */
  const Defaults: Normalized := Normalized(1, DefaultWindow, DefaultUa, DefaultDpi, DefaultAdblock, DefaultUi, DefaultFab)

  /** The button-order migration on actions. */
  function MigrateOrder(order: seq<FabAction>): seq<FabAction>
  {
    Migrate(order, ForwardAction, RefreshAction)
  }

  /** A snapshot whose button order the migration leaves as it is. */
  predicate Settled(n: Normalized)
  {
    MigrateOrder(n.fab.buttonOrder) == n.fab.buttonOrder
  }

  /**
   * `normalizeSettings`: every absent section takes its default, and the
   * button order is migrated. The result is always settled, and valid when
   * the input is.
   */
  function Normalize(raw: Settings): (n: Normalized)
    ensures n.version == raw.version
    ensures ValidSettings(raw) ==> ValidNormalized(n)
    ensures Settled(n)
  {
    var fab := raw.fab.GetOr(DefaultFab);
    MigrateIdempotent(fab.buttonOrder, ForwardAction, RefreshAction);
    MigratePreservesValidity(fab.buttonOrder);
    Normalized(
      raw.version,
      raw.window.GetOr(DefaultWindow),
      raw.ua.GetOr(DefaultUa),
      raw.dpi.GetOr(DefaultDpi),
      raw.adblock.GetOr(DefaultAdblock),
      raw.ui.GetOr(DefaultUi),
      fab.(buttonOrder := MigrateOrder(fab.buttonOrder)))
  }

  /** `normalizeSettings` as the store runs it: the button order is copied and spliced. */
  method NormalizeSettings(raw: Settings) returns (n: Normalized)
    ensures n == Normalize(raw)
  {
    var fab := raw.fab.GetOr(DefaultFab);
    var order := SpliceRefresh(fab.buttonOrder, ForwardAction, RefreshAction);
    n := Normalized(
      raw.version,
      raw.window.GetOr(DefaultWindow),
      raw.ua.GetOr(DefaultUa),
      raw.dpi.GetOr(DefaultDpi),
      raw.adblock.GetOr(DefaultAdblock),
      raw.ui.GetOr(DefaultUi),
      fab.(buttonOrder := order));
  }

  /** Normalising the defaults gives the defaults. */
  lemma NormalizeDefaults()
    ensures Normalize(DefaultSettings) == Defaults
  {
    assert !Applies(DefaultButtonOrder, ForwardAction, RefreshAction);
  }

  /** A settled snapshot is a fixed point of normalisation; in particular normalising twice is normalising once. */
  lemma NormalizeSettledFixed(n: Normalized)
    requires Settled(n)
    ensures Normalize(Widen(n)) == n
  {
  }

  /** Every snapshot of the store is exactly one normalisation leaves alone. */
  lemma NormalizeIdempotent(raw: Settings)
    ensures Normalize(Widen(Normalize(raw))) == Normalize(raw)
  {
    NormalizeSettledFixed(Normalize(raw));
  }

  // The migration on the raw document

  /**
   * The migration as `readFromDisk` runs it on the merged document before
   * validation: only a five-element `fab.buttonOrder` array is touched.
   */
  function MigrateDocument(m: map<string, Json>): (r: map<string, Json>)
    ensures r.Keys == m.Keys
    ensures forall k :: k in m && k != "fab" ==> r[k] == m[k]
  {
    var fab := Field(m, "fab");
    if fab.Obj? && Field(fab.fields, "buttonOrder").Arr? && |fab.fields["buttonOrder"].items| == 5 then
      var items := fab.fields["buttonOrder"].items;
      m["fab" := Obj(fab.fields["buttonOrder" := Arr(Migrate(items, Str("forward"), Str("refresh")))])]
    else
      m
  }

  /** The same, copying and splicing the array. */
  method MigrateDocumentInPlace(m: map<string, Json>) returns (r: map<string, Json>)
    ensures r == MigrateDocument(m)
  {
    r := m;
    var fab := Field(m, "fab");
    if fab.Obj? && Field(fab.fields, "buttonOrder").Arr? && |fab.fields["buttonOrder"].items| == 5 {
      var order := SpliceRefresh(fab.fields["buttonOrder"].items, Str("forward"), Str("refresh"));
      r := m["fab" := Obj(fab.fields["buttonOrder" := Arr(order)])];
    }
  }

  /** Looking an action up by name in the encoded order finds it where it is in the order. */
  lemma {:induction false} IndexOfEncoded(order: seq<FabAction>, a: FabAction)
    ensures IndexOf(ActionsToJson(order), Str(FabActionName(a))) == IndexOf(order, a)
  {
    if order != [] {
      IndexOfEncoded(order[1..], a);
      assert ActionsToJson(order)[1..] == ActionsToJson(order[1..]);
      if FabActionName(order[0]) == FabActionName(a) {
        assert FabActionFromName(FabActionName(order[0])) == Some(order[0]);
      }
    }
  }

  /** The two migrations agree: migrating the encoded order encodes the migrated order. */
  lemma MigrateCommutesWithEncoding(order: seq<FabAction>)
    ensures Migrate(ActionsToJson(order), Str("forward"), Str("refresh")) == ActionsToJson(MigrateOrder(order))
  {
    var items := ActionsToJson(order);
    IndexOfEncoded(order, ForwardAction);
    IndexOfEncoded(order, RefreshAction);
    assert FabActionName(ForwardAction) == "forward" && FabActionName(RefreshAction) == "refresh";
    var i := IndexOf(order, ForwardAction);
    if |order| == 5 && RefreshAction !in order && i != -1 {
      assert Str("refresh") !in items && IndexOf(items, Str("forward")) == i;
      SpliceEncoded(order, i);
    } else {
      assert MigrateOrder(order) == order;
      assert Migrate(items, Str("forward"), Str("refresh")) == items;
    }
  }

  /** Encoding commutes with inserting `refresh` after position `i`. */
  lemma SpliceEncoded(order: seq<FabAction>, i: nat)
    requires i < |order|
    ensures var items := ActionsToJson(order);
      ActionsToJson(order[..i + 1] + [RefreshAction] + order[i + 1..])
        == items[..i + 1] + [Str("refresh")] + items[i + 1..]
  {
    assert FabActionName(RefreshAction) == "refresh";
  }

  /** The keys of a snapshot's object form, and what each holds. */
  lemma SnapshotForm(n: Normalized)
    ensures NormalizedToJson(n).Keys == {"version", "window", "ua", "dpi", "adblock", "ui", "fab"}
    ensures NormalizedToJson(n)["version"] == Num(n.version as real)
    ensures NormalizedToJson(n)["window"] == Obj(WindowToJson(n.window))
    ensures NormalizedToJson(n)["ua"] == Obj(UaToJson(n.ua))
    ensures NormalizedToJson(n)["dpi"] == Obj(DpiToJson(n.dpi))
    ensures NormalizedToJson(n)["adblock"] == Obj(AdblockToJson(n.adblock))
    ensures NormalizedToJson(n)["ui"] == Obj(UiToJson(n.ui))
    ensures NormalizedToJson(n)["fab"] == Obj(FabToJson(n.fab))
  {
    SettingsToJsonFields(Widen(n));
  }

  /** `n` with its button order migrated. */
  function WithMigratedOrder(n: Normalized): Normalized
  {
    n.(fab := n.fab.(buttonOrder := MigrateOrder(n.fab.buttonOrder)))
  }

  /** The floating-button section of `WithMigratedOrder(n)`, in object form. */
  lemma FabFormMigrated(n: Normalized)
    ensures FabToJson(n.fab)["buttonOrder" := Arr(ActionsToJson(MigrateOrder(n.fab.buttonOrder)))]
         == FabToJson(WithMigratedOrder(n).fab)
  {
  }

  /** Where the migration does not apply, the document migration leaves the object form alone. */
  lemma MigrateDocumentUnchanged(n: Normalized)
    requires !Applies(n.fab.buttonOrder, ForwardAction, RefreshAction)
    ensures MigrateDocument(NormalizedToJson(n)) == NormalizedToJson(n)
  {
    var m := NormalizedToJson(n);
    var fab := FabToJson(n.fab);
    SnapshotForm(n);
    MigrateCommutesWithEncoding(n.fab.buttonOrder);
    MigrateLeavesOthers(n.fab.buttonOrder, ForwardAction, RefreshAction);
    assert fab["buttonOrder" := fab["buttonOrder"]] == fab;
    assert m["fab" := m["fab"]] == m;
  }

  /** Where it applies, the document migration rewrites exactly the button order. */
  lemma MigrateDocumentApplies(n: Normalized)
    requires Applies(n.fab.buttonOrder, ForwardAction, RefreshAction)
    ensures MigrateDocument(NormalizedToJson(n)) == NormalizedToJson(WithMigratedOrder(n))
  {
    var n' := WithMigratedOrder(n);
    var m, m' := NormalizedToJson(n), NormalizedToJson(n');
    SnapshotForm(n);
    SnapshotForm(n');
    MigrateCommutesWithEncoding(n.fab.buttonOrder);
    FabFormMigrated(n);
    var migrated := m["fab" := Obj(FabToJson(n'.fab))];
    assert MigrateDocument(m) == migrated;
    forall k | k in m'
      ensures k in migrated && migrated[k] == m'[k]
    {
    }
  }

  /** Migrating a snapshot's object form is migrating the snapshot. */
  lemma MigrateDocumentOfForm(n: Normalized)
    ensures MigrateDocument(NormalizedToJson(n)) == NormalizedToJson(WithMigratedOrder(n))
  {
    var n' := WithMigratedOrder(n);
    var order := n.fab.buttonOrder;
    if !Applies(order, ForwardAction, RefreshAction) {
      MigrateLeavesOthers(order, ForwardAction, RefreshAction);
      assert n' == n;
      MigrateDocumentUnchanged(n);
    } else {
      MigrateDocumentApplies(n);
    }
  }

  /** On the object form of a settled snapshot the document migration does nothing. */
  lemma MigrateDocumentSettled(n: Normalized)
    requires Settled(n)
    ensures MigrateDocument(NormalizedToJson(n)) == NormalizedToJson(n)
  {
    MigrateDocumentOfForm(n);
    assert WithMigratedOrder(n) == n;
  }

  /** The sections of `raw`, each taking its default when absent. */
  function Filled(raw: Settings): Normalized
  {
    Normalized(raw.version, raw.window.GetOr(DefaultWindow), raw.ua.GetOr(DefaultUa), raw.dpi.GetOr(DefaultDpi),
      raw.adblock.GetOr(DefaultAdblock), raw.ui.GetOr(DefaultUi), raw.fab.GetOr(DefaultFab))
  }

  /** One key of the merge onto the defaults. */
  lemma MergedOntoDefaultsAt(raw: Settings, k: string)
    requires k in {"version", "window", "ua", "dpi", "adblock", "ui", "fab"}
    ensures Field(DeepMerge(NormalizedToJson(Defaults), SettingsToJson(raw)), k) == Field(NormalizedToJson(Filled(raw)), k)
  {
    var d, s := NormalizedToJson(Defaults), SettingsToJson(raw);
    SnapshotForm(Defaults);
    SnapshotForm(Filled(raw));
    SettingsToJsonFields(raw);
    if k in s && s[k].Obj? {
      MergedObjectAt(d, s, k);
      SectionFormsCover(Defaults, Filled(raw));
      CoveringSourceWins(AsObject(Field(d, k)), s[k].fields);
    }
  }

  /** Merging a value onto the defaults names exactly the version and the six sections. */
  lemma MergeOntoDefaultsKeys(raw: Settings)
    ensures DeepMerge(NormalizedToJson(Defaults), SettingsToJson(raw)).Keys == NormalizedToJson(Filled(raw)).Keys
  {
    SnapshotForm(Defaults);
    SnapshotForm(Filled(raw));
    SettingsToJsonKeys(raw);
  }

  /** Merging a value onto the defaults fills in exactly its absent sections. */
  lemma MergeOntoDefaultsFills(raw: Settings)
    ensures DeepMerge(NormalizedToJson(Defaults), SettingsToJson(raw)) == NormalizedToJson(Filled(raw))
  {
    var merged, f := DeepMerge(NormalizedToJson(Defaults), SettingsToJson(raw)), NormalizedToJson(Filled(raw));
    MergeOntoDefaultsKeys(raw);
    forall k | k in merged
      ensures merged[k] == f[k]
    {
      MergedOntoDefaultsAt(raw, k);
    }
  }

  /**
   * The typed normalisation is the one the store performs on documents:
   * merge the value onto the defaults, migrate the button order, and the
   * object form of the normalised snapshot comes out.
   */
  lemma NormalizeIsMergeOntoDefaults(raw: Settings)
    ensures MigrateDocument(DeepMerge(NormalizedToJson(Defaults), SettingsToJson(raw))) == NormalizedToJson(Normalize(raw))
  {
    MergeOntoDefaultsFills(raw);
    MigrateDocumentOfForm(Filled(raw));
    assert WithMigratedOrder(Filled(raw)) == Normalize(raw);
  }

  // Loading

  /** What the settings file holds: nothing, something that is not JSON, or a JSON value. */
  datatype DiskFile = Missing | Corrupt | Holds(doc: Json)

  /** The document `readFromDisk` validates: the file's content merged onto the defaults, then migrated. */
  function LoadedDocument(doc: Json): map<string, Json>
  {
    MigrateDocument(DeepMerge(NormalizedToJson(Defaults), AsObject(doc)))
  }

  /**
   * `readFromDisk`: a valid snapshot in every case, and exactly the defaults
   * when the file is missing, is not JSON, or does not pass validation.
   */
  function LoadSettings(file: DiskFile): (n: Normalized)
    ensures ValidNormalized(n) && Settled(n)
    ensures !file.Holds? ==> n == Defaults
  {
    NormalizeDefaults();
    DefaultsValid();
    if file.Holds? && Parse(Obj(LoadedDocument(file.doc))).Ok? then
      Normalize(Parse(Obj(LoadedDocument(file.doc))).value)
    else
      Normalize(DefaultSettings)
  }

  /** A file whose content does not pass validation loads as the defaults. */
  lemma RejectedFileLoadsDefaults(doc: Json)
    requires Parse(Obj(LoadedDocument(doc))).Err?
    ensures LoadSettings(Holds(doc)) == Defaults
  {
    NormalizeDefaults();
  }

  /** One key of `SnapshotFormsCover`. */
  lemma SnapshotCoverAt(a: Normalized, b: Normalized, k: string)
    requires k in NormalizedToJson(b)
    ensures k in NormalizedToJson(a)
    ensures NormalizedToJson(b)[k] != Undefined
    ensures NormalizedToJson(b)[k].Obj? ==> Covers(AsObject(Field(NormalizedToJson(a), k)), NormalizedToJson(b)[k].fields)
  {
    SnapshotForm(a);
    SnapshotForm(b);
    if k == "window" { WindowFormCovers(a.window, b.window); }
    else if k == "ua" { UaFormCovers(a.ua, b.ua); }
    else if k == "dpi" { DpiFormCovers(a.dpi, b.dpi); }
    else if k == "adblock" { AdblockFormCovers(a.adblock, b.adblock); }
    else if k == "ui" { UiFormCovers(a.ui, b.ui); }
    else if k == "fab" { FabFormCovers(a.fab, b.fab); }
  }

  /** Any two snapshots: the object form of one covers that of the other. */
  lemma SnapshotFormsCover(a: Normalized, b: Normalized)
    ensures Covers(NormalizedToJson(a), NormalizedToJson(b))
  {
    var ja, jb := NormalizedToJson(a), NormalizedToJson(b);
    forall k | k in jb
      ensures k in ja
      ensures jb[k] != Undefined
      ensures jb[k].Obj? ==> Covers(AsObject(Field(ja, k)), jb[k].fields)
    {
      SnapshotCoverAt(a, b, k);
    }
  }

  /** What the store writes, it reads back unchanged. */
  lemma SavedSnapshotReloads(n: Normalized)
    requires ValidNormalized(n) && Settled(n)
    ensures LoadSettings(Holds(Obj(NormalizedToJson(n)))) == n
  {
    var m := NormalizedToJson(n);
    SnapshotFormsCover(Defaults, n);
    CoveringSourceWins(NormalizedToJson(Defaults), m);
    MigrateDocumentSettled(n);
    assert LoadedDocument(Obj(m)) == m;
    SettingsRoundTrip(Widen(n));
    NormalizeSettledFixed(n);
  }

  // Updating

  /** The document `setSettings` validates: a copy of the partial merged onto the current snapshot, version forced to 1. */
  function UpdateDocument(current: Normalized, partial: map<string, Json>): map<string, Json>
  {
    DeepMerge(NormalizedToJson(current), DeepMerge(map[], partial))["version" := Num(1.0)]
  }

  /** The snapshot `setSettings` commits, or the validation error it throws. */
  function Update(current: Normalized, partial: map<string, Json>): (r: Result<Normalized>)
    ensures r.Ok? ==> r.value.version == 1 && ValidNormalized(r.value) && Settled(r.value)
    ensures r.Ok? <==> Parse(Obj(UpdateDocument(current, partial))).Ok?
  {
    var s :- Parse(Obj(UpdateDocument(current, partial)));
    Ok(Normalize(s))
  }

  /** An empty partial commits the current snapshot unchanged. */
  lemma UpdateWithNothing(current: Normalized)
    requires ValidNormalized(current) && Settled(current)
    ensures Update(current, map[]) == Ok(current)
  {
    var m := NormalizedToJson(current);
    SnapshotForm(current);
    assert m["version" := Num(1.0)] == m;
    assert UpdateDocument(current, map[]) == m;
    SettingsRoundTrip(Widen(current));
    NormalizeSettledFixed(current);
  }

  /** Inside a section, the validated document is the merge of the partial onto the current snapshot. */
  lemma UpdateDocumentAt(current: Normalized, partial: map<string, Json>, section: string)
    requires section in {"window", "ua", "dpi", "adblock", "ui", "fab"}
    ensures Field(UpdateDocument(current, partial), section) == Field(DeepMerge(NormalizedToJson(current), partial), section)
  {
    MergeOfCloneIsMerge(NormalizedToJson(current), partial);
  }

  /** A section the partial does not name is copied from the current snapshot into the validated document. */
  lemma UpdateDocumentKeeps(current: Normalized, partial: map<string, Json>, section: string)
    requires section in {"window", "ua", "dpi", "adblock", "ui", "fab"}
    requires Field(partial, section).Undefined?
    ensures Field(UpdateDocument(current, partial), section) == NormalizedToJson(current)[section]
  {
    UpdateDocumentAt(current, partial, section);
    SnapshotForm(current);
  }

  /** Every section of a snapshot's object form is an object. */
  lemma SnapshotSectionIsObject(n: Normalized, section: string)
    requires section in {"window", "ua", "dpi", "adblock", "ui", "fab"}
    ensures section in NormalizedToJson(n) && NormalizedToJson(n)[section].Obj?
  {
    SnapshotForm(n);
  }

  /** Inside the validated document, a field the partial does not name holds its current value. */
  lemma UpdateKeepsUnnamedFields(current: Normalized, partial: map<string, Json>, section: string, field: string)
    requires section in {"window", "ua", "dpi", "adblock", "ui", "fab"}
    requires Field(partial, section).Undefined? || Field(partial, section).Obj?
    requires Field(partial, section).Obj? ==> Field(partial[section].fields, field).Undefined?
    ensures Field(UpdateDocument(current, partial), section).Obj?
    ensures Field(AsObject(Field(UpdateDocument(current, partial), section)), field)
         == Field(AsObject(Field(NormalizedToJson(current), section)), field)
  {
    var c := NormalizedToJson(current);
    UpdateDocumentAt(current, partial, section);
    SnapshotSectionIsObject(current, section);
    if Field(partial, section).Obj? {
      MergedObjectAt(c, partial, section);
      MergeKeepsField(c[section].fields, partial[section].fields, field);
    } else {
      MergeKeepsField(c, partial, section);
    }
  }

  /** A section the partial does not name comes out of an update as it was. */
  lemma UpdateKeepsUnnamedSections(current: Normalized, partial: map<string, Json>, next: Normalized)
    requires ValidNormalized(current) && Settled(current)
    requires Update(current, partial) == Ok(next)
    ensures Field(partial, "window").Undefined? ==> next.window == current.window
    ensures Field(partial, "ua").Undefined? ==> next.ua == current.ua
    ensures Field(partial, "dpi").Undefined? ==> next.dpi == current.dpi
    ensures Field(partial, "adblock").Undefined? ==> next.adblock == current.adblock
    ensures Field(partial, "ui").Undefined? ==> next.ui == current.ui
    ensures Field(partial, "fab").Undefined? ==> next.fab == current.fab
  {
    var m := UpdateDocument(current, partial);
    var s := Parse(Obj(m)).value;
    assert next == Normalize(s);
    SnapshotForm(current);
    if Field(partial, "window").Undefined? {
      UpdateDocumentKeeps(current, partial, "window");
      ParsedWindow(m, s, current.window);
    }
    if Field(partial, "ua").Undefined? {
      UpdateDocumentKeeps(current, partial, "ua");
      ParsedUa(m, s, current.ua);
    }
    if Field(partial, "dpi").Undefined? {
      UpdateDocumentKeeps(current, partial, "dpi");
      ParsedDpi(m, s, current.dpi);
    }
    if Field(partial, "adblock").Undefined? {
      UpdateDocumentKeeps(current, partial, "adblock");
      ParsedAdblock(m, s, current.adblock);
    }
    if Field(partial, "ui").Undefined? {
      UpdateDocumentKeeps(current, partial, "ui");
      ParsedUi(m, s, current.ui);
    }
    if Field(partial, "fab").Undefined? {
      UpdateDocumentKeeps(current, partial, "fab");
      ParsedFab(m, s, current.fab);
    }
  }

  // Inside a section the partial names, the fields it leaves out keep their values.

  /**
   * Inside a section the partial names as an object, the validated document
   * holds the current snapshot's form at every field the partial leaves out.
   */
  lemma KeptFields(current: Normalized, partial: map<string, Json>, section: string, form: map<string, Json>)
    requires section in {"window", "ua", "dpi", "adblock", "ui", "fab"}
    requires Field(partial, section).Obj?
    requires Field(NormalizedToJson(current), section) == Obj(form)
    ensures Field(UpdateDocument(current, partial), section).Obj?
    ensures forall f :: Field(partial[section].fields, f).Undefined? ==>
      Field(Field(UpdateDocument(current, partial), section).fields, f) == Field(form, f)
  {
    forall f | Field(partial[section].fields, f).Undefined?
      ensures Field(Field(UpdateDocument(current, partial), section).fields, f) == Field(form, f)
    {
      UpdateKeepsUnnamedFields(current, partial, section, f);
    }
    UpdateDocumentAt(current, partial, section);
    MergedObjectAt(NormalizedToJson(current), partial, section);
  }

  /** A parsed `window` section whose left-out fields hold `cur`'s written values agrees with `cur` there. */
  lemma WindowFieldsKept(d: map<string, Json>, p: map<string, Json>, cur: WindowSettings, parsed: WindowSettings)
    requires WindowFields(d) == Ok(parsed)
    requires forall f :: Field(p, f).Undefined? ==> Field(d, f) == Field(WindowToJson(cur), f)
    ensures Field(p, "width").Undefined? ==> parsed.width == cur.width
    ensures Field(p, "height").Undefined? ==> parsed.height == cur.height
    ensures Field(p, "startState").Undefined? ==> parsed.startState == cur.startState
    ensures Field(p, "alwaysOnTop").Undefined? ==> parsed.alwaysOnTop == cur.alwaysOnTop
    ensures Field(p, "resizable").Undefined? ==> parsed.resizable == cur.resizable
    ensures Field(p, "minWidth").Undefined? ==> parsed.minWidth == cur.minWidth
    ensures Field(p, "minHeight").Undefined? ==> parsed.minHeight == cur.minHeight
  {
    WindowToJsonAt(cur);
  }

  /** A `window` field that a named `window` section of the partial leaves out keeps its value. */
  lemma UpdateKeepsUnnamedWindowFields(current: Normalized, partial: map<string, Json>, next: Normalized)
    requires ValidNormalized(current) && Settled(current)
    requires Update(current, partial) == Ok(next)
    requires Field(partial, "window").Obj?
    ensures Field(partial["window"].fields, "width").Undefined? ==> next.window.width == current.window.width
    ensures Field(partial["window"].fields, "height").Undefined? ==> next.window.height == current.window.height
    ensures Field(partial["window"].fields, "startState").Undefined? ==> next.window.startState == current.window.startState
    ensures Field(partial["window"].fields, "alwaysOnTop").Undefined? ==> next.window.alwaysOnTop == current.window.alwaysOnTop
    ensures Field(partial["window"].fields, "resizable").Undefined? ==> next.window.resizable == current.window.resizable
    ensures Field(partial["window"].fields, "minWidth").Undefined? ==> next.window.minWidth == current.window.minWidth
    ensures Field(partial["window"].fields, "minHeight").Undefined? ==> next.window.minHeight == current.window.minHeight
  {
    var m := UpdateDocument(current, partial);
    SnapshotForm(current);
    KeptFields(current, partial, "window", WindowToJson(current.window));
    UpdatedWindow(current, partial, next);
    WindowFieldsKept(m["window"].fields, partial["window"].fields, current.window, next.window);
  }

  /** The `window` section of the validated document parses to the committed one. */
  lemma UpdatedWindow(current: Normalized, partial: map<string, Json>, next: Normalized)
    requires Update(current, partial) == Ok(next)
    requires Field(UpdateDocument(current, partial), "window").Obj?
    ensures WindowFields(Field(UpdateDocument(current, partial), "window").fields) == Ok(next.window)
  {
    var m := UpdateDocument(current, partial);
    ParseYieldsSections(m, Parse(Obj(m)).value);
  }

  /** A parsed `ua` section whose left-out fields hold `cur`'s written values agrees with `cur` there. */
  lemma UaFieldsKept(d: map<string, Json>, p: map<string, Json>, cur: UaSettings, parsed: UaSettings)
    requires UaFields(d) == Ok(parsed)
    requires forall f :: Field(p, f).Undefined? ==> Field(d, f) == Field(UaToJson(cur), f)
    ensures Field(p, "mode").Undefined? ==> parsed.mode == cur.mode
    ensures Field(p, "custom").Undefined? ==> parsed.custom == cur.custom
    ensures Field(p, "reloadOnChange").Undefined? ==> parsed.reloadOnChange == cur.reloadOnChange
  {
    UaToJsonAt(cur);
  }

  /** A `ua` field that a named `ua` section of the partial leaves out keeps its value. */
  lemma UpdateKeepsUnnamedUaFields(current: Normalized, partial: map<string, Json>, next: Normalized)
    requires ValidNormalized(current) && Settled(current)
    requires Update(current, partial) == Ok(next)
    requires Field(partial, "ua").Obj?
    ensures Field(partial["ua"].fields, "mode").Undefined? ==> next.ua.mode == current.ua.mode
    ensures Field(partial["ua"].fields, "custom").Undefined? ==> next.ua.custom == current.ua.custom
    ensures Field(partial["ua"].fields, "reloadOnChange").Undefined? ==> next.ua.reloadOnChange == current.ua.reloadOnChange
  {
    var m := UpdateDocument(current, partial);
    SnapshotForm(current);
    KeptFields(current, partial, "ua", UaToJson(current.ua));
    UpdatedUa(current, partial, next);
    UaFieldsKept(m["ua"].fields, partial["ua"].fields, current.ua, next.ua);
  }

  /** The `ua` section of the validated document parses to the committed one. */
  lemma UpdatedUa(current: Normalized, partial: map<string, Json>, next: Normalized)
    requires Update(current, partial) == Ok(next)
    requires Field(UpdateDocument(current, partial), "ua").Obj?
    ensures UaFields(Field(UpdateDocument(current, partial), "ua").fields) == Ok(next.ua)
  {
    var m := UpdateDocument(current, partial);
    ParseYieldsSections(m, Parse(Obj(m)).value);
  }

  /** A parsed `dpi` section whose left-out fields hold `cur`'s written values agrees with `cur` there. */
  lemma DpiFieldsKept(d: map<string, Json>, p: map<string, Json>, cur: DpiSettings, parsed: DpiSettings)
    requires DpiFields(d) == Ok(parsed)
    requires forall f :: Field(p, f).Undefined? ==> Field(d, f) == Field(DpiToJson(cur), f)
    ensures Field(p, "mode").Undefined? ==> parsed.mode == cur.mode
    ensures Field(p, "port").Undefined? ==> parsed.port == cur.port
    ensures Field(p, "bypass").Undefined? ==> parsed.bypass == cur.bypass
    ensures Field(p, "autoStart").Undefined? ==> parsed.autoStart == cur.autoStart
  {
    DpiToJsonAt(cur);
  }

  /** A `dpi` field that a named `dpi` section of the partial leaves out keeps its value. */
  lemma UpdateKeepsUnnamedDpiFields(current: Normalized, partial: map<string, Json>, next: Normalized)
    requires ValidNormalized(current) && Settled(current)
    requires Update(current, partial) == Ok(next)
    requires Field(partial, "dpi").Obj?
    ensures Field(partial["dpi"].fields, "mode").Undefined? ==> next.dpi.mode == current.dpi.mode
    ensures Field(partial["dpi"].fields, "port").Undefined? ==> next.dpi.port == current.dpi.port
    ensures Field(partial["dpi"].fields, "bypass").Undefined? ==> next.dpi.bypass == current.dpi.bypass
    ensures Field(partial["dpi"].fields, "autoStart").Undefined? ==> next.dpi.autoStart == current.dpi.autoStart
  {
    var m := UpdateDocument(current, partial);
    SnapshotForm(current);
    KeptFields(current, partial, "dpi", DpiToJson(current.dpi));
    UpdatedDpi(current, partial, next);
    DpiFieldsKept(m["dpi"].fields, partial["dpi"].fields, current.dpi, next.dpi);
  }

  /** The `dpi` section of the validated document parses to the committed one. */
  lemma UpdatedDpi(current: Normalized, partial: map<string, Json>, next: Normalized)
    requires Update(current, partial) == Ok(next)
    requires Field(UpdateDocument(current, partial), "dpi").Obj?
    ensures DpiFields(Field(UpdateDocument(current, partial), "dpi").fields) == Ok(next.dpi)
  {
    var m := UpdateDocument(current, partial);
    ParseYieldsSections(m, Parse(Obj(m)).value);
  }

  /** A parsed `adblock` section whose left-out fields hold `cur`'s written values agrees with `cur` there. */
  lemma AdblockFieldsKept(d: map<string, Json>, p: map<string, Json>, cur: AdblockSettings, parsed: AdblockSettings)
    requires AdblockFields(d) == Ok(parsed)
    requires forall f :: Field(p, f).Undefined? ==> Field(d, f) == Field(AdblockToJson(cur), f)
    ensures Field(p, "enabled").Undefined? ==> parsed.enabled == cur.enabled
    ensures Field(p, "strength").Undefined? ==> parsed.strength == cur.strength
    ensures Field(p, "cosmetics").Undefined? ==> parsed.cosmetics == cur.cosmetics
  {
    AdblockToJsonAt(cur);
  }

  /** A `adblock` field that a named `adblock` section of the partial leaves out keeps its value. */
  lemma UpdateKeepsUnnamedAdblockFields(current: Normalized, partial: map<string, Json>, next: Normalized)
    requires ValidNormalized(current) && Settled(current)
    requires Update(current, partial) == Ok(next)
    requires Field(partial, "adblock").Obj?
    ensures Field(partial["adblock"].fields, "enabled").Undefined? ==> next.adblock.enabled == current.adblock.enabled
    ensures Field(partial["adblock"].fields, "strength").Undefined? ==> next.adblock.strength == current.adblock.strength
    ensures Field(partial["adblock"].fields, "cosmetics").Undefined? ==> next.adblock.cosmetics == current.adblock.cosmetics
  {
    var m := UpdateDocument(current, partial);
    SnapshotForm(current);
    KeptFields(current, partial, "adblock", AdblockToJson(current.adblock));
    UpdatedAdblock(current, partial, next);
    AdblockFieldsKept(m["adblock"].fields, partial["adblock"].fields, current.adblock, next.adblock);
  }

  /** The `adblock` section of the validated document parses to the committed one. */
  lemma UpdatedAdblock(current: Normalized, partial: map<string, Json>, next: Normalized)
    requires Update(current, partial) == Ok(next)
    requires Field(UpdateDocument(current, partial), "adblock").Obj?
    ensures AdblockFields(Field(UpdateDocument(current, partial), "adblock").fields) == Ok(next.adblock)
  {
    var m := UpdateDocument(current, partial);
    ParseYieldsSections(m, Parse(Obj(m)).value);
  }

  /** A parsed `ui` section whose left-out fields hold `cur`'s written values agrees with `cur` there. */
  lemma UiFieldsKept(d: map<string, Json>, p: map<string, Json>, cur: UiSettings, parsed: UiSettings)
    requires UiFields(d) == Ok(parsed)
    requires forall f :: Field(p, f).Undefined? ==> Field(d, f) == Field(UiToJson(cur), f)
    ensures Field(p, "language").Undefined? ==> parsed.language == cur.language
    ensures Field(p, "theme").Undefined? ==> parsed.theme == cur.theme
    ensures Field(p, "scale").Undefined? ==> parsed.scale == cur.scale
    ensures Field(p, "backdropOpacity").Undefined? ==> parsed.backdropOpacity == cur.backdropOpacity
    ensures Field(p, "animations").Undefined? ==> parsed.animations == cur.animations
    ensures Field(p, "hotkeys").Undefined? ==> parsed.hotkeys == cur.hotkeys
    ensures Field(p, "autoCloseOnNav").Undefined? ==> parsed.autoCloseOnNav == cur.autoCloseOnNav
    ensures Field(p, "closeOnEsc").Undefined? ==> parsed.closeOnEsc == cur.closeOnEsc
    ensures Field(p, "closeOnOutside").Undefined? ==> parsed.closeOnOutside == cur.closeOnOutside
    ensures Field(p, "iconSet").Undefined? ==> parsed.iconSet == cur.iconSet
  {
    UiToJsonAt(cur);
  }

  /** A `ui` field that a named `ui` section of the partial leaves out keeps its value. */
  lemma UpdateKeepsUnnamedUiFields(current: Normalized, partial: map<string, Json>, next: Normalized)
    requires ValidNormalized(current) && Settled(current)
    requires Update(current, partial) == Ok(next)
    requires Field(partial, "ui").Obj?
    ensures Field(partial["ui"].fields, "language").Undefined? ==> next.ui.language == current.ui.language
    ensures Field(partial["ui"].fields, "theme").Undefined? ==> next.ui.theme == current.ui.theme
    ensures Field(partial["ui"].fields, "scale").Undefined? ==> next.ui.scale == current.ui.scale
    ensures Field(partial["ui"].fields, "backdropOpacity").Undefined? ==> next.ui.backdropOpacity == current.ui.backdropOpacity
    ensures Field(partial["ui"].fields, "animations").Undefined? ==> next.ui.animations == current.ui.animations
    ensures Field(partial["ui"].fields, "hotkeys").Undefined? ==> next.ui.hotkeys == current.ui.hotkeys
    ensures Field(partial["ui"].fields, "autoCloseOnNav").Undefined? ==> next.ui.autoCloseOnNav == current.ui.autoCloseOnNav
    ensures Field(partial["ui"].fields, "closeOnEsc").Undefined? ==> next.ui.closeOnEsc == current.ui.closeOnEsc
    ensures Field(partial["ui"].fields, "closeOnOutside").Undefined? ==> next.ui.closeOnOutside == current.ui.closeOnOutside
    ensures Field(partial["ui"].fields, "iconSet").Undefined? ==> next.ui.iconSet == current.ui.iconSet
  {
    var m := UpdateDocument(current, partial);
    SnapshotForm(current);
    KeptFields(current, partial, "ui", UiToJson(current.ui));
    UpdatedUi(current, partial, next);
    UiFieldsKept(m["ui"].fields, partial["ui"].fields, current.ui, next.ui);
  }

  /** The `ui` section of the validated document parses to the committed one. */
  lemma UpdatedUi(current: Normalized, partial: map<string, Json>, next: Normalized)
    requires Update(current, partial) == Ok(next)
    requires Field(UpdateDocument(current, partial), "ui").Obj?
    ensures UiFields(Field(UpdateDocument(current, partial), "ui").fields) == Ok(next.ui)
  {
    var m := UpdateDocument(current, partial);
    ParseYieldsSections(m, Parse(Obj(m)).value);
  }

  /** A parsed `fab` section whose left-out fields hold `cur`'s written values agrees with `cur` there. */
  lemma FabFieldsKept(d: map<string, Json>, p: map<string, Json>, cur: FabSettings, parsed: FabSettings)
    requires FabFields(d) == Ok(parsed)
    requires forall f :: Field(p, f).Undefined? ==> Field(d, f) == Field(FabToJson(cur), f)
    ensures Field(p, "position").Undefined? ==> parsed.position == cur.position
    ensures Field(p, "padding").Undefined? ==> parsed.padding == cur.padding
    ensures Field(p, "size").Undefined? ==> parsed.size == cur.size
    ensures Field(p, "shape").Undefined? ==> parsed.shape == cur.shape
    ensures Field(p, "opacity").Undefined? ==> parsed.opacity == cur.opacity
    ensures Field(p, "hoverOpen").Undefined? ==> parsed.hoverOpen == cur.hoverOpen
    ensures Field(p, "closeOnVideoClick").Undefined? ==> parsed.closeOnVideoClick == cur.closeOnVideoClick
    ensures Field(p, "tooltips").Undefined? ==> parsed.tooltips == cur.tooltips
    ensures Field(p, "buttonOrder").Undefined? ==> parsed.buttonOrder == cur.buttonOrder
  {
    FabToJsonAt(cur);
    if Field(p, "buttonOrder").Undefined? {
      ActionsRoundTrip(parsed.buttonOrder);
      ActionsRoundTrip(cur.buttonOrder);
    }
  }

  /** A `fab` field that a named `fab` section of the partial leaves out keeps its value. */
  lemma UpdateKeepsUnnamedFabFields(current: Normalized, partial: map<string, Json>, next: Normalized)
    requires ValidNormalized(current) && Settled(current)
    requires Update(current, partial) == Ok(next)
    requires Field(partial, "fab").Obj?
    ensures Field(partial["fab"].fields, "position").Undefined? ==> next.fab.position == current.fab.position
    ensures Field(partial["fab"].fields, "padding").Undefined? ==> next.fab.padding == current.fab.padding
    ensures Field(partial["fab"].fields, "size").Undefined? ==> next.fab.size == current.fab.size
    ensures Field(partial["fab"].fields, "shape").Undefined? ==> next.fab.shape == current.fab.shape
    ensures Field(partial["fab"].fields, "opacity").Undefined? ==> next.fab.opacity == current.fab.opacity
    ensures Field(partial["fab"].fields, "hoverOpen").Undefined? ==> next.fab.hoverOpen == current.fab.hoverOpen
    ensures Field(partial["fab"].fields, "closeOnVideoClick").Undefined? ==> next.fab.closeOnVideoClick == current.fab.closeOnVideoClick
    ensures Field(partial["fab"].fields, "tooltips").Undefined? ==> next.fab.tooltips == current.fab.tooltips
    ensures Field(partial["fab"].fields, "buttonOrder").Undefined? ==> next.fab.buttonOrder == current.fab.buttonOrder
  {
    var m := UpdateDocument(current, partial);
    SnapshotForm(current);
    KeptFields(current, partial, "fab", FabToJson(current.fab));
    UpdatedFab(current, partial, next);
    var f := FabFields(m["fab"].fields).value;
    FabFieldsKept(m["fab"].fields, partial["fab"].fields, current.fab, f);
  }

  /** The `fab` section of the validated document parses to the committed one. */
  lemma UpdatedFab(current: Normalized, partial: map<string, Json>, next: Normalized)
    requires Update(current, partial) == Ok(next)
    requires Field(UpdateDocument(current, partial), "fab").Obj?
    ensures FabFields(Field(UpdateDocument(current, partial), "fab").fields).Ok?
    ensures var f := FabFields(Field(UpdateDocument(current, partial), "fab").fields).value;
      next.fab == f.(buttonOrder := MigrateOrder(f.buttonOrder))
  {
    var m := UpdateDocument(current, partial);
    ParseYieldsSections(m, Parse(Obj(m)).value);
  }

  /** The proxy section of the document validated when only the port changes. */
  lemma PortUpdateDocument(current: Normalized, port: real)
    ensures Field(UpdateDocument(current, map["dpi" := Obj(map["port" := Num(port)])]), "dpi")
         == Obj(DpiToJson(current.dpi.(port := port)))
  {
    var partial := map["dpi" := Obj(map["port" := Num(port)])];
    var c := NormalizedToJson(current);
    assert c["dpi"] == Obj(DpiToJson(current.dpi)) by {
      SnapshotForm(current);
    }
    UpdateDocumentAt(current, partial, "dpi");
    MergedObjectAt(c, partial, "dpi");
    MergeOneLeaf(DpiToJson(current.dpi), "port", Num(port));
    DpiFormWithPort(current.dpi, port);
  }

  /** An update whose validated document holds the object form of each section of `next` commits `next`. */
  lemma UpdateOfForms(current: Normalized, partial: map<string, Json>, next: Normalized)
    requires ValidNormalized(next) && Settled(next)
    requires var m := UpdateDocument(current, partial);
      && Field(m, "window") == Obj(WindowToJson(next.window))
      && Field(m, "ua") == Obj(UaToJson(next.ua))
      && Field(m, "dpi") == Obj(DpiToJson(next.dpi))
      && Field(m, "adblock") == Obj(AdblockToJson(next.adblock))
      && Field(m, "ui") == Obj(UiToJson(next.ui))
      && Field(m, "fab") == Obj(FabToJson(next.fab))
    ensures Update(current, partial) == Ok(next)
  {
    ParseOfForms(UpdateDocument(current, partial), next);
    NormalizeSettledFixed(next);
  }

  /** Changing only the proxy port to an allowed value changes exactly that field. */
  lemma UpdatePortOnly(current: Normalized, port: real)
    requires ValidNormalized(current) && Settled(current)
    requires MinPort <= port <= MaxPort
    ensures Update(current, map["dpi" := Obj(map["port" := Num(port)])]) == Ok(current.(dpi := current.dpi.(port := port)))
  {
    var partial := map["dpi" := Obj(map["port" := Num(port)])];
    var next := current.(dpi := current.dpi.(port := port));
    PortUpdateDocument(current, port);
    SnapshotForm(current);
    UpdateDocumentKeeps(current, partial, "window");
    UpdateDocumentKeeps(current, partial, "ua");
    UpdateDocumentKeeps(current, partial, "adblock");
    UpdateDocumentKeeps(current, partial, "ui");
    UpdateDocumentKeeps(current, partial, "fab");
    UpdateOfForms(current, partial, next);
  }

  /** A port outside 1..65535 is rejected and nothing is committed. */
  lemma UpdateRejectsBadPort(current: Normalized, port: real)
    requires port < MinPort || MaxPort < port
    ensures Update(current, map["dpi" := Obj(map["port" := Num(port)])]).Err?
  {
    var partial := map["dpi" := Obj(map["port" := Num(port)])];
    var m := UpdateDocument(current, partial);
    PortUpdateDocument(current, port);
    assert "dpi" in m;
    PortOutOfBoundsRejected(m, port);
  }

  /** The merge, version and validation steps of `setSettings`, on values. */
  method ValidateUpdate(current: Normalized, partial: map<string, Json>) returns (r: Result<Normalized>)
    ensures r == Update(current, partial)
  {
    var merged := DeepMerge(NormalizedToJson(current), DeepMerge(map[], partial));
    merged := merged["version" := Num(1.0)];
    var parsed := Parse(Obj(merged));
    if parsed.Err? {
      return Err(parsed.issue);
    }
    var next := NormalizeSettings(parsed.value);
    r := Ok(next);
  }

  /**
   * The user agent `applyUserAgent` keeps: the session's, unless a non-empty
   * one was captured before. Something is always captured afterwards, and it
   * is empty only when the session's own user agent was.
   */
  function CapturedUserAgent(captured: Option<string>, sessionUserAgent: string): (r: Option<string>)
    ensures r.Some?
    ensures captured.Some? && captured.value != "" ==> r == captured
    ensures captured.None? || captured.value == "" ==> r == Some(sessionUserAgent)
    ensures r.value == "" ==> sessionUserAgent == ""
  {
    if captured.None? || captured.value == "" then Some(sessionUserAgent) else captured
  }

  /**
   * Capture happens once: after a non-empty session user agent was captured,
   * later calls keep it whatever the session reports by then.
   */
  lemma CaptureOnce(captured: Option<string>, first: string, later: string)
    requires first != ""
    ensures var once := CapturedUserAgent(captured, first);
      && once.value != ""
      && CapturedUserAgent(once, later) == once
  {
  }

  // The store

  class Store {
    /** The module-level cache, empty until the first read. */
    var cache: Option<Normalized>
    /** The settings file. */
    var file: DiskFile
    /** The session user agent captured when a user agent was first applied. */
    var defaultUserAgent: Option<string>
    /** How many times the settings file was read. */
    ghost var diskReads: nat
    /** The proxy lifecycle the store drives. */
    const proxy: Manager

    /** The cache holds only valid, settled snapshots. */
    ghost predicate CacheValid()
      reads this`cache
    {
      cache.Some? ==> ValidNormalized(cache.value) && Settled(cache.value)
    }

    ghost predicate Valid()
      reads this`cache, proxy
    {
      proxy.Valid() && CacheValid()
    }

    /** What `getSettings` returns: the cached snapshot, or else the one the file loads as. */
    ghost function Current(): Normalized
      reads this`cache, this`file
    {
      if cache.Some? then cache.value else LoadSettings(file)
    }

    /** The state at process start: nothing cached, no user agent captured. */
    constructor (file: DiskFile, proxy: Manager)
      requires proxy.Valid()
      ensures Valid()
      ensures cache == None && this.file == file && defaultUserAgent == None && this.proxy == proxy
      ensures diskReads == 0
    {
      cache := None;
      this.file := file;
      defaultUserAgent := None;
      diskReads := 0;
      this.proxy := proxy;
    }

    /** `readFromDisk`. */
    method ReadFromDisk() returns (n: Normalized)
      modifies this`diskReads
      ensures n == LoadSettings(file)
      ensures diskReads == old(diskReads) + 1
    {
      diskReads := diskReads + 1;
      if file.Holds? {
        var merged := DeepMerge(NormalizedToJson(Defaults), AsObject(file.doc));
        merged := MigrateDocumentInPlace(merged);
        var parsed := Parse(Obj(merged));
        if parsed.Ok? {
          n := NormalizeSettings(parsed.value);
          return;
        }
      }
      n := NormalizeSettings(DefaultSettings);
    }

    /** `getSettings`: the cache, filled from the file on first use. */
    method GetSettings() returns (s: Normalized)
      requires Valid()
      modifies this`cache, this`diskReads
      ensures Valid()
      ensures cache == Some(s) && s == old(Current())
      ensures file == old(file) && defaultUserAgent == old(defaultUserAgent) && unchanged(proxy)
      ensures old(cache).Some? ==> s == old(cache).value && diskReads == old(diskReads)
      ensures old(cache).None? ==> s == LoadSettings(file) && diskReads == old(diskReads) + 1
    {
      if cache.None? {
        var loaded := ReadFromDisk();
        cache := Some(loaded);
      }
      s := cache.value;
    }

    /**
     * `setSettings`: merge a copy of `partial` onto the current snapshot,
     * force the version, validate, then commit to the cache, write the
     * file (when `writeSucceeds`) and reconcile the proxy. A validation
     * error commits nothing, though the first read may already have filled
     * the cache.
     */
    method SetSettings(partial: map<string, Json>, writeSucceeds: bool, startSucceeds: bool)
      returns (r: Result<Normalized>, effects: seq<Effect>)
      requires Valid()
      modifies this, proxy
      ensures Valid()
      ensures defaultUserAgent == old(defaultUserAgent)
      ensures var current := old(Current());
        && r == Update(current, partial)
        && (r.Ok? ==>
              && cache == Some(r.value)
              && file == (if writeSucceeds then Holds(Obj(NormalizedToJson(r.value))) else old(file))
              && proxy.GetDpiState() == ProxyAfter(old(proxy.GetDpiState()), r.value.dpi, old(proxy.Loads(startSucceeds)))
              && effects == ProxyPlan(r.value.dpi, proxy.isRunning))
        && (r.Err? ==> cache == Some(current) && file == old(file) && effects == [] && unchanged(proxy))
    {
      var current := GetSettings();
      r, effects := UpdateFrom(current, partial, writeSucceeds, startSucceeds);
    }

    /** The half of `setSettings` after the read: validate against `current`, then commit. */
    method UpdateFrom(current: Normalized, partial: map<string, Json>, writeSucceeds: bool, startSucceeds: bool)
      returns (r: Result<Normalized>, effects: seq<Effect>)
      requires Valid() && cache == Some(current)
      modifies this`cache, this`file, proxy
      ensures Valid()
      ensures defaultUserAgent == old(defaultUserAgent)
      ensures r == Update(current, partial)
      ensures r.Ok? ==>
        && cache == Some(r.value)
        && file == (if writeSucceeds then Holds(Obj(NormalizedToJson(r.value))) else old(file))
        && proxy.GetDpiState() == ProxyAfter(old(proxy.GetDpiState()), r.value.dpi, old(proxy.Loads(startSucceeds)))
        && effects == ProxyPlan(r.value.dpi, proxy.isRunning)
      ensures r.Err? ==> cache == old(cache) && file == old(file) && effects == [] && unchanged(proxy)
    {
      r := ValidateUpdate(current, partial);
      if r.Err? {
        return r, [];
      }
      effects := Commit(r.value, writeSucceeds, startSucceeds);
    }

    /** The committing half of `setSettings`: cache, file, proxy. */
    method Commit(next: Normalized, writeSucceeds: bool, startSucceeds: bool) returns (effects: seq<Effect>)
      requires proxy.Valid() && ValidNormalized(next) && Settled(next)
      modifies this`cache, this`file, proxy
      ensures Valid()
      ensures cache == Some(next)
      ensures file == if writeSucceeds then Holds(Obj(NormalizedToJson(next))) else old(file)
      ensures proxy.GetDpiState() == ProxyAfter(old(proxy.GetDpiState()), next.dpi, old(proxy.Loads(startSucceeds)))
      ensures effects == ProxyPlan(next.dpi, proxy.isRunning)
    {
      cache := Some(next);
      WriteToDisk(next, writeSucceeds);
      effects := ApplyDpiBypass(proxy, next.dpi, startSucceeds);
    }

    /** `writeToDisk`: the file holds the snapshot's JSON, unless writing fails. */
    method WriteToDisk(next: Normalized, writeSucceeds: bool)
      modifies this`file
      ensures file == if writeSucceeds then Holds(Obj(NormalizedToJson(next))) else old(file)
    {
      if writeSucceeds {
        file := Holds(Obj(NormalizedToJson(next)));
      }
    }

    /**
     * `applyUserAgent`: capture the session's user agent the first time,
     * then set the chosen one on both sessions, clearing the cache and
     * reloading when asked.
     */
    method ApplyUserAgent(mode: UaMode, custom: string, reload: bool, hasWindow: bool, sessionUserAgent: string)
      returns (effects: seq<Effect>)
      modifies this`defaultUserAgent
      ensures defaultUserAgent == CapturedUserAgent(old(defaultUserAgent), sessionUserAgent)
      ensures defaultUserAgent.Some? && (old(defaultUserAgent).Some? && old(defaultUserAgent).value != "" ==> defaultUserAgent == old(defaultUserAgent))
      ensures effects == UserAgentEffects(UserAgentValue(mode, custom, defaultUserAgent.value), reload, hasWindow)
    {
      if defaultUserAgent.None? || defaultUserAgent.value == "" {
        defaultUserAgent := Some(sessionUserAgent);
      }
      var ua := UserAgentValue(mode, custom, defaultUserAgent.value);
      effects := UserAgentEffects(ua, reload, hasWindow);
    }

    /**
     * `initializeSettings`: read the settings, then apply the window
     * settings, the user agent (without reloading) and the proxy.
     */
    method Initialize(win: Option<Bounds>, sessionUserAgent: string, startSucceeds: bool)
      returns (windowEffects: seq<Effect>, uaEffects: seq<Effect>, proxyEffects: seq<Effect>)
      requires Valid()
      modifies this, proxy
      ensures Valid()
      ensures cache == Some(if old(cache).Some? then old(cache).value else LoadSettings(old(file)))
      ensures file == old(file)
      ensures cache.Some? && defaultUserAgent == CapturedUserAgent(old(defaultUserAgent), sessionUserAgent)
      ensures windowEffects == WindowPlan(win, cache.value.window)
      ensures uaEffects == UserAgentEffects(UserAgentValue(cache.value.ua.mode, cache.value.ua.custom, defaultUserAgent.value), false, win.Some?)
      ensures proxy.GetDpiState() == ProxyAfter(old(proxy.GetDpiState()), cache.value.dpi, old(proxy.Loads(startSucceeds)))
      ensures proxyEffects == ProxyPlan(cache.value.dpi, proxy.isRunning)
    {
      var settings := GetSettings();
      windowEffects, uaEffects, proxyEffects := ApplySnapshot(settings, win, sessionUserAgent, startSucceeds);
    }

    /** The applying half of `initializeSettings`: window, user agent without reload, proxy. */
    method ApplySnapshot(settings: Normalized, win: Option<Bounds>, sessionUserAgent: string, startSucceeds: bool)
      returns (windowEffects: seq<Effect>, uaEffects: seq<Effect>, proxyEffects: seq<Effect>)
      requires proxy.Valid()
      modifies this`defaultUserAgent, proxy
      ensures proxy.Valid()
      ensures defaultUserAgent == CapturedUserAgent(old(defaultUserAgent), sessionUserAgent)
      ensures windowEffects == WindowPlan(win, settings.window)
      ensures uaEffects == UserAgentEffects(UserAgentValue(settings.ua.mode, settings.ua.custom, defaultUserAgent.value), false, win.Some?)
      ensures proxy.GetDpiState() == ProxyAfter(old(proxy.GetDpiState()), settings.dpi, old(proxy.Loads(startSucceeds)))
      ensures proxyEffects == ProxyPlan(settings.dpi, proxy.isRunning)
    {
      windowEffects := ApplyWindowSettings(win, settings.window);
      uaEffects := ApplyUserAgent(settings.ua.mode, settings.ua.custom, false, win.Some?, sessionUserAgent);
      proxyEffects := ApplyDpiBypass(proxy, settings.dpi, startSucceeds);
    }
  }
}
