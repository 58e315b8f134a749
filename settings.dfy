/** The settings store: its defaults, the partial-update merge (choosing a
    currency also chooses its symbol), and the one migration of the stored
    format, which turns a legacy list of bare platform names into platform
    records with no fee. */
module Settings {
  import opened Types
  import opened Seqs
  import Ledger

  const DefaultPlatforms: seq<Platform> := [
    Platform("1", "Facebook", 0.0, Fixed),
    Platform("2", "Website", 0.0, Fixed),
    Platform("3", "Offline", 0.0, Fixed)
  ]

  const TakaSign: string := "\U{09F3}"

  const DefaultSettings: AppSettings := AppSettings(BDT, TakaSign, 5, false, DefaultPlatforms)

  const DefaultPrefixes: seq<SkuPrefix> := [
    SkuPrefix("1", "GEN", "General"),
    SkuPrefix("2", "ELEC", "Electronics")
  ]

  function SymbolOf(c: Currency): string {
    match c
    case BDT => TakaSign
    case USD => "$"
  }

  /** A `Partial<AppSettings>`: each present field replaces the current one. */
  datatype SettingsPatch = SettingsPatch(
    currency: Option<Currency>,
    currencySymbol: Option<string>,
    lowStockThreshold: Option<int>,
    allowNegativeStock: Option<bool>,
    platforms: Option<seq<Platform>>)

  /** `{...prev, ...patch}`, after which a patched currency overrides the
      symbol with its own, even over a symbol given in the same patch. */
  function MergeSettings(prev: AppSettings, patch: SettingsPatch): (r: AppSettings)
    ensures r.currency == patch.currency.GetOr(prev.currency)
    ensures r.lowStockThreshold == patch.lowStockThreshold.GetOr(prev.lowStockThreshold)
    ensures r.allowNegativeStock == patch.allowNegativeStock.GetOr(prev.allowNegativeStock)
    ensures r.platforms == patch.platforms.GetOr(prev.platforms)
    ensures patch.currency.Some? ==> r.currencySymbol == SymbolOf(patch.currency.value)
    ensures patch.currency.None? ==> r.currencySymbol == patch.currencySymbol.GetOr(prev.currencySymbol)
  {
    var updated := AppSettings(
      patch.currency.GetOr(prev.currency),
      patch.currencySymbol.GetOr(prev.currencySymbol),
      patch.lowStockThreshold.GetOr(prev.lowStockThreshold),
      patch.allowNegativeStock.GetOr(prev.allowNegativeStock),
      patch.platforms.GetOr(prev.platforms));
    if patch.currency == Some(BDT) then updated.(currencySymbol := TakaSign)
    else if patch.currency == Some(USD) then updated.(currencySymbol := "$")
    else updated
  }

  /** The symbol shown is the currency's own. */
  predicate SymbolMatches(s: AppSettings) {
    s.currencySymbol == SymbolOf(s.currency)
  }

  /** The defaults agree with themselves, and a merge that does not set the
      symbol alone keeps symbol and currency in step; applying the same patch
      twice is applying it once. */
  lemma MergeKeepsSymbol(prev: AppSettings, patch: SettingsPatch)
    requires SymbolMatches(prev)
    requires patch.currencySymbol.Some? ==> patch.currency.Some?
    ensures SymbolMatches(MergeSettings(prev, patch))
    ensures MergeSettings(MergeSettings(prev, patch), patch) == MergeSettings(prev, patch)
    ensures SymbolMatches(DefaultSettings)
  {
  }

  /** The two shapes a stored platform list can have. */
  datatype StoredPlatforms = LegacyNames(names: seq<string>) | Records(records: seq<Platform>)

  /** Settings as loaded from storage, before migration. */
  datatype StoredSettings = StoredSettings(
    currency: Currency,
    currencySymbol: string,
    lowStockThreshold: int,
    allowNegativeStock: bool,
    platforms: StoredPlatforms)

  /** The migration: each legacy name becomes a FIXED platform with fee 0 and
      a fresh id (one id per name, in order); records load as they are. */
  function MigratePlatforms(stored: StoredPlatforms, ids: seq<string>): (r: seq<Platform>)
    requires stored.LegacyNames? ==> |ids| == |stored.names|
    ensures stored.Records? ==> r == stored.records
    ensures stored.LegacyNames? ==> |r| == |stored.names| && forall i :: 0 <= i < |r| ==>
      r[i].id == ids[i] && r[i].name == stored.names[i] && r[i].feeValue == 0.0 && r[i].feeType == Fixed
  {
    match stored
    case Records(ps) => ps
    case LegacyNames(names) =>
      seq(|names|, i requires 0 <= i < |names| => Platform(ids[i], names[i], 0.0, Fixed))
  }

  /** Platforms that came from a legacy list charge no fee on any sale. */
  lemma MigratedPlatformsChargeNothing(names: seq<string>, ids: seq<string>, platformName: string, revenue: real)
    requires |ids| == |names|
    ensures Ledger.CalculatePlatformFee(MigratePlatforms(LegacyNames(names), ids), platformName, revenue) == 0.0
  {
  }

  /** The settings the store starts from: the defaults when nothing was saved,
      otherwise the saved settings with their platform list migrated. */
  function LoadSettings(saved: Option<StoredSettings>, ids: seq<string>): (r: AppSettings)
    requires saved.Some? && saved.value.platforms.LegacyNames? ==> |ids| == |saved.value.platforms.names|
    ensures saved.None? ==> r == DefaultSettings
    ensures saved.Some? ==>
      r.currency == saved.value.currency && r.currencySymbol == saved.value.currencySymbol
      && r.lowStockThreshold == saved.value.lowStockThreshold
      && r.allowNegativeStock == saved.value.allowNegativeStock
      && r.platforms == MigratePlatforms(saved.value.platforms, ids)
  {
    match saved
    case None => DefaultSettings
    case Some(st) =>
      AppSettings(st.currency, st.currencySymbol, st.lowStockThreshold, st.allowNegativeStock, MigratePlatforms(st.platforms, ids))
  }
}
