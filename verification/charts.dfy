/**
 * Which chart types a query result can be switched between
 * (components/charts/chart-container.tsx:26-43), and when the switcher is
 * shown (105).
 */
module Charts {
  import opened Wrappers

  /** The chart kinds the page draws (components/charts/chart-container.tsx:10). */
  datatype ChartType = Area | Bar | Pie | Radial | Stat

  /**
   * The parts of a chart configuration the rule reads: a key is `None` when
   * it is missing, and so is the list of types when it is not given.
   */
  datatype ChartConfig = ChartConfig(
    kind: ChartType,
    xKey: Option<string>,
    yKey: Option<string>,
    nameKey: Option<string>,
    valueKey: Option<string>,
    supportedTypes: Option<seq<ChartType>>)

  /** A key passes a JavaScript truthiness test: present and not empty. */
  predicate Truthy(key: Option<string>) {
    key.Some? && key.value != ""
  }

  /** The configuration lists its own types, and at least one. */
  predicate HasExplicitTypes(config: ChartConfig) {
    config.supportedTypes.Some? && |config.supportedTypes.value| > 0
  }

  /**
   * `getSupportedTypes`: the listed types when there are any; otherwise the
   * area and bar pair for data with both axes, the pie and radial pair for
   * data with names and values, and the configured kind alone for anything
   * else.
   */
  function SupportedTypes(config: ChartConfig): (r: seq<ChartType>)
    ensures |r| > 0
    ensures HasExplicitTypes(config) ==> r == config.supportedTypes.value
    ensures !HasExplicitTypes(config) ==> |r| <= 2
  {
    if HasExplicitTypes(config) then config.supportedTypes.value
    else if Truthy(config.xKey) && Truthy(config.yKey) then [Area, Bar]
    else if Truthy(config.nameKey) && Truthy(config.valueKey) then [Pie, Radial]
    else [config.kind]
  }

  /** The switcher is shown when there is more than one type to switch between. */
  predicate ShowSwitcher(config: ChartConfig) {
    |SupportedTypes(config)| > 1
  }

  /** An empty list of types counts as no list at all. */
  lemma EmptyListIgnored(config: ChartConfig)
    ensures SupportedTypes(config.(supportedTypes := Some([]))) == SupportedTypes(config.(supportedTypes := None))
  {
  }

  /**
   * The keys the chart drawn for `kind` dereferences
   * (components/charts/chart-container.tsx:52-87): the axes for area and
   * bar, the names and values for pie and radial, none for a stat card.
   */
  predicate Drawable(config: ChartConfig, kind: ChartType) {
    match kind
    case Area | Bar => Truthy(config.xKey) && Truthy(config.yKey)
    case Pie | Radial => Truthy(config.nameKey) && Truthy(config.valueKey)
    case Stat => true
  }

  /**
   * A switcher derived from the keys only offers charts whose keys are
   * present: without a list, every type offered besides the configured kind
   * can be drawn from the configuration, and when there is something to
   * switch between, every type offered can.
   */
  lemma DerivedTypesDrawable(config: ChartConfig)
    requires !HasExplicitTypes(config)
    ensures forall t :: t in SupportedTypes(config) && t != config.kind ==> Drawable(config, t)
    ensures ShowSwitcher(config) ==> forall t :: t in SupportedTypes(config) ==> Drawable(config, t)
  {
  }

  /** A list given by the configuration is offered as it is, drawable or not. */
  lemma ListedTypesUnchecked()
    ensures var config := ChartConfig(Area, None, None, None, None, Some([Pie, Bar]));
            ShowSwitcher(config) && Pie in SupportedTypes(config) && !Drawable(config, Pie)
  {
  }

  /**
   * The switcher is shown exactly when the configuration lists more than one
   * type, or lists none and has both axes or both names and values.
   */
  lemma SwitcherShownIff(config: ChartConfig)
    ensures ShowSwitcher(config) <==>
              if HasExplicitTypes(config) then |config.supportedTypes.value| > 1
              else (Truthy(config.xKey) && Truthy(config.yKey)) || (Truthy(config.nameKey) && Truthy(config.valueKey))
  {
  }

  /**
   * The types offered need not include the kind drawn first: a stat card
   * whose data has both axes offers area and bar only.
   */
  lemma InitialKindMayBeUnlisted()
    ensures var config := ChartConfig(Stat, Some("x"), Some("y"), None, None, None);
            Stat !in SupportedTypes(config) && ShowSwitcher(config)
  {
  }
}
