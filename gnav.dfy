/** The two controls of src/flet_gnav_bar/flet_gnav_bar.py: a button that owns
    its property table and updates it in place, and a bar that owns an ordered
    list of buttons and keeps a snapshot of their tables. The framework's
    attribute store is not modelled: what a button publishes is its table, and
    reading it back through JSON gives the same table. */
module GNav {
  import opened Wrappers
  import opened Payload

  /** One tab of the bar (`FletGNavBarButton`). */
  class Button {
    var data: ButtonData

    /** Builds the table once from the arguments. */
    constructor (args: ButtonArgs)
      ensures data == InitialData(args)
      ensures data.icon == Raw(args.iconName) && !data.disabled
    {
      data := InitialData(args);
    }

    function Name(): string reads this { data.text }
    function IconName(): IconSpec reads this { data.icon }
    function Active(): bool reads this { data.active }
    function Haptic(): bool reads this { data.haptic }
    function Disabled(): bool reads this { data.disabled }
    function BadgeVisible(): bool reads this { data.badgeVisible }

    method SetName(value: string)
      modifies this
      ensures data == Apply(old(data), WriteName(value))
      ensures Name() == value
      ensures forall k :: k != Key.Text ==> Get(data, k) == Get(old(data), k)
    {
      data := data.(text := value);
    }

    /** Stores the classified variant, so the getter afterwards returns that
        variant rather than `value`. */
    method SetIconName(value: string)
      modifies this
      ensures data == Apply(old(data), WriteIconName(value))
      ensures StartsWith(value, ImagePrefix) ==> IconName() == Image(value)
      ensures !StartsWith(value, ImagePrefix) ==> IconName() == Named(value)
      ensures forall k :: k != Key.Icon ==> Get(data, k) == Get(old(data), k)
    {
      if StartsWith(value, ImagePrefix) {
        data := data.(icon := Image(value));
      } else {
        data := data.(icon := Named(value));
      }
    }

    method SetActive(value: bool)
      modifies this
      ensures data == Apply(old(data), WriteActive(value))
      ensures Active() == value
      ensures forall k :: k != Key.Active ==> Get(data, k) == Get(old(data), k)
    {
      data := data.(active := value);
    }

    method SetHaptic(value: bool)
      modifies this
      ensures data == Apply(old(data), WriteHaptic(value))
      ensures Haptic() == value
      ensures forall k :: k != Key.Haptic ==> Get(data, k) == Get(old(data), k)
    {
      data := data.(haptic := value);
    }

    method SetDisabled(value: bool)
      modifies this
      ensures data == Apply(old(data), WriteDisabled(value))
      ensures Disabled() == value
      ensures forall k :: k != Key.Disabled ==> Get(data, k) == Get(old(data), k)
    {
      data := data.(disabled := value);
    }

    method SetBadgeVisible(value: bool)
      modifies this
      ensures data == Apply(old(data), WriteBadgeVisible(value))
      ensures BadgeVisible() == value
      ensures forall k :: k != Key.BadgeVisible ==> Get(data, k) == Get(old(data), k)
    {
      data := data.(badgeVisible := value);
    }
  }

  /** The tables of `tabs` in tab order, as they are at the moment of the call:
      the `tabsData` list built by the bar. */
  function Snapshot(tabs: seq<Button>): (r: seq<ButtonData>)
    reads tabs
    ensures |r| == |tabs|
    ensures forall i :: 0 <= i < |tabs| ==> r[i] == tabs[i].data
  {
    if tabs == [] then [] else [tabs[0].data] + Snapshot(tabs[1..])
  }

  /** Python's `tabs or []`: `None` and the empty list both give no tabs. */
  function TabsOrEmpty(tabs: Option<seq<Button>>): seq<Button> {
    if tabs.Some? && tabs.value != [] then tabs.value else []
  }

  /** The bar's styling attributes, which it only stores and hands on. */
  datatype BarStyle = BarStyle(
    gap: real,
    activeColor: Option<string>,
    color: Option<string>,
    rippleColor: Option<string>,
    hoverColor: Option<string>,
    backgroundColor: Option<string>,
    tabBackgroundColor: Option<string>,
    tabBorderRadius: Option<real>,
    iconSize: Option<real>,
    textSize: Option<real>,
    debug: bool,
    haptic: Option<bool>)

  /** The navigation bar (`FletGNavBar`). */
  class Bar {
    var tabs: seq<Button>
    var tabsData: seq<ButtonData>
    var selectedIndex: int
    var style: BarStyle

    /** The snapshot matches the tabs' current tables. */
    ghost predicate Synced()
      reads this, tabs
    {
      tabsData == Snapshot(tabs)
    }

    constructor (tabs: Option<seq<Button>>, selectedIndex: int, style: BarStyle)
      ensures this.tabs == (if tabs.Some? then tabs.value else [])
      ensures |tabsData| == |this.tabs|
      ensures forall i :: 0 <= i < |this.tabs| ==> tabsData[i] == this.tabs[i].data
      ensures Synced()
      ensures this.selectedIndex == selectedIndex && this.style == style
    {
      this.tabs := TabsOrEmpty(tabs);
      tabsData := Snapshot(TabsOrEmpty(tabs));
      this.selectedIndex := selectedIndex;
      this.style := style;
    }

    /** Rebuilds `tabsData` from the tabs' current tables. */
    method UpdateTabsAttr()
      modifies this`tabsData
      ensures Synced()
    {
      tabsData := Snapshot(tabs);
    }

    /** Replaces the tabs and rebuilds the snapshot; nothing else changes. */
    method SetTabs(value: Option<seq<Button>>)
      modifies this`tabs, this`tabsData
      ensures tabs == (if value.Some? then value.value else [])
      ensures |tabsData| == |tabs|
      ensures forall i :: 0 <= i < |tabs| ==> tabsData[i] == tabs[i].data
      ensures Synced()
    {
      tabs := TabsOrEmpty(value);
      UpdateTabsAttr();
    }

    function SelectedIndex(): int reads this { selectedIndex }

    /** Stores any index, with no check against the number of tabs. */
    method SetSelectedIndex(value: int)
      modifies this`selectedIndex
      ensures SelectedIndex() == value
    {
      selectedIndex := value;
    }
  }

  /** Any of the six setters called on a tab the bar already owns changes that
      tab's table but not the bar: `tabs` and `tabsData` stay as they were, so a
      snapshot that matched keeps the tab's old table and stops matching as soon
      as the setter changed something, until `tabs` is assigned again. */
  method SetOwnedTab(bar: Bar, i: nat, op: Setter)
    requires i < |bar.tabs|
    modifies bar.tabs[i]
    ensures bar.tabs == old(bar.tabs) && bar.tabsData == old(bar.tabsData)
    ensures bar.tabs[i].data == Apply(old(bar.tabs[i].data), op)
    ensures old(bar.Synced()) ==> bar.tabsData[i] == old(bar.tabs[i].data)
    ensures old(bar.Synced()) && Apply(old(bar.tabs[i].data), op) != old(bar.tabs[i].data)
      ==> !bar.Synced()
  {
    var tab := bar.tabs[i];
    match op
    case WriteName(v) => tab.SetName(v);
    case WriteIconName(v) => tab.SetIconName(v);
    case WriteActive(v) => tab.SetActive(v);
    case WriteHaptic(v) => tab.SetHaptic(v);
    case WriteDisabled(v) => tab.SetDisabled(v);
    case WriteBadgeVisible(v) => tab.SetBadgeVisible(v);
  }
}
