# flet_gnav_bar: the button and bar data model

This project models the data model of `flet_gnav_bar`, a Google-style bottom
navigation bar control for the flet GUI framework, and proves properties of it.

- A **button** (`FletGNavBarButton`) owns a table of twenty properties. These
  are its text, icon, flags, colours, sizes and badge state. The constructor
  builds the table once and applies colour fallbacks with Python's `or`. Each
  of the six property setters overwrites one key in place.
- The **`icon_name` setter** classifies its argument. A string starting with
  `https://` becomes an image variant; any other string becomes an icon
  variant. The constructor stores its `icon_name` argument raw, unclassified.
- A **bar** (`FletGNavBar`) owns an ordered list of buttons and a cached
  snapshot `tabsData` holding one button table per tab. The snapshot is
  rebuilt only at construction and when `tabs` is assigned. A setter later
  called on an owned tab leaves the snapshot stale.

Files:

- `wrappers.dfy`: `Option`, standing for Python's `Optional[...]`.
- `payload.dfy` (module `Payload`): the table as a value (`ButtonData`, one
  field per key; `Get` reads a key), the constructor's table (`InitialData`),
  the icon rule (`ClassifyIcon`), the setters as values (`Setter`, `Apply`,
  `ApplyAll`) and the lemmas about them.
- `gnav.dfy` (module `GNav`): the `Button` and `Bar` classes, whose methods
  update their fields in place and are proved against the `Payload` functions.

Three behaviours of the code differ from what its own docstrings and
annotations suggest. The model follows the code:

- The class docstring describes `icon_name` as an "Icon name or URL (https://)
  for network image" (`flet_gnav_bar.py:15`), but the constructor stores the
  argument raw (`flet_gnav_bar.py:70`). It is classified only by the setter, so
  a fresh button's icon is `Raw(...)`, even for an `https://` reference.
- The `icon_name` getter is annotated `-> str` (`flet_gnav_bar.py:109`), but it
  returns whatever is stored (`flet_gnav_bar.py:111`). After the setter that is
  the classified variant, a dictionary, not the string that was assigned.
- The docstring calls `color` the "General fallback color"
  (`flet_gnav_bar.py:16`), but `text_color` defaults to `"#FFFFFF"`
  (`flet_gnav_bar.py:52`), which is truthy. So `textColor` is white whatever
  `color` is, unless `text_color` is passed as `None` or `""`
  (`flet_gnav_bar.py:78`).

## Model

| member | source | states |
|---|---|---|
| `Payload.InitialData` | src/flet_gnav_bar/flet_gnav_bar.py:66-89 | The constructor's table. `text` is the name. `icon` is the raw `icon_name`, unclassified. `disabled` is false whatever the arguments. `backgroundColor`, `iconColor` and `textColor` each take their own argument when it is truthy, otherwise `color`. |
| `Payload.DefaultTextColorIgnoresColor` | src/flet_gnav_bar/flet_gnav_bar.py:52-78 | With the default `text_color`, `textColor` is `"#FFFFFF"` for every `color`. With `text_color` passed as `None` or `""`, it is `color`. |
| `Payload.ClassifyIcon` | src/flet_gnav_bar/flet_gnav_bar.py:113-119 | The result is `Image(v)` exactly when `v` starts with `https://`, and `Named(v)` exactly when it does not. It is never raw, and it carries `v` unchanged. |
| `Payload.ClassifyIconExamples` | src/flet_gnav_bar/flet_gnav_bar.py:116 | The prefix test is case-sensitive and needs the whole prefix. `http://…`, `HTTPS://…` and `https:/` all give icon variants. |
| `Payload.Apply` | src/flet_gnav_bar/flet_gnav_bar.py:99-156 | One setter call. Its own key holds the value written (for `icon_name`, the classified variant). Every other key keeps its value. |
| `Payload.ApplyAll` | src/flet_gnav_bar/flet_gnav_bar.py:98-156 | A run of setter calls. Every key that no setter of the run writes keeps its value. |
| `Payload.ApplyAllSnoc` | src/flet_gnav_bar/flet_gnav_bar.py:99-156 | Running one more setter after a run is the same as applying it to the run's result. |
| `Payload.LastWriteReadsBack` | src/flet_gnav_bar/flet_gnav_bar.py:99-156 | After any run, the getter for the last setter's key returns what that setter wrote: the value itself, or the classified variant for `icon_name`. |
| `Payload.SetterIdempotent` | src/flet_gnav_bar/flet_gnav_bar.py:103-156 | Calling the same setter twice with the same value leaves the table as one call does. |
| `Payload.ConstructorOnlyKeysFixed` | src/flet_gnav_bar/flet_gnav_bar.py:66-156 | Only six keys have setters. Every other key keeps its constructor value through any run of setters: badge text and colours, the other colours, sizes, gap, debug and semantic label. |
| `Payload.DisabledKeptUntilWritten` | src/flet_gnav_bar/flet_gnav_bar.py:98-156 | A run of setters with no `disabled` write leaves `disabled` as it was. |
| `Payload.DisabledFalseUntilWritten` | src/flet_gnav_bar/flet_gnav_bar.py:84 | `disabled` stays false after construction until the `disabled` setter runs. |
| `Payload.IconRawIff` | src/flet_gnav_bar/flet_gnav_bar.py:113-120 | After a run the icon is raw exactly when it was raw before and the run has no `icon_name` write. Once classified, it stays classified. |
| `Payload.IconRawUntilIconNameSet` | src/flet_gnav_bar/flet_gnav_bar.py:70 | From construction, the icon is the raw argument (even one starting with `https://`) exactly until the first `icon_name` write. |
| `Payload.WireNamesDistinct` | src/flet_gnav_bar/flet_gnav_bar.py:68-89 | No two keys share a payload key name, so the payload has twenty entries. |
| `GNav.Button.constructor` | src/flet_gnav_bar/flet_gnav_bar.py:40-90 | The table is `InitialData` of the arguments. Its icon is raw and `disabled` is false. |
| `GNav.Button.SetName` | src/flet_gnav_bar/flet_gnav_bar.py:103-106 | Writes `text` only. The getter returns the new value and the other nineteen keys are unchanged. |
| `GNav.Button.SetIconName` | src/flet_gnav_bar/flet_gnav_bar.py:113-120 | Writes `icon` only: `Image(value)` when `value` starts with `https://`, `Named(value)` otherwise. The other keys are unchanged. |
| `GNav.Button.SetActive` | src/flet_gnav_bar/flet_gnav_bar.py:126-129 | Writes `active` only. The getter returns the new value and the other keys are unchanged. |
| `GNav.Button.SetHaptic` | src/flet_gnav_bar/flet_gnav_bar.py:135-138 | Writes `haptic` only. The getter returns the new value and the other keys are unchanged. |
| `GNav.Button.SetDisabled` | src/flet_gnav_bar/flet_gnav_bar.py:144-147 | Writes `disabled` only. The getter returns the new value and the other keys are unchanged. |
| `GNav.Button.SetBadgeVisible` | src/flet_gnav_bar/flet_gnav_bar.py:153-156 | Writes `badgeVisible` only. The getter returns the new value and the other keys are unchanged. |
| `GNav.Snapshot` | src/flet_gnav_bar/flet_gnav_bar.py:217-220 | The `tabsData` list has one entry per tab, in tab order. Entry `i` is tab `i`'s table at the time of the call. |
| `GNav.Bar.constructor` | src/flet_gnav_bar/flet_gnav_bar.py:181-215 | `tabs` is the given list, or empty for `None` or `[]`. `tabsData` matches the tabs' tables pointwise. The selected index and the styling are stored as given. |
| `GNav.Bar.UpdateTabsAttr` | src/flet_gnav_bar/flet_gnav_bar.py:217-220 | Rebuilds `tabsData` from the tabs' current tables and changes nothing else. |
| `GNav.Bar.SetTabs` | src/flet_gnav_bar/flet_gnav_bar.py:229-232 | Replaces `tabs` (`None` or `[]` give no tabs) and rebuilds `tabsData` to match. The selected index and the styling are unchanged. |
| `GNav.Bar.SetSelectedIndex` | src/flet_gnav_bar/flet_gnav_bar.py:238-240 | Stores any integer, with no check against the number of tabs. |
| `GNav.SetOwnedTab` | src/flet_gnav_bar/flet_gnav_bar.py:99-156 | Any of the six setters, called on a tab the bar owns, changes that tab's table as `Apply` says but neither `tabs` nor `tabsData`. From a matching snapshot, entry `i` still holds the tab's old table, and the snapshot stops matching whenever the setter changed the table. Writing the value the tab already holds is allowed. |

## Left out

- The flet base classes `Control` and `ConstrainedControl` are not part of this model. Neither is their attribute store (`_set_attr`, `_set_attr_json`, `_get_attr`). A button's published attribute is taken to be its table. The JSON round trip in `_update_tabs_attr` is taken to be identity on that table; how flet's encoder treats `None` entries is not modelled.
- The bar's pass-through properties are not modelled as setters. These are `gap`, the colours, `tab_border_radius`, `icon_size`, `text_size`, `debug` and `haptic`. The constructor stores them once in `BarStyle`. Their setters only store a value in flet's store, and flet does their type coercion.
- The selection-change callback `on_change` is left out. flet dispatches it, and this file does not define it.
- `_get_control_name` is left out. It returns constant routing strings for the renderer.
- The button constructor's `opacity`, `tooltip` and `visible` are left out. They go to the flet base class and never reach the table.
- `_get_button_data` is not a separate member. It returns the table, which is the `data` field.
- Python does not check argument types, and this model does. Each key holds a value of its annotated type: strings, booleans, optional strings, and `real` for the float sizes.
- Python stores the list passed to `tabs` itself, so a later change to that list object shows through `tabs`. Here `tabs` is a sequence value. List aliasing is not modelled, but button aliasing is: tabs are shared object references.
- The example application (`examples/flet_gnav_bar_example/src/main.py`) is UI demo code and is not modelled. Its `tab.badge_text = ...` matches no property, so it never reaches the table. Its manual `_set_attr_json` call refreshes only the tab's own attribute.
- `extras/custom.js` is documentation-site scrolling and highlighting. It is not part of this model.
