/** The property table of one navigation-bar button (`_button_data` in
    src/flet_gnav_bar/flet_gnav_bar.py) and the pure rules that build and
    update it: the constructor's colour fallbacks, the `https://` icon
    classification and the six property setters as values. */
module Payload {
  import opened Wrappers

  /** What the `icon` entry holds: the constructor's argument as it was given
      (`Raw`), or the variant the `icon_name` setter builds from it:
      `{"type": "icon", "name": …}` (`Named`) or `{"type": "image", "src": …}`
      (`Image`). */
  datatype IconSpec = Raw(raw: string) | Named(name: string) | Image(src: string)

  /** The string an icon entry was made from. */
  function IconSource(spec: IconSpec): string {
    match spec
    case Raw(s) => s
    case Named(s) => s
    case Image(s) => s
  }

  /** The table itself: one field per key, each of the type its value has.
      Sizes and gaps are floats that this layer only stores, so `real` stands
      for them; `None` stands for Python's `None`. */
  datatype ButtonData = ButtonData(
    text: string,
    icon: IconSpec,
    active: bool,
    haptic: bool,
    backgroundColor: Option<string>,
    iconColor: Option<string>,
    rippleColor: Option<string>,
    hoverColor: Option<string>,
    iconActiveColor: Option<string>,
    textColor: Option<string>,
    debug: bool,
    gap: real,
    iconSize: real,
    textSize: real,
    semanticLabel: Option<string>,
    disabled: bool,
    badgeText: Option<string>,
    badgeColor: Option<string>,
    badgeBackgroundColor: Option<string>,
    badgeVisible: bool)

  /** The twenty keys of the table, in the order the constructor writes them. */
  datatype Key =
    | Text | Icon | Active | Haptic
    | BackgroundColor | IconColor | RippleColor | HoverColor | IconActiveColor | TextColor
    | Debug | Gap | IconSize | TextSize | SemanticLabel | Disabled
    | BadgeText | BadgeColor | BadgeBackgroundColor | BadgeVisible

  /** The key as it appears in the payload sent to the renderer. */
  function WireName(k: Key): string {
    match k
    case Text => "text"
    case Icon => "icon"
    case Active => "active"
    case Haptic => "haptic"
    case BackgroundColor => "backgroundColor"
    case IconColor => "iconColor"
    case RippleColor => "rippleColor"
    case HoverColor => "hoverColor"
    case IconActiveColor => "iconActiveColor"
    case TextColor => "textColor"
    case Debug => "debug"
    case Gap => "gap"
    case IconSize => "iconSize"
    case TextSize => "textSize"
    case SemanticLabel => "semanticLabel"
    case Disabled => "disabled"
    case BadgeText => "badgeText"
    case BadgeColor => "badgeColor"
    case BadgeBackgroundColor => "badgeBackgroundColor"
    case BadgeVisible => "badgeVisible"
  }

  /** A JSON value as stored under a key; `Null` is Python's `None`. */
  datatype Value = Str(s: string) | Null | Bool(b: bool) | Num(x: real) | IconValue(spec: IconSpec)

  function OptStr(o: Option<string>): Value {
    match o
    case None => Null
    case Some(s) => Str(s)
  }

  /** The table's entry under key `k`, as `_button_data[k]` reads it. */
  function Get(d: ButtonData, k: Key): Value {
    match k
    case Text => Str(d.text)
    case Icon => IconValue(d.icon)
    case Active => Bool(d.active)
    case Haptic => Bool(d.haptic)
    case BackgroundColor => OptStr(d.backgroundColor)
    case IconColor => OptStr(d.iconColor)
    case RippleColor => OptStr(d.rippleColor)
    case HoverColor => OptStr(d.hoverColor)
    case IconActiveColor => OptStr(d.iconActiveColor)
    case TextColor => OptStr(d.textColor)
    case Debug => Bool(d.debug)
    case Gap => Num(d.gap)
    case IconSize => Num(d.iconSize)
    case TextSize => Num(d.textSize)
    case SemanticLabel => OptStr(d.semanticLabel)
    case Disabled => Bool(d.disabled)
    case BadgeText => OptStr(d.badgeText)
    case BadgeColor => OptStr(d.badgeColor)
    case BadgeBackgroundColor => OptStr(d.badgeBackgroundColor)
    case BadgeVisible => Bool(d.badgeVisible)
  }

  /** Python truthiness of an optional string: `None` and `""` are false. */
  predicate Truthy(o: Option<string>) {
    o.Some? && o.value != ""
  }

  /** Python's `a or b` on two optional strings. */
  function Or(a: Option<string>, b: Option<string>): Option<string> {
    if Truthy(a) then a else b
  }

  /** The button constructor's parameters other than the framework's own
      `opacity`, `tooltip` and `visible`. */
  datatype ButtonArgs = ButtonArgs(
    name: string,
    iconName: string,
    color: Option<string>,
    active: bool,
    haptic: bool,
    backgroundColor: Option<string>,
    iconColor: Option<string>,
    rippleColor: Option<string>,
    hoverColor: Option<string>,
    iconActiveColor: Option<string>,
    textColor: Option<string>,
    debug: bool,
    gap: real,
    iconSize: real,
    textSize: real,
    semanticLabel: Option<string>,
    badgeText: Option<string>,
    badgeColor: Option<string>,
    badgeBackgroundColor: Option<string>,
    badgeVisible: bool)

  /** The constructor's arguments when only `name` and `icon_name` are passed. */
  function Defaults(name: string, iconName: string): ButtonArgs {
    ButtonArgs(name, iconName, None, false, true, None, None, None, None, None,
               Some("#FFFFFF"), false, 8.0, 24.0, 14.0, None, None, None, None, false)
  }

  /** The table the constructor builds. The icon is stored as given, without
      classification; `disabled` starts false whatever the arguments; the
      background, icon and text colours fall back to `color` when their own
      argument is `None` or empty; every other key holds its argument. */
  function InitialData(a: ButtonArgs): (r: ButtonData)
    ensures r.text == a.name
    ensures r.icon == Raw(a.iconName)
    ensures !r.disabled
    ensures r.active == a.active && r.haptic == a.haptic && r.badgeVisible == a.badgeVisible
    ensures Truthy(a.backgroundColor) ==> r.backgroundColor == a.backgroundColor
    ensures !Truthy(a.backgroundColor) ==> r.backgroundColor == a.color
    ensures Truthy(a.iconColor) ==> r.iconColor == a.iconColor
    ensures !Truthy(a.iconColor) ==> r.iconColor == a.color
    ensures Truthy(a.textColor) ==> r.textColor == a.textColor
    ensures !Truthy(a.textColor) ==> r.textColor == a.color
  {
    ButtonData(
      text := a.name,
      icon := Raw(a.iconName),
      active := a.active,
      haptic := a.haptic,
      backgroundColor := Or(a.backgroundColor, a.color),
      iconColor := Or(a.iconColor, a.color),
      rippleColor := a.rippleColor,
      hoverColor := a.hoverColor,
      iconActiveColor := a.iconActiveColor,
      textColor := Or(a.textColor, a.color),
      debug := a.debug,
      gap := a.gap,
      iconSize := a.iconSize,
      textSize := a.textSize,
      semanticLabel := a.semanticLabel,
      disabled := false,
      badgeText := a.badgeText,
      badgeColor := a.badgeColor,
      badgeBackgroundColor := a.badgeBackgroundColor,
      badgeVisible := a.badgeVisible)
  }

  /** The prefix that marks an icon reference as a network image. */
  const ImagePrefix: string := "https://"

  predicate StartsWith(s: string, prefix: string) {
    |prefix| <= |s| && s[..|prefix|] == prefix
  }

  /** The `icon_name` setter's rule: a reference that starts with `https://`
      becomes an image variant, anything else an icon variant; either way the
      variant carries the reference unchanged and is never the raw form. */
  function ClassifyIcon(v: string): (r: IconSpec)
    ensures r == Image(v) <==> StartsWith(v, ImagePrefix)
    ensures r == Named(v) <==> !StartsWith(v, ImagePrefix)
    ensures !r.Raw? && IconSource(r) == v
  {
    if StartsWith(v, ImagePrefix) then Image(v) else Named(v)
  }

  /** One call of a button property setter, as a value. */
  datatype Setter =
    | WriteName(text: string)
    | WriteIconName(iconName: string)
    | WriteActive(active: bool)
    | WriteHaptic(haptic: bool)
    | WriteDisabled(disabled: bool)
    | WriteBadgeVisible(badgeVisible: bool)

  /** The one key a setter writes. */
  function Target(op: Setter): Key {
    match op
    case WriteName(_) => Text
    case WriteIconName(_) => Icon
    case WriteActive(_) => Active
    case WriteHaptic(_) => Haptic
    case WriteDisabled(_) => Disabled
    case WriteBadgeVisible(_) => BadgeVisible
  }

  // Writing one field of the table leaves the entry under every other key as
  // it was.

  lemma TextWriteFrame(d: ButtonData, v: string)
    ensures forall k :: k != Text ==> Get(d.(text := v), k) == Get(d, k)
  {
  }

  lemma IconWriteFrame(d: ButtonData, v: IconSpec)
    ensures forall k :: k != Icon ==> Get(d.(icon := v), k) == Get(d, k)
  {
  }

  lemma ActiveWriteFrame(d: ButtonData, v: bool)
    ensures forall k :: k != Active ==> Get(d.(active := v), k) == Get(d, k)
  {
  }

  lemma HapticWriteFrame(d: ButtonData, v: bool)
    ensures forall k :: k != Haptic ==> Get(d.(haptic := v), k) == Get(d, k)
  {
  }

  lemma DisabledWriteFrame(d: ButtonData, v: bool)
    ensures forall k :: k != Disabled ==> Get(d.(disabled := v), k) == Get(d, k)
  {
  }

  lemma BadgeVisibleWriteFrame(d: ButtonData, v: bool)
    ensures forall k :: k != BadgeVisible ==> Get(d.(badgeVisible := v), k) == Get(d, k)
  {
  }

  /** The table after one setter: its own key holds the value written (the
      classified variant for `icon_name`), every other key is unchanged. */
  function Apply(d: ButtonData, op: Setter): (r: ButtonData)
    ensures forall k :: k != Target(op) ==> Get(r, k) == Get(d, k)
    ensures op.WriteName? ==> r.text == op.text
    ensures op.WriteIconName? ==> r.icon == ClassifyIcon(op.iconName)
    ensures op.WriteActive? ==> r.active == op.active
    ensures op.WriteHaptic? ==> r.haptic == op.haptic
    ensures op.WriteDisabled? ==> r.disabled == op.disabled
    ensures op.WriteBadgeVisible? ==> r.badgeVisible == op.badgeVisible
  {
    match op
    case WriteName(v) => TextWriteFrame(d, v); d.(text := v)
    case WriteIconName(v) => IconWriteFrame(d, ClassifyIcon(v)); d.(icon := ClassifyIcon(v))
    case WriteActive(v) => ActiveWriteFrame(d, v); d.(active := v)
    case WriteHaptic(v) => HapticWriteFrame(d, v); d.(haptic := v)
    case WriteDisabled(v) => DisabledWriteFrame(d, v); d.(disabled := v)
    case WriteBadgeVisible(v) => BadgeVisibleWriteFrame(d, v); d.(badgeVisible := v)
  }

  /** No setter in `ops` writes key `k`. */
  predicate Untouched(ops: seq<Setter>, k: Key) {
    forall i :: 0 <= i < |ops| ==> Target(ops[i]) != k
  }

  lemma UntouchedTail(ops: seq<Setter>)
    requires ops != []
    ensures forall k :: Untouched(ops, k) ==> Target(ops[0]) != k && Untouched(ops[1..], k)
  {
    forall k | Untouched(ops, k) ensures Untouched(ops[1..], k) {
      forall i | 0 <= i < |ops| - 1 ensures Target(ops[1..][i]) != k {
        assert ops[1..][i] == ops[i + 1];
      }
    }
  }

  /** The table after a run of setter calls, first to last: a key that no
      setter of the run writes keeps its value. */
  function ApplyAll(d: ButtonData, ops: seq<Setter>): (r: ButtonData)
    ensures forall k :: Untouched(ops, k) ==> Get(r, k) == Get(d, k)
    decreases |ops|
  {
    if ops == [] then d
    else
      UntouchedTail(ops);
      ApplyAll(Apply(d, ops[0]), ops[1..])
  }

  /** The keys some setter writes; every other key keeps its constructor value. */
  const SetterKeys: set<Key> := {Text, Icon, Active, Haptic, Disabled, BadgeVisible}

  /** Badge text and colours, the other colours, sizes, gap, debug flag and
      semantic label never change after construction, whatever setters run. */
  lemma ConstructorOnlyKeysFixed(a: ButtonArgs, ops: seq<Setter>, k: Key)
    requires k !in SetterKeys
    ensures Get(ApplyAll(InitialData(a), ops), k) == Get(InitialData(a), k)
  {
    forall i | 0 <= i < |ops| ensures Target(ops[i]) != k {
      assert Target(ops[i]) in SetterKeys;
    }
  }

  /** A run without a `disabled` write leaves `disabled` as it was. */
  lemma DisabledKeptUntilWritten(d: ButtonData, ops: seq<Setter>)
    requires forall i :: 0 <= i < |ops| ==> !ops[i].WriteDisabled?
    ensures ApplyAll(d, ops).disabled == d.disabled
  {
    forall i | 0 <= i < |ops| ensures Target(ops[i]) != Disabled {
      assert !ops[i].WriteDisabled?;
    }
    assert Get(ApplyAll(d, ops), Disabled) == Get(d, Disabled);
  }

  /** `disabled` stays false after construction until its setter runs. */
  lemma DisabledFalseUntilWritten(a: ButtonArgs, ops: seq<Setter>)
    requires forall i :: 0 <= i < |ops| ==> !ops[i].WriteDisabled?
    ensures !ApplyAll(InitialData(a), ops).disabled
  {
    DisabledKeptUntilWritten(InitialData(a), ops);
  }

  /** No setter in `ops` is `icon_name`. */
  predicate NoIconWrite(ops: seq<Setter>) {
    forall i :: 0 <= i < |ops| ==> !ops[i].WriteIconName?
  }

  /** The icon entry is in raw form after a run exactly when it was raw before
      and the run has no `icon_name` write: once classified it stays classified. */
  lemma {:induction false} IconRawIff(d: ButtonData, ops: seq<Setter>)
    ensures ApplyAll(d, ops).icon.Raw? <==> d.icon.Raw? && NoIconWrite(ops)
    decreases |ops|
  {
    if ops != [] {
      IconRawIff(Apply(d, ops[0]), ops[1..]);
      if !ops[0].WriteIconName? && NoIconWrite(ops[1..]) {
        forall i | 0 < i < |ops| ensures !ops[i].WriteIconName? {
          assert ops[i] == ops[1..][i - 1];
        }
      }
    }
  }

  /** Straight after construction the icon is the raw argument, even one that
      starts with `https://`; it stays so until `icon_name` is assigned, and is
      classified from then on. */
  lemma IconRawUntilIconNameSet(a: ButtonArgs, ops: seq<Setter>)
    ensures ApplyAll(InitialData(a), ops).icon.Raw? <==> NoIconWrite(ops)
    ensures NoIconWrite(ops) ==> ApplyAll(InitialData(a), ops).icon == Raw(a.iconName)
  {
    IconRawIff(InitialData(a), ops);
    if NoIconWrite(ops) {
      assert Untouched(ops, Icon);
    }
  }

  /** Running one more setter after a run is applying it to the run's result. */
  lemma {:induction false} ApplyAllSnoc(d: ButtonData, ops: seq<Setter>, op: Setter)
    ensures ApplyAll(d, ops + [op]) == Apply(ApplyAll(d, ops), op)
    decreases |ops|
  {
    if ops == [] {
      assert [op][1..] == [];
    } else {
      assert (ops + [op])[1..] == ops[1..] + [op];
      ApplyAllSnoc(Apply(d, ops[0]), ops[1..], op);
    }
  }

  /** After any run of setters, the getter of the last setter's key returns
      what that setter wrote: the value itself for the plain setters, the
      classified variant for `icon_name`. */
  lemma LastWriteReadsBack(d: ButtonData, ops: seq<Setter>, op: Setter)
    ensures var r := ApplyAll(d, ops + [op]);
      match op
      case WriteName(v) => r.text == v
      case WriteIconName(v) => r.icon == ClassifyIcon(v)
      case WriteActive(v) => r.active == v
      case WriteHaptic(v) => r.haptic == v
      case WriteDisabled(v) => r.disabled == v
      case WriteBadgeVisible(v) => r.badgeVisible == v
  {
    ApplyAllSnoc(d, ops, op);
  }

  /** Running the same setter twice leaves the table as running it once. */
  lemma SetterIdempotent(d: ButtonData, op: Setter)
    ensures Apply(Apply(d, op), op) == Apply(d, op)
  {
  }

  /** With the default `text_color` the text colour is white whatever `color`
      is; `color` reaches it only when `text_color` is passed as `None` or `""`. */
  lemma DefaultTextColorIgnoresColor(name: string, iconName: string, color: Option<string>)
    ensures InitialData(Defaults(name, iconName).(color := color)).textColor == Some("#FFFFFF")
    ensures InitialData(Defaults(name, iconName).(color := color, textColor := None)).textColor == color
    ensures InitialData(Defaults(name, iconName).(color := color, textColor := Some(""))).textColor == color
  {
  }

  /** `https://` is matched case-sensitively and in full. */
  lemma ClassifyIconExamples()
    ensures ClassifyIcon("heart") == Named("heart")
    ensures ClassifyIcon("https://example.com/a.png") == Image("https://example.com/a.png")
    ensures ClassifyIcon("http://example.com/a.png") == Named("http://example.com/a.png")
    ensures ClassifyIcon("HTTPS://example.com") == Named("HTTPS://example.com")
    ensures ClassifyIcon("https:/") == Named("https:/")
  {
    assert "http://example.com/a.png"[4] != ImagePrefix[4];
    assert "HTTPS://example.com"[0] != ImagePrefix[0];
  }

  /** The twenty wire names are distinct, so the payload has twenty entries. */
  lemma WireNamesDistinct(j: Key, k: Key)
    requires WireName(j) == WireName(k)
    ensures j == k
  {
  }
}
