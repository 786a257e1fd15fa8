/** The badge's pure configuration helpers: the preset sizes, the height
    clamp, the per-platform font-size tables, the width multiplier, and the
    colour, shape and position resolution done by the constructor. */
module BadgeConfig {
  import opened Optional
  import Decimal

  /** The host platform, as `Ti.Platform.osname` reports it. */
  datatype Platform = Android | MobileWeb | IPhone | IPad | OtherOS

  datatype Shape = Round | Square

  /** The two stops of the badge's vertical background gradient. */
  datatype GradientPair = GradientPair(start: string, end: string)

  /** The constructor's parameter object. Every field may be missing;
      `None` also stands for a value that is not an integer (`isInteger`),
      except for `size`, where `None` means missing or falsy (`undefined`,
      `null`, `false`, `''`): such a size falls back to TAB. */
  datatype Params = Params(
    value: Option<int>,
    top: Option<int>,
    left: Option<int>,
    bottom: Option<int>,
    right: Option<int>,
    shape: Option<int>,
    size: Option<nat>,
    color: Option<string>,
    useBorder: Option<bool>,
    useShading: Option<bool>)

  /** Resolved offsets of the badge's container; `None` leaves the side unset. */
  datatype Position = Position(top: Option<int>, bottom: Option<int>, left: Option<int>, right: Option<int>)

  // Preset heights (`Badge.size`).
  const TAB := 18
  const APP := 23
  const BIG := 27
  const MAX := 30

  // Shape codes (`Badge.shape`).
  const ROUND_CODE := 100
  const SQUARE_CODE := 101

  const MIN_HEIGHT := 15
  const MAX_HEIGHT := 30

  /** The iOS multiplier column is chosen by `exports.isIPhone || exports.isIPad`,
      and those exports are never defined: every platform gets the other column. */
  function UsesIOSMultipliers(p: Platform): (ios: bool)
    ensures !ios
  {
    false
  }

  /** Clamps a positive height into [15, 30]. A height that is not a positive
      integer falls back to `exports.TAB`, which is undefined: `None`. */
  function NormalizeHeight(height: int): (r: Option<int>)
    ensures r.Some? <==> height > 0
    ensures r.Some? ==> MIN_HEIGHT <= r.value <= MAX_HEIGHT
    ensures MIN_HEIGHT <= height <= MAX_HEIGHT ==> r == Some(height)
    ensures 0 < height < MIN_HEIGHT ==> r == Some(MIN_HEIGHT)
    ensures height > MAX_HEIGHT ==> r == Some(MAX_HEIGHT)
  {
    if height > 0 then
      if height < MIN_HEIGHT then Some(MIN_HEIGHT)
      else if height > MAX_HEIGHT then Some(MAX_HEIGHT)
      else Some(height)
    else None
  }

  lemma NormalizeHeightIdempotent(height: int)
    requires height > 0
    ensures NormalizeHeight(NormalizeHeight(height).value) == NormalizeHeight(height)
  {
  }

  const ANDROID_FONTS: map<int, int> :=
    map[15 := 10, 16 := 10, 17 := 11, 18 := 11, 19 := 12, 20 := 14, 21 := 14, 22 := 15,
        23 := 16, 24 := 16, 25 := 17, 26 := 18, 27 := 19, 28 := 19, 29 := 20, 30 := 21]
  const MOBILE_WEB_FONTS: map<int, int> :=
    map[15 := 10, 16 := 10, 17 := 11, 18 := 11, 19 := 13, 20 := 14, 21 := 14, 22 := 15,
        23 := 16, 24 := 16, 25 := 17, 26 := 18, 27 := 19, 28 := 20, 29 := 21, 30 := 22]
  const IOS_FONTS: map<int, int> :=
    map[15 := 10, 16 := 10, 17 := 11, 18 := 11, 19 := 12, 20 := 14, 21 := 15, 22 := 16,
        23 := 17, 24 := 17, 25 := 17, 26 := 18, 27 := 19, 28 := 19, 29 := 20, 30 := 21]

  /** The font-size table in force on a platform; everything that is neither
      Android nor MobileWeb gets the iOS table. */
  function FontTable(p: Platform): map<int, int> {
    match p
    case Android => ANDROID_FONTS
    case MobileWeb => MOBILE_WEB_FONTS
    case _ => IOS_FONTS
  }

  /** `fontSizeFromHeight[height]`; `None` where the table has no entry. */
  function FontSize(p: Platform, height: int): (size: Option<int>)
    ensures size.Some? <==> MIN_HEIGHT <= height <= MAX_HEIGHT
    ensures size.Some? ==> size.value == FontTable(p)[height]
  {
    FontTableDomain(p, height);
    if height in FontTable(p) then Some(FontTable(p)[height]) else None
  }

  /** The heights every table is keyed by. */
  const HEIGHTS: set<int> := {15, 16, 17, 18, 19, 20, 21, 22, 23, 24, 25, 26, 27, 28, 29, 30}

  /** Every table has exactly the heights 15..30 as keys. */
  lemma FontTableDomain(p: Platform, height: int)
    ensures height in FontTable(p) <==> MIN_HEIGHT <= height <= MAX_HEIGHT
  {
    assert height in HEIGHTS <==> MIN_HEIGHT <= height <= MAX_HEIGHT;
    assert height in FontTable(p) <==> height in HEIGHTS by {
      match p
      case Android =>
      case MobileWeb =>
      case _ =>
    }
  }

  /** Every table is non-decreasing in the height. */
  lemma FontTableMonotone(p: Platform, h1: int, h2: int)
    requires MIN_HEIGHT <= h1 <= h2 <= MAX_HEIGHT
    ensures FontTable(p)[h1] <= FontTable(p)[h2]
  {
  }

  /** After normalisation the font lookup always succeeds. */
  lemma NormalizedHeightHasFont(p: Platform, height: int)
    requires height > 0
    ensures FontSize(p, NormalizeHeight(height).value).Some?
  {
  }

  /** The width multiplier, chosen by magnitude thresholds on the value. */
  function WidthMultiplier(ios: bool, value: int): (m: real)
    ensures 1.0 <= m <= 4.0
    ensures value < 10 ==> m == 1.0
    ensures value >= 10000000 ==> m == 4.0
  {
    if value < 10 then 1.0
    else if value < 100 then (if ios then 1.22 else 1.4)
    else if value < 1000 then (if ios then 1.6 else 1.7)
    else if value < 10000 then (if ios then 1.9 else 2.1)
    else if value < 100000 then (if ios then 2.5 else 2.6)
    else if value < 1000000 then (if ios then 2.8 else 2.9)
    else if value < 10000000 then (if ios then 3.3 else 3.4)
    else 4.0
  }

  /** The multiplier table keyed by the number of decimal digits. */
  function DigitMultiplier(ios: bool, digits: nat): real {
    match digits
    case 0 | 1 => 1.0
    case 2 => if ios then 1.22 else 1.4
    case 3 => if ios then 1.6 else 1.7
    case 4 => if ios then 1.9 else 2.1
    case 5 => if ios then 2.5 else 2.6
    case 6 => if ios then 2.8 else 2.9
    case 7 => if ios then 3.3 else 3.4
    case _ => 4.0
  }

  /** The thresholds select exactly the multiplier for the value's digit count. */
  lemma {:induction false} MultiplierFollowsDigitCount(ios: bool, value: nat)
    ensures WidthMultiplier(ios, value) == DigitMultiplier(ios, |Decimal.ToDecimal(value)|)
  {
    assert Decimal.Pow10(7) == 10000000;
    Decimal.DecimalLength(value, 1);
    Decimal.DecimalLength(value, 2);
    Decimal.DecimalLength(value, 3);
    Decimal.DecimalLength(value, 4);
    Decimal.DecimalLength(value, 5);
    Decimal.DecimalLength(value, 6);
    Decimal.DecimalLength(value, 7);
  }

  lemma MultiplierMonotone(ios: bool, v1: int, v2: int)
    requires v1 <= v2
    ensures WidthMultiplier(ios, v1) <= WidthMultiplier(ios, v2)
  {
  }

  lemma DigitMultiplierMonotone(ios: bool, d1: nat, d2: nat)
    requires d1 <= d2
    ensures DigitMultiplier(ios, d1) <= DigitMultiplier(ios, d2)
  {
  }

  /** `determineWidth`: multiplier times height. */
  function Width(ios: bool, value: int, height: int): (w: real)
    ensures height >= 0 ==> height as real <= w <= 4.0 * height as real
    ensures value < 10 ==> w == height as real
  {
    WidthMultiplier(ios, value) * height as real
  }

  lemma WidthMonotone(ios: bool, v1: int, v2: int, height: int)
    requires v1 <= v2 && height >= 0
    ensures Width(ios, v1, height) <= Width(ios, v2, height)
  {
  }

  /** The width `setDimensions` applies: two less than `determineWidth`
      when the badge has no border. */
  function AppliedWidth(ios: bool, useBorder: bool, value: int, height: int): (w: real)
    ensures useBorder ==> w == Width(ios, value, height)
    ensures !useBorder ==> w == Width(ios, value, height) - 2.0
    ensures height >= MIN_HEIGHT ==> w > 0.0
  {
    var width := Width(ios, value, height);
    if useBorder then width else width - 2.0
  }

  const COLOR_TABLE: map<string, GradientPair> :=
    map["RED" := GradientPair("#faa", "#b00"),
        "BLUE" := GradientPair("#aaf", "#11b"),
        "GREEN" := GradientPair("#7c7", "#080"),
        "YELLOW" := GradientPair("#ffc", "#dd0")]

  /** The gradient for a colour name; unknown or missing names get RED's. */
  function ResolveColor(color: Option<string>): (g: GradientPair)
    ensures color.Some? && color.value in COLOR_TABLE ==> g == COLOR_TABLE[color.value]
    ensures !(color.Some? && color.value in COLOR_TABLE) ==> g == COLOR_TABLE["RED"]
  {
    if color.Some? && color.value in COLOR_TABLE then COLOR_TABLE[color.value] else COLOR_TABLE["RED"]
  }

  lemma UnknownColorIsRed(color: Option<string>)
    requires color.None? || color.value !in {"RED", "BLUE", "GREEN", "YELLOW"}
    ensures ResolveColor(color) == ResolveColor(Some("RED"))
  {
  }

  /** The label text colour: dark only on a YELLOW badge. */
  function FontColor(color: Option<string>): (c: string)
    ensures c == "#111" <==> color == Some("YELLOW")
    ensures c != "#111" ==> c == "#fff"
  {
    if color == Some("YELLOW") then "#111" else "#fff"
  }

  /** SQUARE only for exactly the SQUARE code; everything else is ROUND. */
  function ResolveShape(shape: Option<int>): (s: Shape)
    ensures s == Square <==> shape == Some(SQUARE_CODE)
  {
    if shape == Some(SQUARE_CODE) then Square else Round
  }

  function CornerRadius(shape: Shape, height: int): (r: real)
    ensures shape == Square ==> 4.0 * r == height as real
    ensures shape == Round ==> 2.0 * r == height as real
  {
    if shape == Square then height as real / 4.0 else height as real / 2.0
  }

  /** One axis of the position: the first side wins when it is an integer,
      otherwise the second side, otherwise the first side at offset 0. */
  function ResolveAxis(first: Option<int>, second: Option<int>): (r: (Option<int>, Option<int>))
    ensures r.0.Some? != r.1.Some?
    ensures first.Some? ==> r.0 == first
    ensures first.None? && second.Some? ==> r.1 == second
    ensures first.None? && second.None? ==> r.0 == Some(0)
  {
    if first.Some? then (first, None)
    else if second.Some? then (None, second)
    else (Some(0), None)
  }

  /** The parameter object with every field missing. */
  const NO_PARAMS := Params(None, None, None, None, None, None, None, None, None, None)

  /** Without params the constructor keeps its defaults; see DefaultsAreEmptyParams. */
  function Given(params: Option<Params>): (p: Params)
    ensures params.Some? ==> p == params.value
    ensures params.None? ==> p == NO_PARAMS
  {
    if params.Some? then params.value else NO_PARAMS
  }

  function ResolvePosition(p: Params): (pos: Position)
    ensures pos.top.Some? != pos.bottom.Some?
    ensures pos.left.Some? != pos.right.Some?
    ensures p.top.Some? ==> pos.top == p.top
    ensures p.top.None? && p.bottom.Some? ==> pos.bottom == p.bottom
    ensures p.left.Some? ==> pos.left == p.left
    ensures p.left.None? && p.right.Some? ==> pos.right == p.right
  {
    var vertical := ResolveAxis(p.top, p.bottom);
    var horizontal := ResolveAxis(p.left, p.right);
    Position(vertical.0, vertical.1, horizontal.0, horizontal.1)
  }

  /** `params.size || TAB`: a missing or zero size means TAB. */
  function RequestedHeight(size: Option<nat>): (h: int)
    ensures h > 0
    ensures size.None? || size.value == 0 ==> h == TAB
    ensures size.Some? && size.value > 0 ==> h == size.value
  {
    if size.None? || size.value == 0 then TAB else size.value
  }

  /** The badge height: the requested size, clamped into [15, 30]. */
  function ResolveHeight(p: Params): (h: int)
    ensures MIN_HEIGHT <= h <= MAX_HEIGHT
    ensures p.size.Some? && MIN_HEIGHT <= p.size.value <= MAX_HEIGHT ==> h == p.size.value
    ensures p.size.None? ==> h == TAB
  {
    NormalizeHeight(RequestedHeight(p.size)).value
  }

  /** The value the layout is first sized for: `params.value` when it is a
      non-negative integer, else 1. */
  function InitialValue(p: Params): (v: nat)
    ensures p.value.Some? && p.value.value >= 0 ==> v == p.value.value
    ensures !(p.value.Some? && p.value.value >= 0) ==> v == 1
  {
    if p.value.Some? && p.value.value >= 0 then p.value.value else 1
  }

  /** The defaults the constructor starts from (value 1, TAB, ROUND, RED, light
      font, borders and shading on, top and left at 0) are exactly what an
      empty parameter object resolves to. */
  lemma DefaultsAreEmptyParams()
    ensures InitialValue(NO_PARAMS) == 1
    ensures ResolveHeight(NO_PARAMS) == TAB
    ensures ResolveShape(NO_PARAMS.shape) == Round
    ensures ResolveColor(NO_PARAMS.color) == COLOR_TABLE["RED"]
    ensures FontColor(NO_PARAMS.color) == "#fff"
    ensures FlagOrTrue(NO_PARAMS.useBorder) && FlagOrTrue(NO_PARAMS.useShading)
    ensures ResolvePosition(NO_PARAMS) == Position(Some(0), None, Some(0), None)
  {
  }

  /** `params.useBorder === false ? false : true`, and likewise for shading. */
  function FlagOrTrue(flag: Option<bool>): (b: bool)
    ensures !b <==> flag == Some(false)
  {
    flag != Some(false)
  }
}
