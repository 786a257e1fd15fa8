# Badge: a verified model of the numeric badge widget

This project models `Resources/Badge.js`, a numeric badge overlay for
Titanium apps (the red count bubble seen on iOS app icons), in Dafny.
The view-toolkit calls are stripped away. What remains is modelled in two parts:

- **Configuration helpers** (module `BadgeConfig`, file `config.dfy`):
  - the height clamp `normalizeBadgeHeight`;
  - the three per-platform font-size tables;
  - the width multiplier of `determineWidth`;
  - the border adjustment of the width;
  - how the constructor resolves colour, font colour, shape, corner radius, position, flags, height and initial value from its parameter object.
- **The badge instance** (module `BadgeWidget`, file `badge.dfy`): the closure state of `exports.Badge` as the class `Badge`. The constructor fixes the configuration. `SetDimensions`, `ApplyValue`, `Clear`, `Show`, `Hide` and `FetchValue` change or read:
  - the label text;
  - the container's visibility;
  - `previousWidth`;
  - the six layout properties `setDimensions` writes.

  The object invariant `Valid()` says three things:
  - a badge without text is never visible;
  - the label text is always a canonical decimal numeral;
  - the layout is always sized for the number on display.

`decimal.dfy` (module `Decimal`) writes a non-negative integer as a decimal
numeral without leading zeros. That is what `intValue.toString()` gives for the
integers JavaScript numbers represent exactly (up to 2^53). It also holds the parser that inverts it and the link between digit count and
magnitude. Together these show that the multiplier thresholds select the width by number of digits.
`optional.dfy` holds `Option`, which stands for a JavaScript value that is absent, `null` or not an
integer.

## Behaviour as written

Three details are modelled as the code behaves, not as its comments suggest:

- `isIOS` is `exports.isIPhone || exports.isIPad` (Resources/Badge.js:78). Neither export is ever defined, so `isIOS` is always false. Every platform, iPhone and iPad included, gets the second column of multipliers (1.4, 1.7, 2.1, 2.6, 2.9, 3.4). The width functions take the column as a parameter `ios`. `UsesIOSMultipliers` returns `false` for every platform, and the `Badge` class uses it. The font-size table is chosen by `isAndroid`/`isMobileWeb`, which are defined, so iPhone and iPad do get the iOS font table.
- `value.length === 1` (Resources/Badge.js:115) is never true for the numbers `determineWidth` receives. `WidthMultiplier` tests only `value < 10`.
- A height that is not a positive integer makes `normalizeBadgeHeight` return `exports.TAB`, which is undefined, not 18. `NormalizeHeight` returns `None` there. The constructor reaches that branch for any truthy `size` that is not a positive integer. Examples are a negative number, `'BIG'`, `true` and `Infinity`. The model's `Params.size` is a natural number, with `None` for a missing or falsy size, so the constructor cannot reach it.

## Model

| member | source | states |
|---|---|---|
| `Decimal.ToDecimal` | Resources/Badge.js:223 | the label text of a non-negative integer is a canonical decimal numeral (digits only, no leading zero), and it is "0" exactly for 0 |
| `Decimal.ParseToDecimal` | Resources/Badge.js:223 | reading the decimal text back yields the number: the displayed text determines the value |
| `Decimal.ToDecimalParse` | Resources/Badge.js:223 | every canonical numeral is the text of its own value (the other direction of the round trip) |
| `Decimal.DecimalLength` | Resources/Badge.js:115-131 | a number has at most k digits exactly when it is below 10^k, the fact behind the magnitude thresholds |
| `BadgeConfig.UsesIOSMultipliers` | Resources/Badge.js:78 | the iOS multiplier column is selected on no platform, because `exports.isIPhone` and `exports.isIPad` are never defined |
| `BadgeConfig.NormalizeHeight` | Resources/Badge.js:100-112 | defined exactly for positive heights; the result lies in [15,30], equals the input inside that range, is 15 below it and 30 above it |
| `BadgeConfig.NormalizeHeightIdempotent` | Resources/Badge.js:100-112 | normalising a normalised height changes nothing |
| `BadgeConfig.FontTableDomain` | Resources/Badge.js:81-88 | each platform's font table has exactly the heights 15..30 as keys |
| `BadgeConfig.FontSize` | Resources/Badge.js:265 | the lookup `fontSizeFromHeight[height]` finds an entry exactly for heights 15..30, and that entry is the platform table's |
| `BadgeConfig.FontTableMonotone` | Resources/Badge.js:81-88 | each platform's font size is non-decreasing in the height |
| `BadgeConfig.NormalizedHeightHasFont` | Resources/Badge.js:265 | after normalisation the font-size lookup always finds an entry |
| `BadgeConfig.WidthMultiplier` | Resources/Badge.js:113-132 | the multiplier is between 1.0 and 4.0, is 1.0 below 10 and 4.0 from 10^7 upward |
| `BadgeConfig.MultiplierFollowsDigitCount` | Resources/Badge.js:114-132 | for every non-negative value the thresholds select the multiplier listed for its number of decimal digits, in both columns |
| `BadgeConfig.MultiplierMonotone` | Resources/Badge.js:114-132 | the multiplier is non-decreasing in the value, in both columns |
| `BadgeConfig.DigitMultiplierMonotone` | Resources/Badge.js:114-132 | the multiplier is non-decreasing in the digit count |
| `BadgeConfig.Width` | Resources/Badge.js:113-134 | the width lies between one and four badge heights, and is exactly one height for values below 10 |
| `BadgeConfig.WidthMonotone` | Resources/Badge.js:133 | for a fixed height, a larger value never gets a narrower badge |
| `BadgeConfig.AppliedWidth` | Resources/Badge.js:195-196 | the applied width is the computed width with a border and 2 less without one, and is positive for any clamped height |
| `BadgeConfig.ResolveColor` | Resources/Badge.js:136-141 | a known colour name gets its own gradient pair; anything else gets RED's pair |
| `BadgeConfig.UnknownColorIsRed` | Resources/Badge.js:184-185 | an unknown or missing colour resolves exactly as an explicit RED |
| `BadgeConfig.FontColor` | Resources/Badge.js:187-188 | the font is dark ("#111") if and only if the colour is YELLOW, and white otherwise |
| `BadgeConfig.ResolveShape` | Resources/Badge.js:181 | the shape is SQUARE if and only if the parameter equals the SQUARE code |
| `BadgeConfig.CornerRadius` | Resources/Badge.js:248 | the corner radius is a quarter of the height when square and half of it when round |
| `BadgeConfig.ResolveAxis` | Resources/Badge.js:171-180 | exactly one side of an axis is set; the first side wins when given, then the second, else the first side at 0 |
| `BadgeConfig.ResolvePosition` | Resources/Badge.js:171-191 | exactly one of top/bottom and exactly one of left/right is set, top and left taking precedence |
| `BadgeConfig.RequestedHeight` | Resources/Badge.js:170 | a missing or zero size requests TAB and a positive size is passed through unchanged, so the requested height is always positive |
| `BadgeConfig.ResolveHeight` | Resources/Badge.js:170-186 | the badge height lies in [15,30], is the requested size when that is already in range, and is TAB when no size is given |
| `BadgeConfig.InitialValue` | Resources/Badge.js:154-169 | the first layout is sized for the given value when it is a non-negative integer, otherwise for 1 |
| `BadgeConfig.FlagOrTrue` | Resources/Badge.js:182-183 | `useBorder`/`useShading` are off only when given as exactly `false` |
| `BadgeConfig.Given` | Resources/Badge.js:168-189 | a given parameter object is used as it is; without one, the constructor works from the empty parameter object |
| `BadgeConfig.DefaultsAreEmptyParams` | Resources/Badge.js:154-166 | the defaults used without a parameter object are what an empty parameter object resolves to |
| `BadgeWidget.Badge.constructor` | Resources/Badge.js:145-297 | the configuration is the resolved one; the layout is sized for the initial value; the badge ends visible showing the value's decimal text when that value is a non-negative integer, and hidden with null text otherwise (so a badge built without params is hidden) |
| `BadgeWidget.Badge.SetDimensions` | Resources/Badge.js:194-206 | afterwards `previousWidth` is the applied width. When that width differs from the previous one, all views are laid out for it: the view, label, shadow and container get the width, the highlight gets width−9, the container height is height+3. When it equals the previous width, nothing changes, so a second call with the same value is a no-op |
| `BadgeWidget.Badge.FetchValue` | Resources/Badge.js:214-216 | returns the label text, which is null or a canonical numeral, and is never null while the badge is visible |
| `BadgeWidget.Badge.ApplyValue` | Resources/Badge.js:217-229 | a non-negative integer leaves its decimal text on the label, the badge visible and the layout sized for it. Any other input leaves the text null, the badge hidden and the layout as it was. The invariant is kept |
| `BadgeWidget.Badge.Clear` | Resources/Badge.js:230-232 | leaves the text null, the badge hidden and the layout unchanged, whatever the prior state, so clearing twice equals clearing once |
| `BadgeWidget.Badge.Show` | Resources/Badge.js:233-235 | afterwards the badge is visible if and only if it has text, so a cleared badge cannot be shown |
| `BadgeWidget.Badge.Hide` | Resources/Badge.js:236-238 | the badge is hidden afterwards and nothing else changes |

`BadgeWidget.SampleUsage` replays the sample usage of the module's header comment (Resources/Badge.js:10-34) as a client of these contracts. It covers the styled badge with value 17, top 5, right 5, size APP, shape SQUARE and colour GREEN. It also shows that re-applying a value of the same width leaves the layout untouched.

## Left out

- View construction and the view tree are not modelled. This covers `Ti.UI.createView`/`createLabel`, `add`/`remove`, `attachToView` and `detachFromView` (Resources/Badge.js:151, 208-213, 241-285, 293-296), and whether the highlight joins the tree when `useShading` is on. These are calls into the UI toolkit. The model keeps only the properties `setDimensions` writes and the container's visibility.
- Platform detection through `Ti.Platform.osname` is replaced by the `Platform` parameter of the constructor.
- Decorative constants are left out: opacities, the gradient's start and end points, the border colour and border width, the highlight's height, offsets and corner radius `badgeHeight/5` (Resources/Badge.js:275), the label height `badgeHeight-1` (Resources/Badge.js:260), the shadow's `top: 3` (Resources/Badge.js:280), the font family, and the background colour taken from the gradient pair. They take no part in any decision.
- The JavaScript coercions of `parseInt`, `isNaN` and `isFinite` are not modelled. Inputs are integers or `None`. So `"12px"` and `3.7` (both read as 12 and 3 by `parseInt`) and fractional sizes are out of scope.
- BadgeWidget.Badge.constructor: `None` for `params.value` stands for an absent or non-numeric value. An explicit `null` differs in the source: `null >= 0` is true, so the first layout is sized for `parseInt(null)`, which is NaN, with multiplier 4.0. The model sizes it for 1.
- BadgeWidget.Badge.constructor: a negative `size`, and any other truthy `size` that is not an integer (`'BIG'`, `true`, `Infinity`), is excluded by the type of `Params.size`. The source would then run with an undefined height.
- BadgeWidget.Badge.ApplyValue: values are unbounded integers. JavaScript doubles are not modelled. Above 2^53 `toString` prints the shortest digits that read back to the same double: 2^64 shows as "18446744073709552000", not "18446744073709551616". From 10^21 on, `parseInt` reads the exponent form "1e+21" as 1. The source then shows "1" at one badge height, where the model shows 22 digits at four heights.
- BadgeConfig.ResolveColor: an inherited property name such as `"constructor"` is not modelled. The lookup `colors[name]` finds such names on the object's prototype.
- Widths are exact reals. In the source they are IEEE doubles (1.7 × 18 is 30.599999999999998). `setDimensions` compares widths computed in the same way, and distinct multipliers give distinct products, so this does not change which updates happen.
- The containerView is created without a size. The model writes 0 for its width and height until the constructor's first `setDimensions`, which always overwrites them.
- `Resources/app.js` is a demo that wires buttons and fake tabs to badges. It is not part of this model.
