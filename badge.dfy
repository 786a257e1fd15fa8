/** One badge instance: the closure state of `exports.Badge` as a class.
    The configuration is fixed by the constructor; the label text, the
    container's visibility, `previousWidth` and the widths written by
    `setDimensions` change afterwards. */
module BadgeWidget {
  import opened Optional
  import opened BadgeConfig
  import Decimal

  class Badge {
    // Configuration, resolved once by the constructor.
    const platform: Platform
    const badgeHeight: int
    const shape: Shape
    const gradient: GradientPair
    const fontColor: string
    const fontSize: int
    const cornerRadius: real
    const useBorder: bool
    const useShading: bool
    const position: Position

    /** `badgeLabel.text`; `None` is `null`. */
    var text: Option<string>
    /** `containerView.visible`. */
    var visible: bool
    var previousWidth: real

    // The layout properties `setDimensions` writes.
    var viewWidth: real
    var labelWidth: real
    var hiliteWidth: real
    var shadowWidth: real
    var containerWidth: real
    var containerHeight: int

    /** The width `setDimensions` computes for a value on this badge. */
    function SizedWidth(value: int): real {
      AppliedWidth(UsesIOSMultipliers(platform), useBorder, value, badgeHeight)
    }

    /** Every view is laid out for width `w`. */
    ghost predicate LayoutIs(w: real)
      reads this
    {
      viewWidth == w && labelWidth == w && hiliteWidth == w - 9.0 && shadowWidth == w &&
      containerWidth == w && containerHeight == badgeHeight + 3
    }

    ghost predicate Valid()
      reads this
    {
      MIN_HEIGHT <= badgeHeight <= MAX_HEIGHT &&
      FontSize(platform, badgeHeight) == Some(fontSize) &&
      cornerRadius == CornerRadius(shape, badgeHeight) &&
      LayoutIs(previousWidth) &&
      // a badge without text is never visible
      (visible ==> text.Some?) &&
      // the layout always fits the number on display
      (text.Some? ==>
         Decimal.IsCanonical(text.value) && previousWidth == SizedWidth(Decimal.ParseDecimal(text.value)))
    }

    constructor (platform: Platform, params: Option<Params>)
      ensures Valid()
      ensures this.platform == platform
      ensures badgeHeight == ResolveHeight(Given(params))
      ensures shape == ResolveShape(Given(params).shape)
      ensures gradient == ResolveColor(Given(params).color)
      ensures fontColor == FontColor(Given(params).color)
      ensures useBorder == FlagOrTrue(Given(params).useBorder)
      ensures useShading == FlagOrTrue(Given(params).useShading)
      ensures position == ResolvePosition(Given(params))
      ensures previousWidth == SizedWidth(InitialValue(Given(params)))
      ensures var v := Given(params).value;
              if v.Some? && v.value >= 0 then text == Some(Decimal.ToDecimal(v.value)) && visible
              else text == None && !visible
    {
      var p := Given(params);
      var height := ResolveHeight(p);
      var resolvedShape := ResolveShape(p.shape);
      FontTableDomain(platform, height);
      this.platform := platform;
      badgeHeight := height;
      shape := resolvedShape;
      gradient := ResolveColor(p.color);
      fontColor := FontColor(p.color);
      fontSize := FontTable(platform)[height];
      cornerRadius := CornerRadius(resolvedShape, height);
      useBorder := FlagOrTrue(p.useBorder);
      useShading := FlagOrTrue(p.useShading);
      position := ResolvePosition(p);
      // The views as created, before the first `setDimensions`; the container
      // is created without a size, written here as 0.
      viewWidth, labelWidth, hiliteWidth, shadowWidth := height as real, height as real, height as real, height as real;
      containerWidth, containerHeight := 0.0, 0;
      text := Some(Decimal.ToDecimal(InitialValue(p)));
      visible := true;
      previousWidth := 0.0;
      new;
      SetDimensions(InitialValue(p));
      Decimal.ParseToDecimal(InitialValue(p));
      ApplyValue(p.value);
    }

    /** Lays the views out for `value`, but only when its width differs from
        the width applied last. */
    method SetDimensions(value: int)
      modifies this`previousWidth, this`viewWidth, this`labelWidth, this`hiliteWidth,
               this`shadowWidth, this`containerWidth, this`containerHeight
      ensures previousWidth == SizedWidth(value)
      ensures old(previousWidth) == SizedWidth(value) ==> unchanged(this)
      ensures old(previousWidth) != SizedWidth(value) ==> LayoutIs(SizedWidth(value))
    {
      var width := Width(UsesIOSMultipliers(platform), value, badgeHeight);
      width := if useBorder then width else width - 2.0;
      if width != previousWidth {
        viewWidth := width;
        labelWidth := width;
        hiliteWidth := width - 9.0;
        shadowWidth := width;
        containerWidth := width;
        containerHeight := badgeHeight + 3;
        previousWidth := width;
      }
    }

    method FetchValue() returns (r: Option<string>)
      requires Valid()
      ensures r == text
      ensures r.Some? ==> Decimal.IsCanonical(r.value)
      ensures visible ==> r.Some?
    {
      r := text;
    }

    /** Shows a non-negative integer, or hides the badge for anything else. */
    method ApplyValue(value: Option<int>)
      requires Valid()
      modifies this`text, this`visible, this`previousWidth, this`viewWidth, this`labelWidth,
               this`hiliteWidth, this`shadowWidth, this`containerWidth, this`containerHeight
      ensures Valid()
      ensures value.Some? && value.value >= 0 ==>
                text == Some(Decimal.ToDecimal(value.value)) && visible &&
                previousWidth == SizedWidth(value.value)
      ensures !(value.Some? && value.value >= 0) ==>
                text == None && !visible && previousWidth == old(previousWidth)
    {
      if value.Some? && value.value >= 0 {
        var n := value.value;
        Hide();
        text := Some("");
        SetDimensions(n);
        text := Some(Decimal.ToDecimal(n));
        Decimal.ParseToDecimal(n);
        Show();
      } else {
        Hide();
        text := None;
      }
    }

    method Clear()
      requires Valid()
      modifies this`text, this`visible, this`previousWidth, this`viewWidth, this`labelWidth,
               this`hiliteWidth, this`shadowWidth, this`containerWidth, this`containerHeight
      ensures Valid()
      ensures text == None && !visible && previousWidth == old(previousWidth)
    {
      ApplyValue(None);
    }

    method Show()
      requires Valid()
      modifies this`visible
      ensures Valid()
      ensures visible <==> text.Some?
    {
      if text.Some? {
        visible := true;
      }
    }

    method Hide()
      requires Valid()
      modifies this`visible
      ensures Valid()
      ensures !visible
    {
      visible := false;
    }
  }

  /** The sample usage from the module's header comment, as a client. */
  method SampleUsage() {
    var badge1 := new Badge(IPhone, None);
    assert badge1.text == None && !badge1.visible;
    badge1.ApplyValue(Some(8));
    var shown := badge1.FetchValue();
    assert shown == Some("8") && badge1.visible;

    var badge2 := new Badge(Android, Some(Params(Some(17), Some(5), None, None, Some(5),
                                                 Some(SQUARE_CODE), Some(APP), Some("GREEN"), None, None)));
    assert badge2.badgeHeight == APP && badge2.shape == Square;
    assert badge2.gradient == GradientPair("#7c7", "#080");
    assert badge2.position == Position(Some(5), None, None, Some(5));
    assert badge2.text == Some(Decimal.ToDecimal(17)) && badge2.visible;
    assert Decimal.ToDecimal(17) == Decimal.ToDecimal(1) + "7";
    assert Decimal.ToDecimal(1) == "1";
    assert "1" + "7" == "17";
    assert badge2.text == Some("17");

    var width := badge1.previousWidth;
    badge1.ApplyValue(Some(5));
    assert badge1.previousWidth == width;

    badge1.Clear();
    badge2.Clear();
    badge2.Show();
    assert !badge1.visible && !badge2.visible;
  }
}
