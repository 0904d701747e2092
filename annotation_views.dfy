/**
 * AnnotationView.swift: the two cluster views the map uses, built on
 * `ClusterAnnotationView` (held as `base`, their superclass part).
 */
module AnnotationViews {

  import opened Wrappers
  import Colors
  import opened Annotations

  /** `radius(for:)`: the circle's radius for a member count. */
  function Radius(count: int): (r: real)
    ensures r == 12.0 || r == 16.0 || r == 20.0
  {
    if count < 5 then 12.0 else if count < 10 then 16.0 else 20.0
  }

  /** The table: below 5 members, below 10, and the rest (every int, negative ones included). */
  lemma RadiusBands(count: int)
    ensures Radius(count) == 12.0 <==> count < 5
    ensures Radius(count) == 16.0 <==> 5 <= count < 10
    ensures Radius(count) == 20.0 <==> 10 <= count
  {
  }

  /** A cluster with more members is never drawn smaller. */
  lemma RadiusIsMonotone(a: int, b: int)
    requires a <= b
    ensures Radius(a) <= Radius(b)
  {
  }

  const White: Colors.Color := Colors.Color(1.0, 1.0, 1.0, 1.0)

  /** `CountClusterAnnotationView`: a round badge sized by the member count. */
  class CountClusterAnnotationView {
    const base: ClusterAnnotationView
    var frame: Rect
    var cornerRadius: real
    var masksToBounds: bool
    /** The layer's border colour; `None` is unset (the platform default, opaque black), not transparent. */
    var borderColor: Option<Colors.Color>
    var borderWidth: real

    constructor (annotation: Annotation?)
      ensures fresh(base) && fresh(base.countLabel) && base.annotation == annotation
      ensures frame == ZeroRect && cornerRadius == 0.0 && !masksToBounds
      ensures borderColor == None && borderWidth == 0.0
    {
      base := new ClusterAnnotationView(annotation);
      frame, cornerRadius, masksToBounds := ZeroRect, 0.0, false;
      borderColor, borderWidth := None, 0.0;
    }

    /**
     * `configure()`: the superclass sets the count label; then, for a
     * cluster, the frame becomes a square of side `2 * radius(for: count)`
     * with its corners rounded into a circle and a white border.
     */
    method Configure()
      modifies this`frame, this`cornerRadius, this`masksToBounds, this`borderColor, this`borderWidth,
               base.countLabel`text
      ensures ShowsCluster(base.annotation) ==>
                var count := |base.annotation.annotations|;
                && base.countLabel.text == Some(DecimalString(count))
                && frame == Rect(old(frame).x, old(frame).y, 2.0 * Radius(count), 2.0 * Radius(count))
                && cornerRadius == Radius(count)
                && masksToBounds && borderColor == Some(White) && borderWidth == 1.5
      ensures ShowsCluster(base.annotation) ==>
                frame.width == frame.height && (frame.width == 24.0 || frame.width == 32.0 || frame.width == 40.0)
      ensures !ShowsCluster(base.annotation) ==>
                && base.countLabel.text == old(base.countLabel.text)
                && frame == old(frame) && cornerRadius == old(cornerRadius)
                && masksToBounds == old(masksToBounds)
                && borderColor == old(borderColor) && borderWidth == old(borderWidth)
    {
      base.Configure();
      var annotation := base.annotation;
      if annotation == null || !annotation.isCluster {
        return;
      }
      var count := |annotation.annotations|;
      var diameter := Radius(count) * 2.0;
      frame := frame.(width := diameter, height := diameter);
      cornerRadius := frame.width / 2.0;
      masksToBounds := true;
      borderColor := Some(White);
      borderWidth := 1.5;
    }

    /** Setting `annotation` runs its `didSet`, which dispatches to this view's `configure()`. */
    method SetAnnotation(annotation: Annotation?)
      modifies base`annotation, this`frame, this`cornerRadius, this`masksToBounds, this`borderColor,
               this`borderWidth, base.countLabel`text
      ensures base.annotation == annotation
      ensures ShowsCluster(annotation) ==>
                var count := |annotation.annotations|;
                && base.countLabel.text == Some(DecimalString(count))
                && frame == Rect(old(frame).x, old(frame).y, 2.0 * Radius(count), 2.0 * Radius(count))
                && cornerRadius == Radius(count)
                && masksToBounds && borderColor == Some(White) && borderWidth == 1.5
      ensures !ShowsCluster(annotation) ==>
                && base.countLabel.text == old(base.countLabel.text)
                && frame == old(frame) && cornerRadius == old(cornerRadius)
                && masksToBounds == old(masksToBounds)
                && borderColor == old(borderColor) && borderWidth == old(borderWidth)
    {
      base.annotation := annotation;
      Configure();
    }
  }

  /** The adjustment the lazy `once` makes to the count label's frame. */
  function LabelAdjusted(f: Rect): (g: Rect)
    ensures g.x == f.x + 3.0 && g.y == f.y - 6.0
    ensures g.width == f.width - 6.0 && g.height == f.height
  {
    Rect(f.x + 3.0, f.y - 6.0, f.width - 6.0, f.height)
  }

  /** Applying the adjustment again would move the label further: it is not idempotent. */
  lemma LabelAdjustedIsNotIdempotent(f: Rect)
    ensures LabelAdjusted(LabelAdjusted(f)) != LabelAdjusted(f)
  {
    assert LabelAdjusted(LabelAdjusted(f)).x == LabelAdjusted(f).x + 3.0;
  }

  /** `ImageCountClusterAnnotationView`: the count over an image, its label nudged once. */
  class ImageCountClusterAnnotationView {
    const base: ClusterAnnotationView
    /** Whether the lazy property `once` has been evaluated. */
    var onceEvaluated: bool
    /** How many times the label adjustment has been applied. */
    ghost var adjustments: nat

    ghost predicate Valid()
      reads this
    {
      adjustments == if onceEvaluated then 1 else 0
    }

    constructor (annotation: Annotation?)
      ensures Valid() && !onceEvaluated
      ensures fresh(base) && fresh(base.countLabel) && base.annotation == annotation
    {
      base := new ClusterAnnotationView(annotation);
      onceEvaluated := false;
      adjustments := 0;
    }

    /**
     * `layoutSubviews()`: reading `once` adjusts the label the first time
     * and never again, however often the view is laid out.
     */
    method LayoutSubviews()
      requires Valid()
      modifies this`onceEvaluated, this`adjustments, base.countLabel`frame
      ensures Valid() && onceEvaluated && adjustments == 1
      ensures base.countLabel.frame ==
                if old(onceEvaluated) then old(base.countLabel.frame) else LabelAdjusted(old(base.countLabel.frame))
    {
      if !onceEvaluated {
        var f := base.countLabel.frame;
        base.countLabel.frame := f.(width := f.width - 6.0);
        f := base.countLabel.frame;
        base.countLabel.frame := f.(x := f.x + 3.0);
        f := base.countLabel.frame;
        base.countLabel.frame := f.(y := f.y - 6.0);
        onceEvaluated := true;
        adjustments := adjustments + 1;
      }
    }
  }
}
