/**
 * Annotation.swift: the map annotations (a plain one per lightning, and the
 * cluster annotation whose equality drives the map's reload diff) and the
 * two cluster views defined there. Swift's subclassing is flattened:
 * `ClusterAnnotation` is an `Annotation` whose `isCluster` is set, and a
 * view subclass holds its superclass part as `base`.
 */
module Annotations {

  import opened Wrappers
  import Doubles
  import Geometry
  import Lightnings
  import Colors

  // ---- Decimal text, "\(count)" -----------------------------------------

  function Digit(d: nat): (c: char)
    requires d < 10
    ensures '0' <= c <= '9'
  {
    "0123456789"[d]
  }

  predicate IsDigits(s: string) {
    forall i :: 0 <= i < |s| ==> '0' <= s[i] <= '9'
  }

  /** The decimal text of a count, as string interpolation writes it. */
  function DecimalString(n: nat): (s: string)
    ensures |s| >= 1 && IsDigits(s)
    ensures s[0] == '0' ==> n == 0 && |s| == 1
    decreases n
  {
    if n < 10 then [Digit(n)] else DecimalString(n / 10) + [Digit(n % 10)]
  }

  /** The number a string of decimal digits denotes. */
  function DecimalValue(s: string): nat
    requires IsDigits(s)
  {
    if s == [] then 0 else DecimalValue(s[..|s| - 1]) * 10 + (s[|s| - 1] as int - '0' as int)
  }

  /** The label text reads back as the count it was made from. */
  lemma {:induction false} DecimalRoundTrip(n: nat)
    ensures DecimalValue(DecimalString(n)) == n
    decreases n
  {
    var s := DecimalString(n);
    if n >= 10 {
      DecimalRoundTrip(n / 10);
      assert s[..|s| - 1] == DecimalString(n / 10);
    }
  }

  /** Different counts are never shown with the same text. */
  lemma DecimalStringIsInjective(m: nat, n: nat)
    ensures DecimalString(m) == DecimalString(n) <==> m == n
  {
    DecimalRoundTrip(m);
    DecimalRoundTrip(n);
  }

  // ---- Annotations -----------------------------------------------------

  /** A `UIImage`: only its size matters to the views. */
  datatype Image = Image(name: string, width: real, height: real)

  /**
   * The frame after `MKAnnotationView.image` is assigned: the view takes the
   * image's size and keeps its origin; a nil image leaves the frame alone.
   */
  function ImageFrame(f: Rect, image: Option<Image>): Rect {
    match image
    case Some(img) => Rect(f.x, f.y, img.width, img.height)
    case None => f
  }

  /** `ClusterAnnotationStyle`: a coloured circle of a given radius, or an image. */
  datatype ClusterAnnotationStyle =
    | ColorStyle(color: Colors.Color, radius: real)
    | ImageStyle(image: Option<Image>)

  class Annotation {
    /** Whether this is a `ClusterAnnotation`. */
    const isCluster: bool
    var coordinate: Geometry.Coordinate
    var style: Option<ClusterAnnotationStyle>
    var lightning: Option<Lightnings.Lightning>
    /** The member annotations of a cluster; empty for a plain annotation. */
    var annotations: seq<Annotation>

    /** `init(coordinate:)`. */
    constructor (coordinate: Geometry.Coordinate)
      ensures !isCluster && this.coordinate == coordinate
      ensures lightning == None && style == None && annotations == []
    {
      isCluster := false;
      this.coordinate := coordinate;
      style, lightning, annotations := None, None, [];
    }

    /** `init(lightning:)`: the pin stands where the lightning was heard. */
    constructor FromLightning(lightning: Lightnings.Lightning)
      ensures !isCluster && this.lightning == Some(lightning)
      ensures coordinate == Geometry.Coordinate(lightning.lat, lightning.lon)
      ensures style == None && annotations == []
    {
      isCluster := false;
      this.lightning := Some(lightning);
      coordinate := Geometry.Coordinate(lightning.lat, lightning.lon);
      style, annotations := None, [];
    }

    /** A `ClusterAnnotation` with the position and members the clustering engine gives it. */
    constructor Cluster(coordinate: Geometry.Coordinate, annotations: seq<Annotation>)
      ensures isCluster && this.coordinate == coordinate && this.annotations == annotations
      ensures lightning == None && style == None
    {
      isCluster := true;
      this.coordinate := coordinate;
      this.annotations := annotations;
      style, lightning := None, None;
    }

    /** `annotations.map { $0.coordinate }`. */
    function MemberCoordinates(): (cs: seq<Geometry.Coordinate>)
      reads this, annotations
      ensures |cs| == |annotations|
      ensures forall i :: 0 <= i < |annotations| ==> cs[i] == annotations[i].coordinate
    {
      CoordinatesOf(annotations)
    }

    /**
     * `isEqual(_:)`. A `ClusterAnnotation` equals only another one: the same
     * object, or one at an equal coordinate whose members stand at equal
     * coordinates in the same order. A plain annotation keeps the inherited
     * `NSObject` equality, which is identity.
     */
    method IsEqual(candidate: object?) returns (equal: bool)
      ensures !isCluster ==> (equal <==> candidate == this)
      ensures isCluster && !(candidate is Annotation) ==> !equal
      ensures isCluster && candidate is Annotation ==>
                (equal <==> (candidate as Annotation).isCluster && ClusterEqual(this, candidate as Annotation))
    {
      if !isCluster {
        return candidate == this;
      }
      if !(candidate is Annotation) {
        return false;
      }
      var other := candidate as Annotation;
      if !other.isCluster {
        return false;
      }
      if this == other {
        return true;
      }
      if !Geometry.Equal(coordinate, other.coordinate) {
        return false;
      }
      if |annotations| != |other.annotations| {
        return false;
      }
      return CoordinatesEqual(MemberCoordinates(), other.MemberCoordinates());
    }
  }

  function CoordinatesOf(members: seq<Annotation>): (cs: seq<Geometry.Coordinate>)
    reads members
    ensures |cs| == |members|
    ensures forall i :: 0 <= i < |members| ==> cs[i] == members[i].coordinate
  {
    if members == [] then [] else CoordinatesOf(members[..|members| - 1]) + [members[|members| - 1].coordinate]
  }

  /** `==` on `[CLLocationCoordinate2D]`: same length, equal element by element. */
  predicate CoordinatesEqual(a: seq<Geometry.Coordinate>, b: seq<Geometry.Coordinate>) {
    |a| == |b| && forall i :: 0 <= i < |a| ==> Geometry.Equal(a[i], b[i])
  }

  /** The comparison chain of `isEqual(_:)` after the identity check. */
  predicate SameCluster(c1: Geometry.Coordinate, m1: seq<Geometry.Coordinate>,
                        c2: Geometry.Coordinate, m2: seq<Geometry.Coordinate>) {
    Geometry.Equal(c1, c2) && |m1| == |m2| && CoordinatesEqual(m1, m2)
  }

  /** Two cluster annotations `isEqual`: identical, or the same cluster. */
  ghost predicate ClusterEqual(a: Annotation, b: Annotation)
    reads a, b, a.annotations, b.annotations
  {
    a == b || SameCluster(a.coordinate, a.MemberCoordinates(), b.coordinate, b.MemberCoordinates())
  }

  /** The count check is implied by the array comparison: dropping it changes nothing. */
  lemma CountCheckIsRedundant(c1: Geometry.Coordinate, m1: seq<Geometry.Coordinate>,
                              c2: Geometry.Coordinate, m2: seq<Geometry.Coordinate>)
    ensures SameCluster(c1, m1, c2, m2) <==> Geometry.Equal(c1, c2) && CoordinatesEqual(m1, m2)
  {
  }

  lemma SameClusterIsSymmetric(c1: Geometry.Coordinate, m1: seq<Geometry.Coordinate>,
                               c2: Geometry.Coordinate, m2: seq<Geometry.Coordinate>)
    ensures SameCluster(c1, m1, c2, m2) <==> SameCluster(c2, m2, c1, m1)
  {
    Geometry.EqualIsSymmetric(c1, c2);
    forall i | 0 <= i < |m1| && i < |m2|
      ensures Geometry.Equal(m1[i], m2[i]) <==> Geometry.Equal(m2[i], m1[i])
    {
      Geometry.EqualIsSymmetric(m1[i], m2[i]);
    }
  }

  lemma SameClusterIsTransitive(c1: Geometry.Coordinate, m1: seq<Geometry.Coordinate>,
                                c2: Geometry.Coordinate, m2: seq<Geometry.Coordinate>,
                                c3: Geometry.Coordinate, m3: seq<Geometry.Coordinate>)
    requires SameCluster(c1, m1, c2, m2) && SameCluster(c2, m2, c3, m3)
    ensures SameCluster(c1, m1, c3, m3)
  {
    Geometry.EqualIsTransitive(c1, c2, c3);
    forall i | 0 <= i < |m1|
      ensures Geometry.Equal(m1[i], m3[i])
    {
      Geometry.EqualIsTransitive(m1[i], m2[i], m3[i]);
    }
  }

  /** Without the identity check, a cluster would equal itself only when no coordinate involved is NaN. */
  lemma SameClusterReflexiveUnlessNaN(c: Geometry.Coordinate, m: seq<Geometry.Coordinate>)
    ensures SameCluster(c, m, c, m) <==> !Geometry.HasNaN(c) && forall i :: 0 <= i < |m| ==> !Geometry.HasNaN(m[i])
  {
    Geometry.EqualReflexiveUnlessNaN(c);
    forall i | 0 <= i < |m|
      ensures Geometry.Equal(m[i], m[i]) <==> !Geometry.HasNaN(m[i])
    {
      Geometry.EqualReflexiveUnlessNaN(m[i]);
    }
  }

  /** The member comparison is ordered: the same members listed in another order are not equal. */
  lemma SameClusterIsOrderSensitive()
    ensures var p := Geometry.Coordinate(Doubles.PositiveZero, Doubles.PositiveZero);
            var q := Geometry.Coordinate(Doubles.One, Doubles.PositiveZero);
            multiset([p, q]) == multiset([q, p]) && !SameCluster(p, [p, q], p, [q, p])
  {
    var p := Geometry.Coordinate(Doubles.PositiveZero, Doubles.PositiveZero);
    var q := Geometry.Coordinate(Doubles.One, Doubles.PositiveZero);
    assert !Geometry.Equal([p, q][0], [q, p][0]);
  }

  /** `isEqual` on cluster annotations is reflexive (by identity, even with NaN coordinates) and symmetric. */
  lemma ClusterEqualIsReflexiveAndSymmetric(a: Annotation, b: Annotation)
    ensures ClusterEqual(a, a)
    ensures ClusterEqual(a, b) <==> ClusterEqual(b, a)
  {
    SameClusterIsSymmetric(a.coordinate, a.MemberCoordinates(), b.coordinate, b.MemberCoordinates());
  }

  lemma ClusterEqualIsTransitive(a: Annotation, b: Annotation, c: Annotation)
    requires ClusterEqual(a, b) && ClusterEqual(b, c)
    ensures ClusterEqual(a, c)
  {
    if a != b && b != c {
      SameClusterIsTransitive(a.coordinate, a.MemberCoordinates(), b.coordinate, b.MemberCoordinates(),
                              c.coordinate, c.MemberCoordinates());
    }
  }

  // ---- Cluster views ---------------------------------------------------

  datatype Rect = Rect(x: real, y: real, width: real, height: real)

  const ZeroRect: Rect := Rect(0.0, 0.0, 0.0, 0.0)
  const Clear: Colors.Color := Colors.Color(0.0, 0.0, 0.0, 0.0)

  /** A `UILabel`: only its text and frame are modelled. */
  class Label {
    var text: Option<string>
    var frame: Rect

    constructor ()
      ensures text == None && frame == ZeroRect
    {
      text, frame := None, ZeroRect;
    }
  }

  /** Whether `annotation as? ClusterAnnotation` succeeds. */
  predicate ShowsCluster(annotation: Annotation?)
    reads annotation
  {
    annotation != null && annotation.isCluster
  }

  /** `ClusterAnnotationView`: shows the member count of its cluster annotation. */
  class ClusterAnnotationView {
    var annotation: Annotation?
    const countLabel: Label

    constructor (annotation: Annotation?)
      ensures this.annotation == annotation
      ensures fresh(countLabel) && countLabel.text == None && countLabel.frame == ZeroRect
    {
      this.annotation := annotation;
      countLabel := new Label();
    }

    /** `configure()`: the label shows the member count; a non-cluster annotation changes nothing. */
    method Configure()
      modifies countLabel`text
      ensures ShowsCluster(annotation) ==> countLabel.text == Some(DecimalString(|annotation.annotations|))
      ensures !ShowsCluster(annotation) ==> countLabel.text == old(countLabel.text)
    {
      if annotation == null || !annotation.isCluster {
        return;
      }
      countLabel.text := Some(DecimalString(|annotation.annotations|));
    }

    /** Setting `annotation` runs its `didSet`, which configures the view. */
    method SetAnnotation(annotation: Annotation?)
      modifies this`annotation, countLabel`text
      ensures this.annotation == annotation
      ensures ShowsCluster(annotation) ==> countLabel.text == Some(DecimalString(|annotation.annotations|))
      ensures !ShowsCluster(annotation) ==> countLabel.text == old(countLabel.text)
    {
      this.annotation := annotation;
      Configure();
    }
  }

  /** The factor the `.color` style scales the circle's diameter by, for a member count. */
  function DiameterScale(count: int): (f: real)
    ensures f == 0.6 || f == 0.8 || f == 1.0
    ensures f == 0.6 <==> count < 8
    ensures f == 1.0 <==> 16 <= count
  {
    if count < 8 then 0.6 else if count < 16 then 0.8 else 1.0
  }

  /** Larger clusters are never drawn with a smaller scale factor. */
  lemma DiameterScaleIsMonotone(a: int, b: int)
    requires a <= b
    ensures DiameterScale(a) <= DiameterScale(b)
  {
  }

  /** The `.color` style's diameter: twice the radius, scaled by the member count. */
  function StyledDiameter(radius: real, count: int): (d: real)
    ensures d == 2.0 * radius * DiameterScale(count)
    ensures radius >= 0.0 ==> 1.2 * radius <= d <= 2.0 * radius
  {
    var diameter := radius * 2.0;
    if count < 8 then diameter * 0.6 else if count < 16 then diameter * 0.8 else diameter
  }

  /** `StyledClusterAnnotationView`. */
  class StyledClusterAnnotationView {
    const base: ClusterAnnotationView
    var style: ClusterAnnotationStyle
    var backgroundColor: Option<Colors.Color>
    var image: Option<Image>
    var frame: Rect

    /** `init(annotation:reuseIdentifier:style:)`: configures the new view at once. */
    constructor (annotation: Annotation?, style: ClusterAnnotationStyle)
      ensures fresh(base) && fresh(base.countLabel)
      ensures base.annotation == annotation && this.style == style
      ensures !ShowsCluster(annotation) ==>
                backgroundColor == None && image == None && frame == ZeroRect && base.countLabel.text == None
      ensures ShowsCluster(annotation) && style.ImageStyle? ==>
                backgroundColor == Some(Clear) && image == style.image && frame == ImageFrame(ZeroRect, style.image)
                && base.countLabel.text == None
      ensures ShowsCluster(annotation) && style.ColorStyle? ==>
                var n := |annotation.annotations|;
                var d := StyledDiameter(style.radius, n);
                backgroundColor == Some(style.color) && image == None && frame == Rect(0.0, 0.0, d, d)
                && base.countLabel.text == Some(DecimalString(n))
    {
      base := new ClusterAnnotationView(annotation);
      this.style := style;
      backgroundColor, image, frame := None, None, ZeroRect;
      new;
      Configure();
    }

    /**
     * `configure()` (which does not call the superclass's): an image style
     * shows the image on a clear background, the view taking the image's
     * size; a colour style draws a circle
     * whose diameter depends on the member count and shows the count.
     */
    method Configure()
      modifies this`backgroundColor, this`image, this`frame, base.countLabel`text
      ensures !ShowsCluster(base.annotation) ==>
                backgroundColor == old(backgroundColor) && image == old(image) && frame == old(frame)
                && base.countLabel.text == old(base.countLabel.text)
      ensures ShowsCluster(base.annotation) && style.ImageStyle? ==>
                backgroundColor == Some(Clear) && image == style.image && frame == ImageFrame(old(frame), style.image)
                && base.countLabel.text == old(base.countLabel.text)
      ensures ShowsCluster(base.annotation) && style.ColorStyle? ==>
                var n := |base.annotation.annotations|;
                var d := StyledDiameter(style.radius, n);
                backgroundColor == Some(style.color) && image == old(image)
                && frame == Rect(old(frame).x, old(frame).y, d, d)
                && base.countLabel.text == Some(DecimalString(n))
    {
      var annotation := base.annotation;
      if annotation == null || !annotation.isCluster {
        return;
      }
      match style
      case ImageStyle(img) =>
        backgroundColor := Some(Clear);
        image := img;
        frame := ImageFrame(frame, img);
      case ColorStyle(color, radius) =>
        var count := |annotation.annotations|;
        backgroundColor := Some(color);
        var diameter := StyledDiameter(radius, count);
        frame := Rect(frame.x, frame.y, diameter, diameter);
        base.countLabel.text := Some(DecimalString(count));
    }

    /** Setting `annotation` runs its `didSet`, which dispatches to this view's `configure()`. */
    method SetAnnotation(annotation: Annotation?)
      modifies base`annotation, this`backgroundColor, this`image, this`frame, base.countLabel`text
      ensures base.annotation == annotation
      ensures !ShowsCluster(annotation) ==>
                backgroundColor == old(backgroundColor) && image == old(image) && frame == old(frame)
                && base.countLabel.text == old(base.countLabel.text)
      ensures ShowsCluster(annotation) && style.ImageStyle? ==>
                backgroundColor == Some(Clear) && image == style.image && frame == ImageFrame(old(frame), style.image)
                && base.countLabel.text == old(base.countLabel.text)
      ensures ShowsCluster(annotation) && style.ColorStyle? ==>
                var n := |annotation.annotations|;
                var d := StyledDiameter(style.radius, n);
                backgroundColor == Some(style.color) && image == old(image)
                && frame == Rect(old(frame).x, old(frame).y, d, d)
                && base.countLabel.text == Some(DecimalString(n))
    {
      base.annotation := annotation;
      Configure();
    }
  }
}
