/**
 * The enumerations of `YYTextAttribute.h`: the attribute type and direction
 * bitmasks, the line style (a basic style in the low byte and a pattern in
 * the next nibble), and the vertical alignment and truncation values.
 */
module TextAttribute {
  import opened Wrappers

  /** `NSInteger` / `NSUInteger` bit patterns. */
  type Bits = bv64

  // ---------------------------------------------------------------------------
  // YYTextAttributeType

  /** `YYTextAttributeTypeNone`. */
  const AttributeTypeNone: Bits := 0

  /** The kinds an attribute name can belong to. */
  datatype AttributeKind = KindUIKit | KindCoreText | KindYYText
  {
    /** The flag of the kind. */
    function Bit(): (r: Bits)
      ensures r != AttributeTypeNone
    {
      match this
      case KindUIKit => 1 << 0
      case KindCoreText => 1 << 1
      case KindYYText => 1 << 2
    }
  }

  /** A combination of attribute kinds, one flag each. */
  datatype AttributeTypes = AttributeTypes(uiKit: bool, coreText: bool, yyText: bool)

  function AttributeTypeMask(t: AttributeTypes): Bits
  {
    (if t.uiKit then KindUIKit.Bit() else 0)
      | (if t.coreText then KindCoreText.Bit() else 0)
      | (if t.yyText then KindYYText.Bit() else 0)
  }

  function AttributeTypesOfMask(m: Bits): AttributeTypes
  {
    AttributeTypes(m & KindUIKit.Bit() != 0, m & KindCoreText.Bit() != 0, m & KindYYText.Bit() != 0)
  }

  /** Different kinds share no bit, so every kind can be tested on its own in a combined mask. */
  lemma AttributeKindsDisjoint(a: AttributeKind, b: AttributeKind)
    requires a != b
    ensures a.Bit() & b.Bit() == 0
  {
    match a
    case KindUIKit =>
    case KindCoreText =>
    case KindYYText =>
  }

  /** A combination survives the trip through its mask, and a mask through its combination, up to the unused bits. */
  lemma AttributeTypesRoundTrip(t: AttributeTypes, m: Bits)
    ensures AttributeTypesOfMask(AttributeTypeMask(t)) == t
    ensures AttributeTypeMask(AttributeTypesOfMask(m)) == m & 0x7
  {
    if t.uiKit {
      if t.coreText {
        if t.yyText { assert AttributeTypeMask(t) == 7; } else { assert AttributeTypeMask(t) == 3; }
      } else {
        if t.yyText { assert AttributeTypeMask(t) == 5; } else { assert AttributeTypeMask(t) == 1; }
      }
    } else {
      if t.coreText {
        if t.yyText { assert AttributeTypeMask(t) == 6; } else { assert AttributeTypeMask(t) == 2; }
      } else {
        if t.yyText { assert AttributeTypeMask(t) == 4; } else { assert AttributeTypeMask(t) == 0; }
      }
    }
  }

  // ---------------------------------------------------------------------------
  // YYTextDirection

  /** `YYTextDirectionNone`. */
  const DirectionNone: Bits := 0

  datatype Side = Top | Right | Bottom | Left
  {
    /** The flag of the side. */
    function Bit(): (r: Bits)
      ensures r != DirectionNone
    {
      match this
      case Top => 1 << 0
      case Right => 1 << 1
      case Bottom => 1 << 2
      case Left => 1 << 3
    }
  }

  /** A combination of sides, one flag each. */
  datatype Directions = Directions(top: bool, right: bool, bottom: bool, left: bool)

  function DirectionMask(d: Directions): Bits
  {
    (if d.top then Top.Bit() else 0) | (if d.right then Right.Bit() else 0)
      | (if d.bottom then Bottom.Bit() else 0) | (if d.left then Left.Bit() else 0)
  }

  function DirectionsOfMask(m: Bits): Directions
  {
    Directions(m & Top.Bit() != 0, m & Right.Bit() != 0, m & Bottom.Bit() != 0, m & Left.Bit() != 0)
  }

  /** Different sides share no bit. */
  lemma SidesDisjoint(a: Side, b: Side)
    requires a != b
    ensures a.Bit() & b.Bit() == 0
  {
    match a
    case Top =>
    case Right =>
    case Bottom =>
    case Left =>
  }

  /** The low bits of a mask hold one flag per side; the mask of a combination has no other bits. */
  lemma DirectionMaskBits(d: Directions)
    ensures DirectionMask(d) & 0xF == DirectionMask(d)
    ensures DirectionMask(d) & Top.Bit() != 0 <==> d.top
    ensures DirectionMask(d) & Right.Bit() != 0 <==> d.right
    ensures DirectionMask(d) & Bottom.Bit() != 0 <==> d.bottom
    ensures DirectionMask(d) & Left.Bit() != 0 <==> d.left
  {
    var hi := (if d.bottom then Bottom.Bit() else 0) | (if d.left then Left.Bit() else 0);
    var lo := (if d.top then Top.Bit() else 0) | (if d.right then Right.Bit() else 0);
    assert hi & 0x3 == 0 && hi & 0xC == hi;
    assert lo & 0xC == 0 && lo & 0x3 == lo;
    assert DirectionMask(d) == lo | hi;
  }

  /** A combination survives the trip through its mask, and a mask through its combination, up to the unused bits. */
  lemma DirectionsRoundTrip(d: Directions, m: Bits)
    ensures DirectionsOfMask(DirectionMask(d)) == d
    ensures DirectionMask(DirectionsOfMask(m)) == m & 0xF
  {
    DirectionMaskBits(d);
    var back := DirectionsOfMask(m);
    var lo := (if back.top then Top.Bit() else 0) | (if back.right then Right.Bit() else 0);
    var hi := (if back.bottom then Bottom.Bit() else 0) | (if back.left then Left.Bit() else 0);
    assert lo == m & 0x3;
    assert hi == m & 0xC;
    assert DirectionMask(back) == lo | hi;
  }

  // ---------------------------------------------------------------------------
  // YYTextLineStyle

  /** The basic style lives in these bits. */
  const BasicStyleMask: Bits := 0xFF
  /** The style pattern lives in these bits. */
  const PatternMask: Bits := 0xF00

  datatype BasicStyle = StyleNone | StyleSingle | StyleThick | StyleDouble
  {
    function Raw(): (r: Bits)
      ensures r & BasicStyleMask == r
    {
      match this
      case StyleNone => 0x00
      case StyleSingle => 0x01
      case StyleThick => 0x02
      case StyleDouble => 0x09
    }
  }

  datatype Pattern = PatternSolid | PatternDot | PatternDash | PatternDashDot | PatternDashDotDot | PatternCircleDot
  {
    function Raw(): (r: Bits)
      ensures r & PatternMask == r
      ensures r & BasicStyleMask == 0
    {
      match this
      case PatternSolid => 0x000
      case PatternDot => 0x100
      case PatternDash => 0x200
      case PatternDashDot => 0x300
      case PatternDashDotDot => 0x400
      case PatternCircleDot => 0x900
    }
  }

  /** A line style: a basic style with a pattern. */
  datatype LineStyle = LineStyle(basic: BasicStyle, pattern: Pattern)

  /** The `YYTextLineStyle` value: the two parts or-ed together. */
  function LineStyleValue(s: LineStyle): (r: Bits)
    ensures r & BasicStyleMask == s.basic.Raw()
    ensures r & PatternMask == s.pattern.Raw()
  {
    BasicStyleParts(s.basic, s.pattern);
    s.basic.Raw() | s.pattern.Raw()
  }

  function BasicStyleOfRaw(r: Bits): Option<BasicStyle>
  {
    if r == 0x00 then Some(StyleNone)
    else if r == 0x01 then Some(StyleSingle)
    else if r == 0x02 then Some(StyleThick)
    else if r == 0x09 then Some(StyleDouble)
    else None
  }

  function PatternOfRaw(r: Bits): Option<Pattern>
  {
    if r == 0x000 then Some(PatternSolid)
    else if r == 0x100 then Some(PatternDot)
    else if r == 0x200 then Some(PatternDash)
    else if r == 0x300 then Some(PatternDashDot)
    else if r == 0x400 then Some(PatternDashDotDot)
    else if r == 0x900 then Some(PatternCircleDot)
    else None
  }

  /** Reads a value back through the two masks; `None` when either part is not a declared constant. */
  function LineStyleOfValue(v: Bits): Option<LineStyle>
  {
    match (BasicStyleOfRaw(v & BasicStyleMask), PatternOfRaw(v & PatternMask))
    case (Some(b), Some(p)) => Some(LineStyle(b, p))
    case _ => None
  }

  /** The two masks share no bit. */
  lemma MasksDisjoint()
    ensures BasicStyleMask & PatternMask == 0
  {
  }

  /** A basic style has no pattern bit. */
  lemma BasicStyleOutsidePattern(b: BasicStyle)
    ensures b.Raw() & PatternMask == 0
  {
    match b
    case StyleNone =>
    case StyleSingle =>
    case StyleThick =>
    case StyleDouble =>
  }

  /** Two values within disjoint masks are recovered from their union by the masks. */
  lemma SplitByMasks(b: Bits, p: Bits)
    requires b & BasicStyleMask == b && b & PatternMask == 0
    requires p & PatternMask == p && p & BasicStyleMask == 0
    ensures (b | p) & BasicStyleMask == b
    ensures (b | p) & PatternMask == p
  {
  }

  /** For one pattern, every basic style is recovered with that pattern. */
  lemma BasicStyleParts(b: BasicStyle, p: Pattern)
    ensures (b.Raw() | p.Raw()) & BasicStyleMask == b.Raw()
    ensures (b.Raw() | p.Raw()) & PatternMask == p.Raw()
  {
    var pv := p.Raw();
    match b
    case StyleNone => SplitByMasks(0x00, pv);
    case StyleSingle => SplitByMasks(0x01, pv);
    case StyleThick => SplitByMasks(0x02, pv);
    case StyleDouble => SplitByMasks(0x09, pv);
  }

  /** Every line style is read back from its value. */
  lemma LineStyleRoundTrip(s: LineStyle)
    ensures LineStyleOfValue(LineStyleValue(s)) == Some(s)
  {
    assert BasicStyleOfRaw(s.basic.Raw()) == Some(s.basic) by {
      match s.basic
      case StyleNone =>
      case StyleSingle =>
      case StyleThick =>
      case StyleDouble =>
    }
    assert PatternOfRaw(s.pattern.Raw()) == Some(s.pattern) by {
      match s.pattern
      case PatternSolid =>
      case PatternDot =>
      case PatternDash =>
      case PatternDashDot =>
      case PatternDashDotDot =>
      case PatternCircleDot =>
    }
  }

  /** A value that reads as a line style is that style's value, up to bits outside both masks. */
  lemma LineStyleValueOfRead(v: Bits)
    requires LineStyleOfValue(v).Some?
    ensures LineStyleValue(LineStyleOfValue(v).value) == v & 0xFFF
  {
    var s := LineStyleOfValue(v).value;
    BasicStyleOfRawInverse(v & BasicStyleMask);
    PatternOfRawInverse(v & PatternMask);
    assert LineStyleValue(s) == (v & BasicStyleMask) | (v & PatternMask);
    MaskUnion(v);
  }

  /** A raw value that names a basic style is that style's value. */
  lemma BasicStyleOfRawInverse(r: Bits)
    ensures BasicStyleOfRaw(r).Some? ==> BasicStyleOfRaw(r).value.Raw() == r
  {
  }

  /** A raw value that names a pattern is that pattern's value. */
  lemma PatternOfRawInverse(r: Bits)
    ensures PatternOfRaw(r).Some? ==> PatternOfRaw(r).value.Raw() == r
  {
  }

  /** The two masks together cover the low twelve bits. */
  lemma MaskUnion(v: Bits)
    ensures (v & BasicStyleMask) | (v & PatternMask) == v & 0xFFF
  {
  }

  /** The solid pattern is zero: a basic style alone draws a solid line. */
  lemma SolidIsDefault(b: BasicStyle)
    ensures PatternSolid.Raw() == 0
    ensures LineStyleValue(LineStyle(b, PatternSolid)) == b.Raw()
  {
  }

  // ---------------------------------------------------------------------------
  // YYTextVerticalAlignment and YYTextTruncationType

  datatype VerticalAlignment = AlignTop | AlignCenter | AlignBottom
  {
    function Raw(): (r: int)
      ensures 0 <= r <= 2
    {
      match this
      case AlignTop => 0
      case AlignCenter => 1
      case AlignBottom => 2
    }
  }

  function VerticalAlignmentOfRaw(r: int): (a: Option<VerticalAlignment>)
    ensures a.Some? <==> 0 <= r <= 2
  {
    if r == 0 then Some(AlignTop) else if r == 1 then Some(AlignCenter) else if r == 2 then Some(AlignBottom) else None
  }

  /** The alignments are the distinct values 0, 1 and 2. */
  lemma VerticalAlignmentRoundTrip(a: VerticalAlignment, r: int)
    ensures VerticalAlignmentOfRaw(a.Raw()) == Some(a)
    ensures VerticalAlignmentOfRaw(r).Some? ==> VerticalAlignmentOfRaw(r).value.Raw() == r
  {
  }

  datatype TruncationType = TruncateNone | TruncateStart | TruncateEnd | TruncateMiddle
  {
    function Raw(): (r: nat)
      ensures r <= 3
    {
      match this
      case TruncateNone => 0
      case TruncateStart => 1
      case TruncateEnd => 2
      case TruncateMiddle => 3
    }
  }

  function TruncationTypeOfRaw(r: nat): (t: Option<TruncationType>)
    ensures t.Some? <==> r <= 3
  {
    if r == 0 then Some(TruncateNone) else if r == 1 then Some(TruncateStart)
    else if r == 2 then Some(TruncateEnd) else if r == 3 then Some(TruncateMiddle) else None
  }

  /** The truncation types are the distinct values 0 to 3. */
  lemma TruncationTypeRoundTrip(t: TruncationType, r: nat)
    ensures TruncationTypeOfRaw(t.Raw()) == Some(t)
    ensures TruncationTypeOfRaw(r).Some? ==> TruncationTypeOfRaw(r).value.Raw() == r
  {
  }
}
