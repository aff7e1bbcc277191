/**
 * A model of the rule-based head-orientation classifier of the face-landmark
 * demo (getFaceOrientation in src/index.ts).
 *
 * The classifier takes three angles in degrees (yaw, pitch, roll) and the
 * width and height of the mouth, and produces a Portuguese description made
 * of up to four segments, always in this order:
 *   1. a mandatory heading phrase chosen by yaw (thresholds +-15),
 *   2. an optional tilt suffix chosen by pitch (thresholds +-10),
 *   3. an optional rotation suffix chosen by roll (thresholds +-10),
 *   4. an optional mouth suffix chosen by width / height (> 1.8 or < 1.2).
 *
 * The model separates the decision (the bucket of each input, collected in
 * an Orientation record) from the text (Render), gives Render an inverse
 * (Parse), and proves that the description read back always yields the
 * buckets the thresholds chose.
 */
module FaceOrientation {

  datatype Option<T> = None | Some(value: T)

  // ---------------------------------------------------------------------
  // Buckets: what each input's thresholds decide
  // ---------------------------------------------------------------------

  /** Horizontal direction of the face, decided by yaw. */
  datatype Heading = FacingRight | FacingLeft | FacingFront

  /** Vertical inclination, decided by pitch; Level adds no text. */
  datatype Tilt = TiltedUp | TiltedDown | Level

  /** Sideways rotation, decided by roll; Upright adds no text. */
  datatype Rotation = RotatedRight | RotatedLeft | Upright

  /** Mouth shape, decided by the width / height ratio; Neutral adds no text. */
  datatype MouthShape = Wide | Narrow | Neutral

  /** The four decisions the classifier makes, one per segment. */
  datatype Orientation = Orientation(heading: Heading, tilt: Tilt, rotation: Rotation, mouth: MouthShape)

  // ---------------------------------------------------------------------
  // Thresholds
  // ---------------------------------------------------------------------

  const YawLimit: real := 15.0
  const PitchLimit: real := 10.0
  const RollLimit: real := 10.0
  const WideRatio: real := 1.8
  const NarrowRatio: real := 1.2

  function ClassifyHeading(yaw: real): Heading {
    if yaw > YawLimit then FacingRight
    else if yaw < -YawLimit then FacingLeft
    else FacingFront
  }

  function ClassifyTilt(pitch: real): Tilt {
    if pitch > PitchLimit then TiltedUp
    else if pitch < -PitchLimit then TiltedDown
    else Level
  }

  function ClassifyRotation(roll: real): Rotation {
    if roll > RollLimit then RotatedRight
    else if roll < -RollLimit then RotatedLeft
    else Upright
  }

  function ClassifyMouth(mouthRatio: real): MouthShape {
    if mouthRatio > WideRatio then Wide
    else if mouthRatio < NarrowRatio then Narrow
    else Neutral
  }

  function Classify(yaw: real, pitch: real, roll: real, mouthRatio: real): Orientation {
    Orientation(ClassifyHeading(yaw), ClassifyTilt(pitch), ClassifyRotation(roll), ClassifyMouth(mouthRatio))
  }

  // ---------------------------------------------------------------------
  // Text of each segment
  // ---------------------------------------------------------------------

  const RightText: string := "virado para a direita"
  const LeftText: string := "virado para a esquerda"
  const FrontText: string := "de frente"
  const UpText: string := " e inclinado para cima"
  const DownText: string := " e inclinado para baixo"
  const RotatedRightText: string := " com rotação para a direita"
  const RotatedLeftText: string := " com rotação para a esquerda"
  const WideText: string := " (boca alargada, provavelmente de frente)"
  const NarrowText: string := " (boca estreita, provavelmente de lado)"

  function HeadingText(h: Heading): string {
    match h
    case FacingRight => RightText
    case FacingLeft => LeftText
    case FacingFront => FrontText
  }

  function TiltText(t: Tilt): string {
    match t
    case TiltedUp => UpText
    case TiltedDown => DownText
    case Level => ""
  }

  function RotationText(r: Rotation): string {
    match r
    case RotatedRight => RotatedRightText
    case RotatedLeft => RotatedLeftText
    case Upright => ""
  }

  function MouthText(m: MouthShape): string {
    match m
    case Wide => WideText
    case Narrow => NarrowText
    case Neutral => ""
  }

  /** The description: heading phrase, then the tilt, rotation and mouth suffixes. */
  function Render(o: Orientation): string {
    HeadingText(o.heading) + (TiltText(o.tilt) + (RotationText(o.rotation) + MouthText(o.mouth)))
  }

  /** What getFaceOrientation returns, as a function of its five inputs. */
  function Describe(yaw: real, pitch: real, roll: real, mouthWidth: real, mouthHeight: real): string
    requires mouthHeight > 0.0
  {
    Render(Classify(yaw, pitch, roll, mouthWidth / mouthHeight))
  }

  // ---------------------------------------------------------------------
  // The classifier, as the source writes it
  // ---------------------------------------------------------------------

  /**
   * Builds the description in a mutable local, as the source does: one
   * assignment from the yaw chain, then one optional append from each of
   * the pitch, roll and mouth-ratio chains.
   */
  method GetFaceOrientation(yaw: real, pitch: real, roll: real, mouthWidth: real, mouthHeight: real)
    returns (orientation: string)
    requires mouthHeight > 0.0
    ensures orientation == Describe(yaw, pitch, roll, mouthWidth, mouthHeight)
  {
    var mouthRatio := mouthWidth / mouthHeight;

    orientation := "";

    if yaw > YawLimit {
      orientation := RightText;
    } else if yaw < -YawLimit {
      orientation := LeftText;
    } else {
      orientation := FrontText;
    }
    assert orientation == HeadingText(ClassifyHeading(yaw));

    if pitch > PitchLimit {
      orientation := orientation + UpText;
    } else if pitch < -PitchLimit {
      orientation := orientation + DownText;
    }
    assert orientation == HeadingText(ClassifyHeading(yaw)) + TiltText(ClassifyTilt(pitch));

    if roll > RollLimit {
      orientation := orientation + RotatedRightText;
    } else if roll < -RollLimit {
      orientation := orientation + RotatedLeftText;
    }
    assert orientation == HeadingText(ClassifyHeading(yaw)) + TiltText(ClassifyTilt(pitch))
      + RotationText(ClassifyRotation(roll));

    if mouthRatio > WideRatio {
      orientation := orientation + WideText;
    } else if mouthRatio < NarrowRatio {
      orientation := orientation + NarrowText;
    }
    AppendAssoc(HeadingText(ClassifyHeading(yaw)), TiltText(ClassifyTilt(pitch)),
      RotationText(ClassifyRotation(roll)), MouthText(ClassifyMouth(mouthRatio)));
  }

  /** Regroups the source's left-to-right appends into the shape of Render. */
  lemma AppendAssoc(a: string, b: string, c: string, d: string)
    ensures a + b + c + d == a + (b + (c + d))
  {
  }

  // ---------------------------------------------------------------------
  // Reading a description back
  // ---------------------------------------------------------------------

  function ParseHeading(s: string): Option<(Heading, string)> {
    if RightText <= s then Some((FacingRight, s[|RightText|..]))
    else if LeftText <= s then Some((FacingLeft, s[|LeftText|..]))
    else if FrontText <= s then Some((FacingFront, s[|FrontText|..]))
    else None
  }

  function ParseTilt(s: string): (Tilt, string) {
    if UpText <= s then (TiltedUp, s[|UpText|..])
    else if DownText <= s then (TiltedDown, s[|DownText|..])
    else (Level, s)
  }

  function ParseRotation(s: string): (Rotation, string) {
    if RotatedRightText <= s then (RotatedRight, s[|RotatedRightText|..])
    else if RotatedLeftText <= s then (RotatedLeft, s[|RotatedLeftText|..])
    else (Upright, s)
  }

  function ParseMouth(s: string): (MouthShape, string) {
    if WideText <= s then (Wide, s[|WideText|..])
    else if NarrowText <= s then (Narrow, s[|NarrowText|..])
    else (Neutral, s)
  }

  /** Recovers the four decisions from a description, or None if s is not one. */
  function Parse(s: string): Option<Orientation> {
    match ParseHeading(s)
    case None => None
    case Some((h, afterHeading)) =>
      var (t, afterTilt) := ParseTilt(afterHeading);
      var (r, afterRotation) := ParseRotation(afterTilt);
      var (m, rest) := ParseMouth(afterRotation);
      if rest == [] then Some(Orientation(h, t, r, m)) else None
  }

  // ---------------------------------------------------------------------
  // Round trip: every description reads back to the decisions it renders
  // ---------------------------------------------------------------------

  /** A phrase is a prefix of itself followed by anything, and stripping it leaves the rest. */
  lemma PrefixOfAppend(p: string, rest: string)
    ensures p <= p + rest && (p + rest)[|p|..] == rest
  {
    assert (p + rest)[..|p|] == p;
  }

  /** A phrase that differs from s at some position is not a prefix of s. */
  lemma DiffersAt(p: string, s: string, i: nat)
    requires i < |p| && i < |s| && p[i] != s[i]
    ensures !(p <= s)
  {
  }

  lemma ParseMouthText(m: MouthShape)
    ensures ParseMouth(MouthText(m)) == (m, "")
  {
    match m
    case Wide =>
      PrefixOfAppend(WideText, "");
      assert WideText + "" == WideText;
    case Narrow =>
      PrefixOfAppend(NarrowText, "");
      assert NarrowText + "" == NarrowText;
      DiffersAt(WideText, NarrowText, 7);
    case Neutral =>
  }

  /** A rotation suffix reads back as itself in front of any text that is empty or starts with " (". */
  lemma ParseRotationBefore(r: Rotation, rest: string)
    requires rest == [] || (|rest| >= 2 && rest[1] == '(')
    ensures ParseRotation(RotationText(r) + rest) == (r, rest)
  {
    var s := RotationText(r) + rest;
    match r
    case RotatedRight =>
      PrefixOfAppend(RotatedRightText, rest);
    case RotatedLeft =>
      PrefixOfAppend(RotatedLeftText, rest);
      DiffersAt(RotatedRightText, s, 20);
    case Upright =>
      assert s == rest;
      if s != [] {
        DiffersAt(RotatedRightText, s, 1);
        DiffersAt(RotatedLeftText, s, 1);
      }
  }

  lemma ParseRotationText(r: Rotation, m: MouthShape)
    ensures ParseRotation(RotationText(r) + MouthText(m)) == (r, MouthText(m))
  {
    var rest := MouthText(m);
    assert rest == [] || (|rest| >= 2 && rest[1] == '(');
    ParseRotationBefore(r, rest);
  }

  /** What follows the tilt segment is empty or starts with " c" (rotation) or " (" (mouth). */
  lemma AfterTiltStart(r: Rotation, m: MouthShape)
    ensures var rest := RotationText(r) + MouthText(m);
      rest == [] || (|rest| >= 2 && rest[0] == ' ' && (rest[1] == 'c' || rest[1] == '('))
  {
    var head := if r != Upright then RotationText(r) else MouthText(m);
    assert head == [] || (|head| >= 2 && head[0] == ' ' && (head[1] == 'c' || head[1] == '('));
    assert r != Upright ==> |head| >= 2;
    assert r == Upright ==> RotationText(r) + MouthText(m) == head;
  }

  /** A tilt suffix reads back as itself in front of any text that is empty or starts with " c" or " (". */
  lemma ParseTiltBefore(t: Tilt, rest: string)
    requires rest == [] || (|rest| >= 2 && rest[0] == ' ' && (rest[1] == 'c' || rest[1] == '('))
    ensures ParseTilt(TiltText(t) + rest) == (t, rest)
  {
    var s := TiltText(t) + rest;
    match t
    case TiltedUp =>
      PrefixOfAppend(UpText, rest);
    case TiltedDown =>
      PrefixOfAppend(DownText, rest);
      DiffersAt(UpText, s, 18);
    case Level =>
      assert s == rest;
      if s != [] {
        DiffersAt(UpText, s, 1);
        DiffersAt(DownText, s, 1);
      }
  }

  lemma ParseTiltText(t: Tilt, r: Rotation, m: MouthShape)
    ensures ParseTilt(TiltText(t) + (RotationText(r) + MouthText(m))) == (t, RotationText(r) + MouthText(m))
  {
    AfterTiltStart(r, m);
    ParseTiltBefore(t, RotationText(r) + MouthText(m));
  }

  /** Exactly one heading phrase is a prefix of a text that starts with a heading phrase. */
  lemma HeadingPrefixes(h: Heading, rest: string)
    ensures var s := HeadingText(h) + rest;
      && (RightText <= s <==> h == FacingRight)
      && (LeftText <= s <==> h == FacingLeft)
      && (FrontText <= s <==> h == FacingFront)
  {
    var s := HeadingText(h) + rest;
    match h
    case FacingRight =>
      assert s[..|RightText|] == RightText;
      assert s[14] == 'd' != LeftText[14];
      assert s[0] == 'v' != FrontText[0];
    case FacingLeft =>
      assert s[..|LeftText|] == LeftText;
      assert s[14] == 'e' != RightText[14];
      assert s[0] == 'v' != FrontText[0];
    case FacingFront =>
      assert s[..|FrontText|] == FrontText;
      assert s[0] == 'd' != RightText[0] && s[0] != LeftText[0];
  }

  lemma ParseHeadingText(h: Heading, rest: string)
    ensures ParseHeading(HeadingText(h) + rest) == Some((h, rest))
  {
    HeadingPrefixes(h, rest);
  }

  /** Parse is a left inverse of Render. */
  lemma ParseRender(o: Orientation)
    ensures Parse(Render(o)) == Some(o)
  {
    var tail := TiltText(o.tilt) + (RotationText(o.rotation) + MouthText(o.mouth));
    assert Render(o) == HeadingText(o.heading) + tail;
    ParseHeadingText(o.heading, tail);
    ParseTiltText(o.tilt, o.rotation, o.mouth);
    ParseRotationText(o.rotation, o.mouth);
    ParseMouthText(o.mouth);
  }

  /** Different decisions never produce the same description. */
  lemma RenderInjective(a: Orientation, b: Orientation)
    ensures Render(a) == Render(b) ==> a == b
  {
    ParseRender(a);
    ParseRender(b);
  }

  // ---------------------------------------------------------------------
  // Properties of the description
  // ---------------------------------------------------------------------

  /** A rendered description starts with the phrase of its own heading and with no other. */
  lemma RenderHeading(o: Orientation)
    ensures |Render(o)| > 0
    ensures RightText <= Render(o) <==> o.heading == FacingRight
    ensures LeftText <= Render(o) <==> o.heading == FacingLeft
    ensures FrontText <= Render(o) <==> o.heading == FacingFront
  {
    var tail := TiltText(o.tilt) + (RotationText(o.rotation) + MouthText(o.mouth));
    assert Render(o) == HeadingText(o.heading) + tail;
    HeadingPrefixes(o.heading, tail);
  }

  /**
   * The description is never empty and starts with exactly one of the three
   * heading phrases, chosen by strict comparisons of yaw against +-15.
   */
  lemma HeadingPhrase(yaw: real, pitch: real, roll: real, mouthWidth: real, mouthHeight: real)
    requires mouthHeight > 0.0
    ensures var s := Describe(yaw, pitch, roll, mouthWidth, mouthHeight);
      && |s| > 0
      && (RightText <= s <==> yaw > 15.0)
      && (LeftText <= s <==> yaw < -15.0)
      && (FrontText <= s <==> -15.0 <= yaw <= 15.0)
  {
    RenderHeading(Classify(yaw, pitch, roll, mouthWidth / mouthHeight));
  }

  /** The tilt segment read back is TiltedUp iff pitch > 10, TiltedDown iff pitch < -10, and absent otherwise. */
  lemma TiltSegment(yaw: real, pitch: real, roll: real, mouthWidth: real, mouthHeight: real)
    requires mouthHeight > 0.0
    ensures var p := Parse(Describe(yaw, pitch, roll, mouthWidth, mouthHeight));
      && p.Some?
      && (p.value.tilt == TiltedUp <==> pitch > 10.0)
      && (p.value.tilt == TiltedDown <==> pitch < -10.0)
      && (p.value.tilt == Level <==> -10.0 <= pitch <= 10.0)
  {
    ParseRender(Classify(yaw, pitch, roll, mouthWidth / mouthHeight));
  }

  /** The rotation segment read back is RotatedRight iff roll > 10, RotatedLeft iff roll < -10, and absent otherwise. */
  lemma RotationSegment(yaw: real, pitch: real, roll: real, mouthWidth: real, mouthHeight: real)
    requires mouthHeight > 0.0
    ensures var p := Parse(Describe(yaw, pitch, roll, mouthWidth, mouthHeight));
      && p.Some?
      && (p.value.rotation == RotatedRight <==> roll > 10.0)
      && (p.value.rotation == RotatedLeft <==> roll < -10.0)
      && (p.value.rotation == Upright <==> -10.0 <= roll <= 10.0)
  {
    ParseRender(Classify(yaw, pitch, roll, mouthWidth / mouthHeight));
  }

  /** The mouth segment read back is Wide iff width / height > 1.8, Narrow iff < 1.2, and absent on [1.2, 1.8]. */
  lemma MouthSegment(yaw: real, pitch: real, roll: real, mouthWidth: real, mouthHeight: real)
    requires mouthHeight > 0.0
    ensures var p := Parse(Describe(yaw, pitch, roll, mouthWidth, mouthHeight));
      && p.Some?
      && (p.value.mouth == Wide <==> mouthWidth / mouthHeight > 1.8)
      && (p.value.mouth == Narrow <==> mouthWidth / mouthHeight < 1.2)
      && (p.value.mouth == Neutral <==> 1.2 <= mouthWidth / mouthHeight <= 1.8)
  {
    ParseRender(Classify(yaw, pitch, roll, mouthWidth / mouthHeight));
  }

  /**
   * Within the dead zones (|yaw| <= 15, |pitch| <= 10, |roll| <= 10, ratio in
   * [1.2, 1.8]) the description is the bare heading "de frente": the
   * thresholds are strict, so the boundary values add nothing.
   */
  lemma DeadZone(yaw: real, pitch: real, roll: real, mouthWidth: real, mouthHeight: real)
    requires mouthHeight > 0.0
    requires -15.0 <= yaw <= 15.0 && -10.0 <= pitch <= 10.0 && -10.0 <= roll <= 10.0
    requires 1.2 <= mouthWidth / mouthHeight <= 1.8
    ensures Describe(yaw, pitch, roll, mouthWidth, mouthHeight) == "de frente"
  {
  }

  /**
   * Each segment depends only on its own input: two calls that agree on one
   * input agree on the segment that input decides, whatever the others are.
   */
  lemma SegmentsIndependent(
    yaw: real, pitch: real, roll: real, mouthWidth: real, mouthHeight: real,
    yaw': real, pitch': real, roll': real, mouthWidth': real, mouthHeight': real)
    requires mouthHeight > 0.0 && mouthHeight' > 0.0
    ensures var p := Parse(Describe(yaw, pitch, roll, mouthWidth, mouthHeight));
      var p' := Parse(Describe(yaw', pitch', roll', mouthWidth', mouthHeight'));
      && p.Some? && p'.Some?
      && (yaw == yaw' ==> p.value.heading == p'.value.heading)
      && (pitch == pitch' ==> p.value.tilt == p'.value.tilt)
      && (roll == roll' ==> p.value.rotation == p'.value.rotation)
      && (mouthWidth / mouthHeight == mouthWidth' / mouthHeight' ==> p.value.mouth == p'.value.mouth)
  {
    ParseRender(Classify(yaw, pitch, roll, mouthWidth / mouthHeight));
    ParseRender(Classify(yaw', pitch', roll', mouthWidth' / mouthHeight'));
  }

  /** The description starts with the same yaw phrase whatever pitch, roll and the mouth are. */
  lemma HeadingPrefixStable(
    yaw: real, pitch: real, roll: real, mouthWidth: real, mouthHeight: real,
    pitch': real, roll': real, mouthWidth': real, mouthHeight': real)
    requires mouthHeight > 0.0 && mouthHeight' > 0.0
    ensures var s := Describe(yaw, pitch, roll, mouthWidth, mouthHeight);
      var s' := Describe(yaw, pitch', roll', mouthWidth', mouthHeight');
      var phrase := HeadingText(ClassifyHeading(yaw));
      && |phrase| > 0 && phrase <= s && phrase <= s'
      && (RightText <= s <==> RightText <= s')
      && (LeftText <= s <==> LeftText <= s')
      && (FrontText <= s <==> FrontText <= s')
  {
    HeadingPhrase(yaw, pitch, roll, mouthWidth, mouthHeight);
    HeadingPhrase(yaw, pitch', roll', mouthWidth', mouthHeight');
  }

  /** Scaling the mouth's width and height by the same positive factor leaves the description unchanged. */
  lemma MouthScaleInvariant(yaw: real, pitch: real, roll: real, mouthWidth: real, mouthHeight: real, k: real)
    requires mouthHeight > 0.0 && k > 0.0
    ensures k * mouthHeight > 0.0
    ensures Describe(yaw, pitch, roll, k * mouthWidth, k * mouthHeight) == Describe(yaw, pitch, roll, mouthWidth, mouthHeight)
  {
    var ratio := mouthWidth / mouthHeight;
    assert ratio * mouthHeight == mouthWidth;
    assert ratio * (k * mouthHeight) == k * mouthWidth;
    assert (k * mouthWidth) / (k * mouthHeight) == ratio;
  }
}
