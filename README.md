# Face-orientation classifier

This project models the rule-based head-orientation classifier of a browser face-landmark demo. The classifier is `getFaceOrientation` in `src/index.ts`. It takes three angles in degrees (yaw, pitch, roll) and the width and height of the mouth. It returns a Portuguese description made of up to four segments, always in the same order:

1. a heading phrase, which is always present and is chosen by yaw with strict thresholds ±15: "virado para a direita", "virado para a esquerda" or "de frente";
2. an optional tilt suffix chosen by pitch with strict thresholds ±10: " e inclinado para cima" or " e inclinado para baixo";
3. an optional rotation suffix chosen by roll with strict thresholds ±10: " com rotação para a direita" or " com rotação para a esquerda";
4. an optional mouth suffix chosen by the ratio width / height: above 1.8 " (boca alargada, provavelmente de frente)", below 1.2 " (boca estreita, provavelmente de lado)".

The model lives in `face_orientation.dfy`, in the module `FaceOrientation`:

- Each input's decision is a bucket: `Heading`, `Tilt`, `Rotation` and `MouthShape`. The four buckets together form an `Orientation` record. `Classify` computes the buckets from the inputs.
- `Render` turns an `Orientation` into the description text. `Describe` is the description as a function of the five inputs.
- `GetFaceOrientation` is the source's procedure written imperatively. It builds the result in a mutable local: one assignment from the yaw chain, then one optional append from each of the pitch, roll and mouth chains. It is proved equal to `Describe`.
- `Parse` reads a description back into an `Orientation`. The round-trip lemma `ParseRender` proves it inverts `Render`. So the text fixes every bucket: the suffix of a segment is present exactly when that segment's input crossed its threshold. The lemmas about tilt, rotation and mouth are stated through this read-back.

Numbers are Dafny `real`s. The classifier requires `mouthHeight > 0` so that the division at src/index.ts:105 is defined.

## Model

| member | source | states |
|---|---|---|
| FaceOrientation.GetFaceOrientation | src/index.ts:98-140 | The imperative classifier returns exactly the description `Describe` assigns to its five inputs: the yaw phrase, then the pitch, roll and mouth-ratio suffixes, in that order. |
| FaceOrientation.ParseRender | src/index.ts:107-139 | Each description reads back to exactly the four decisions that produced it. The concatenated segments cannot be mistaken for one another, and no segment is repeated or reordered. |
| FaceOrientation.RenderInjective | src/index.ts:107-139 | Two different sets of decisions never produce the same description string. |
| FaceOrientation.HeadingPrefixes | src/index.ts:110-116 | A text that begins with a heading phrase begins with that phrase and with neither of the other two. |
| FaceOrientation.RenderHeading | src/index.ts:110-116 | A rendered description is non-empty. It starts with "virado para a direita", "virado para a esquerda" or "de frente" exactly when its heading is right, left or front. |
| FaceOrientation.HeadingPhrase | src/index.ts:110-116 | The description is never empty. It starts with "virado para a direita" iff yaw > 15, with "virado para a esquerda" iff yaw < -15, and with "de frente" iff -15 <= yaw <= 15, so yaw = ±15 gives "de frente". |
| FaceOrientation.ParseHeadingText | src/index.ts:110-116 | Reading the heading phrase back yields its own heading and leaves the following text untouched. |
| FaceOrientation.ParseTiltBefore | src/index.ts:119-123 | Each tilt suffix, or none, reads back as its own tilt in front of any text that is empty or starts with " c" or " (". That text is left unconsumed. |
| FaceOrientation.ParseTiltText | src/index.ts:119-123 | After the heading, a tilt suffix reads back as its own tilt. Without one, the rotation or mouth text that follows is not taken for a tilt. |
| FaceOrientation.AfterTiltStart | src/index.ts:126-137 | The text after the tilt segment is empty or starts with the two characters " c" (rotation) or " (" (mouth). This is what keeps it apart from a tilt suffix. |
| FaceOrientation.ParseRotationBefore | src/index.ts:126-130 | Each rotation suffix, or none, reads back as its own rotation in front of any text that is empty or has '(' as its second character. That text is left unconsumed. |
| FaceOrientation.ParseRotationText | src/index.ts:126-130 | A rotation suffix reads back as its own rotation. Without one, a following mouth suffix is not taken for a rotation. |
| FaceOrientation.ParseMouthText | src/index.ts:133-137 | A mouth suffix reads back as its own shape and ends the description. |
| FaceOrientation.TiltSegment | src/index.ts:119-123 | The description read back has the " e inclinado para cima" segment iff pitch > 10 and the " e inclinado para baixo" segment iff pitch < -10. It has no tilt segment iff -10 <= pitch <= 10. |
| FaceOrientation.RotationSegment | src/index.ts:126-130 | The description read back has the " com rotação para a direita" segment iff roll > 10 and the " com rotação para a esquerda" segment iff roll < -10. It has no rotation segment iff -10 <= roll <= 10. |
| FaceOrientation.MouthSegment | src/index.ts:133-137 | The description read back has the "boca alargada" segment iff width / height > 1.8 and the "boca estreita" segment iff width / height < 1.2. It has no mouth segment iff the ratio lies in [1.2, 1.8]. |
| FaceOrientation.DeadZone | src/index.ts:110-137 | With -15 <= yaw <= 15, -10 <= pitch <= 10, -10 <= roll <= 10 and the ratio in [1.2, 1.8], the description is exactly "de frente". This includes every boundary value, because the comparisons are strict. |
| FaceOrientation.SegmentsIndependent | src/index.ts:110-137 | Each segment depends only on its own input. Two calls with the same yaw have the same heading, and likewise for pitch and tilt, roll and rotation, and the mouth ratio and mouth shape. This holds whatever the other inputs are. |
| FaceOrientation.HeadingPrefixStable | src/index.ts:110-116 | Changing pitch, roll or the mouth dimensions leaves the yaw phrase unchanged: both descriptions start with the phrase yaw selects, and each of the three heading phrases is a prefix of one exactly when it is a prefix of the other. |
| FaceOrientation.MouthScaleInvariant | src/index.ts:105-137 | Scaling the mouth's width and height by the same positive factor leaves the whole description unchanged. |

## Left out

- `calculateDistance`, `calculateHeadOrientation` and `calculateMouthRatio` (src/index.ts:47-96) are left out. They are floating-point formulas (`Math.sqrt`, `Math.pow`, `Math.atan2`, degree scaling) whose outputs the classifier takes as plain real inputs.
- When `mouthHeight` is 0, the division at src/index.ts:105 gives Infinity or NaN. The model instead requires `mouthHeight > 0`. With a height of 0 and a positive width, the source would add the "boca alargada" suffix. With a width of 0 too, NaN fails both comparisons and the source adds no mouth suffix. The model leaves both cases out. It also leaves out IEEE double rounding, both of the ratio and of the threshold literals 1.8 and 1.2 (src/index.ts:133,135), which are not exact doubles; the model compares against the exact reals.
- `createFaceLandmarker` and `loadImageToCanvas` (src/index.ts:15-44) are left out. They load the external model and the image, which is I/O.
- The change-event handler (src/index.ts:142-236) is left out. It is DOM, canvas drawing through a foreign library, the nose-depth text formatted with `toFixed`, and `innerText` writes.
- TiltSegment: "the suffix appears" is stated as "the description read back by `Parse` has that tilt segment", not as a substring search. `ParseRender` shows the reading is unique, so both fix the same segments.
- RotationSegment: "appears" is stated through `Parse` in the same way, not as a substring search.
- MouthSegment: "appears" is stated through `Parse` in the same way, not as a substring search.
