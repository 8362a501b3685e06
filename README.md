# anonymex-serveur: a Dafny model of the scan-reading core

anonymex-serveur reads scanned exam cover sheets ("bordereaux") and recovers the anonymity code each student writes in a grid of cells. To do so it:

- finds the four concentric-ring targets printed in the corners, or the AprilTags on other layouts;
- works out how the scan is rotated;
- re-expresses the detections in the upright frame and rectifies the perspective;
- crops one region per character cell;
- hands each crop to a character classifier.

Around that pipeline it generates attendance sheets, anonymity codes with a minimum Hamming distance, and the cached database entities a reading refers to.

This project models that core in Dafny, one module per source file. Each module names its file in its opening comment.

- **Form.** Pure code is written as datatypes, functions and lemmas. Code that updates state step by step is written as methods with loops, or as classes whose methods change their fields. Each such method is proved against a specification function.
- **Numbers.** Image geometry uses exact reals. Bytes are `bv8`.
- **Libraries.** OpenCV, sharp, pdf.js, tfjs, PDFKit, dayjs, busboy and the MySQL pool are not modelled as code. What the model needs from them is given as inputs: a contour hierarchy, a page's drawing operations, text measurements, the database's answers.
- **Errors.** An error `throw` by the source is a `Result` whose error is an `ErreurBase` of the right subclass, with its message. Where the source awaits a database query or execute, an insert, an `onDecoupe` or `onScanExtrait` callback, or a crop, its answer is a parameter: for a query, the rows or the rejection; for calls made one after another, a function of what was sent before; for a callback, a function of its argument (for `onScanExtrait`, also of the call's number). A rejection ends the operation with that `Err` and the state reached so far. The rejections of the other library promises are not modelled (see "## Left out").
- **Generated documents.** What PDFKit would draw is returned as a sequence of drawing elements.

## Model

| member | source | states |
|---|---|---|
| Erreurs.Assigner | src/core/ErreurBase.ts:27-41 | an ErreurBase comes back unchanged; a standard Error becomes an error of the calling subclass carrying its message, with the Error as cause; any other value becomes only the message of a new error of that subclass, with no cause |
| Erreurs.AssignerIdempotent | src/core/ErreurBase.ts:27-30 | normalising an already-normalised error, under any subclass, returns it unchanged |
| Erreurs.ClassNameInjective | src/core/ErreurBase.ts:9 | `name` is the subclass's own name, so two errors with the same name belong to the same subclass |
| Geometrie.JsRem | src/core/lecture/preparation/reorientation/remapperCiblesConcentriques.ts:11 | JavaScript's `%` on integers: the remainder takes the dividend's sign and is smaller than the divisor in absolute value |
| Geometrie.NormaliserAngle | src/core/lecture/preparation/reorientation/remapperCiblesConcentriques.ts:15 | `((a % 360) + 360) % 360`, computed with the truncating remainder, always lands in 0..359 and is congruent to a modulo 360 |
| Geometrie.MultipleDe90 | src/lecture/preparation/remapperDetections.ts:13 | the test `orientation % 90 !== 0` fails exactly on the multiples of 90, negative multiples included |
| PdfUtils.MmToPoints | src/utils/pdfUtils.ts:6-8 | a length in mm of 72/25.4 times that length in points |
| PdfUtils.PointsToMm | src/core/lecture/preparation/decouperROIs.ts:34 | the inverse scaling by 25.4/72 |
| PdfUtils.MmPointsRoundTrip | src/utils/pdfUtils.ts:6-8 | converting mm to points and back, or points to mm and back, gives the starting value |
| PdfUtils.MmToPointsAdditive | src/utils/pdfUtils.ts:6-8 | converting a sum of lengths gives the sum of the converted lengths |
| PdfUtils.MmToPointsMonotone | src/utils/pdfUtils.ts:6-8 | a longer length in mm is a longer length in points |
| GenerationCibles.Centre | src/core/generation/common/genererCiblesConcentriques.ts:17-22 | the centre of a corner's target lies at margin + size/2 from its two nearest page edges: left or right by corner parity, top or bottom by corner half |
| GenerationCibles.AnneauxAttendus | src/core/generation/common/genererCiblesConcentriques.ts:26-29 | a corner gets exactly CIBLES_NB_RINGS[corner] circles |
| GenerationCibles.Dessin | src/core/generation/common/genererCiblesConcentriques.ts:24-39 | the drawing of the first n corners holds the sum of their ring counts |
| GenerationCibles.DessinerCible | src/core/generation/common/genererCiblesConcentriques.ts:26-38 | the inner loop draws nbRings circles about the square's centre; circle k has the closed-form radius size·(n−k)/(2n) and is black for even k, white otherwise |
| GenerationCibles.GenererCiblesConcentriques | src/core/generation/common/genererCiblesConcentriques.ts:12-41 | the circles drawn equal the reference drawing: the four corners in order HG, HD, BG, BD, each target's rings from the outside in, sizes converted from mm to points |
| GenerationCibles.DessinIndex | src/core/generation/common/genererCiblesConcentriques.ts:24-39 | ten circles are drawn in all, and the circle at offset i after the earlier corners' circles is ring i of that corner |
| GenerationCibles.RingSize | src/core/generation/common/genererCiblesConcentriques.ts:27-36 | the loop's radius, (size − i·2·size/(2n))/2, equals size·(n−i)/(2n) |
| GenerationCibles.RingCountsDistinct | src/core/generation/common/genererCiblesConcentriques.ts:4 | the four corners have pairwise different ring counts, so a ring count identifies its corner |
| GenerationCibles.RingsNest | src/core/generation/common/genererCiblesConcentriques.ts:27-37 | for a positive size, radii strictly decrease from the outside in and stay positive; the outermost is size/2, the innermost size/(2n); consecutive rings alternate fill |
| DetectionCibles.LastIndexOf | src/core/lecture/preparation/detecterCiblesConcentriques.ts:27-29 | the lookup built from (count, index) pairs finds the last index holding the value, and finds nothing when no entry holds it |
| DetectionCibles.RingIdLookupInverse | src/core/lecture/preparation/detecterCiblesConcentriques.ts:27-29 | RING_ID_LOOKUP knows exactly the ring counts 1 to 4; the id it gives is the corner whose CIBLES_NB_RINGS entry is that count, and it is the only such corner |
| DetectionCibles.ChainEndsUnique | src/core/lecture/preparation/detecterCiblesConcentriques.ts:158-166 | a first-child chain that reaches −1 does so after one definite number of steps |
| DetectionCibles.CountNestedRings | src/core/lecture/preparation/detecterCiblesConcentriques.ts:158-166 | on a chain that ends, the loop returns 1 plus the number of first-child links followed from hierarchy[4·index+2] before reaching −1 |
| DetectionCibles.DistanceToNearestEdge | src/core/lecture/preparation/detecterCiblesConcentriques.ts:170-193 | the distance is never negative and is the smaller of the nearer horizontal and the nearer vertical clamped distance; the corner is in the top row exactly when top is no farther than bottom, and in the left column exactly when left is no farther than right |
| DetectionCibles.CoinLePlusProche | src/core/lecture/preparation/detecterCiblesConcentriques.ts:115-124 | a candidate's corner is bottom exactly when the bottom edge is strictly closer than the top one, and right exactly when the right edge is strictly closer than the left one |
| DetectionCibles.CornerRulesAgree | src/core/lecture/preparation/detecterCiblesConcentriques.ts:115-193 | on an image of non-negative size, the corner rule of the contour loop and the one in distanceToNearestEdge give the same corner |
| DetectionCibles.Candidat | src/core/lecture/preparation/detecterCiblesConcentriques.ts:94-131 | a contour is a candidate exactly when its ring count is known, its radius is finite and within [0.2, 1.2] times the expected radius, and its circularity is at least 0.35; the candidate keeps the ring count, centre and radius, takes the nearest corner, and its id is the corner whose ring count it has |
| DetectionCibles.Meilleurs | src/core/lecture/preparation/detecterCiblesConcentriques.ts:90 | the per-corner selection always has four slots |
| DetectionCibles.MeilleursMinimaux | src/core/lecture/preparation/detecterCiblesConcentriques.ts:90 | a corner's slot is empty exactly when no candidate fell in that corner; otherwise it holds a candidate of that corner, and no other candidate of that corner is closer to its edge |
| DetectionCibles.MeilleursCoins | src/core/lecture/preparation/detecterCiblesConcentriques.ts:90 | every filled slot holds a candidate of its own corner |
| DetectionCibles.Presentes | src/core/lecture/preparation/detecterCiblesConcentriques.ts:137 | the detections are exactly the targets held in the filled slots |
| DetectionCibles.SortById | src/core/lecture/preparation/detecterCiblesConcentriques.ts:138 | the detections are sorted by ascending id and are a permutation of the kept targets |
| DetectionCibles.MeilleursCandidats | src/core/lecture/preparation/detecterCiblesConcentriques.ts:90-135 | the contour loop's slots equal the per-corner selection over the candidates of all contours, seen in contour order |
| DetectionCibles.TraiterContour | src/core/lecture/preparation/detecterCiblesConcentriques.ts:93-135 | one turn of the contour loop moves the slots from the selection over the first i contours to the selection over the first i+1 |
| DetectionCibles.CandidatsStep | src/core/lecture/preparation/detecterCiblesConcentriques.ts:93-135 | an outer contour giving a candidate updates its corner's slot; any other contour leaves the slots unchanged |
| DetectionCibles.DetecterCiblesConcentriques | src/core/lecture/preparation/detecterCiblesConcentriques.ts:31-156 | an empty hierarchy fails with "Aucune cible concentrique détectée."; otherwise the targets kept per corner, sorted by id, are returned, and fewer than three of them fail with the count out of 4 in the message |
| DetectionCibles.DetectionsParCoin | src/core/lecture/preparation/detecterCiblesConcentriques.ts:90-138 | every returned target is the one its own corner kept, so no corner appears twice |
| OrientationCibles.Arrangement | src/core/lecture/preparation/reorientation/orientationCiblesConcentriques.ts:8-13 | each row of ARRANGEMENTS_ORIENTATION has one ring count per corner |
| OrientationCibles.ArrangementTable | src/core/lecture/preparation/reorientation/orientationCiblesConcentriques.ts:8-13 | the table maps to the ring counts [4,2,3,1], [2,1,4,3], [1,3,2,4] and [3,4,1,2] for 0°, 90°, 180° and 270° |
| OrientationCibles.CorrespondUnique | src/core/lecture/preparation/reorientation/orientationCiblesConcentriques.ts:8-46 | each column of the table is a permutation, so a ring count seen in a corner matches at most one rotation |
| OrientationCibles.PremiereDuCoin | src/core/lecture/preparation/reorientation/orientationCiblesConcentriques.ts:24-40 | the detection looked up for a corner is present in the input and belongs to that corner; none is found only when no non-null detection has that corner |
| OrientationCibles.FindUniques | src/core/lecture/preparation/reorientation/orientationCiblesConcentriques.ts:24-40 | after de-duplication, looking up a corner not yet seen finds its first detection in input order, so nulls are skipped and later duplicates are ignored |
| OrientationCibles.OrientationCiblesConcentriques | src/core/lecture/preparation/reorientation/orientationCiblesConcentriques.ts:21-59 | the two loops return exactly the reference orientation: corners 4, 3, 1, 0 in turn, each corner's match compared with the most recent earlier match |
| OrientationCibles.RotationDe | src/core/lecture/preparation/reorientation/orientationCiblesConcentriques.ts:44-46 | a corner's ring count matches rotation i exactly when this returns i |
| OrientationCibles.BalayerUnique | src/core/lecture/preparation/reorientation/orientationCiblesConcentriques.ts:44-55 | scanning the four rotations for one corner either confirms the rotation its ring count matches, when the previous corner matched the same one, or records that rotation; with no match the previous rotation is kept |
| OrientationCibles.ConsensusJustifie | src/core/lecture/preparation/reorientation/orientationCiblesConcentriques.ts:36-58 | the answer is −1 or a multiple of 90 in 0..270 that at least two corners support, the previous match counting as one |
| OrientationCibles.OrientationJustifiee | src/core/lecture/preparation/reorientation/orientationCiblesConcentriques.ts:21-58 | the answer is one of −1, 0, 90, 180, 270; a rotation is only returned when at least two consulted corners match it, so one match never suffices |
| OrientationCibles.AuPlusUneCorrespondance | src/core/lecture/preparation/reorientation/orientationCiblesConcentriques.ts:39-55 | a single detection supports any rotation from one corner at most |
| OrientationCibles.UneSeuleCible | src/core/lecture/preparation/reorientation/orientationCiblesConcentriques.ts:47-58 | with at most one detection the answer is −1 |
| OrientationCibles.DeuxCiblesFiables | src/core/lecture/preparation/reorientation/orientationCiblesConcentriques.ts:39-49 | when corners 3 and then 1 both match rotation i, the answer is i·90 |
| OrientationCibles.CoinBGIgnore | src/core/lecture/preparation/reorientation/orientationCiblesConcentriques.ts:39-41 | corner 2 (bottom-left) is never consulted: inputs that differ only there get the same answer |
| OrientationCibles.DetectionsArrangement | src/core/lecture/preparation/reorientation/orientationCiblesConcentriques.ts:8-13 | the detections of a sheet needing rotation i·90: four, one per corner, with the ring counts of row i of the table |
| OrientationCibles.ArrangementReconnu | src/core/lecture/preparation/reorientation/orientationCiblesConcentriques.ts:8-56 | each row of the table is recognised as its own rotation; unrotated detections (4, 2, 3, 1 at corners 0..3) give 0 |
| RemapCibles.Antecedent | src/core/lecture/preparation/reorientation/remapperCiblesConcentriques.ts:26-40 | under a permutation of the corners every slot is reached, from one corner |
| RemapCibles.Decalage | src/core/lecture/preparation/reorientation/remapperCiblesConcentriques.ts:26-35 | the map corner c ↦ (c+k) mod 4 is a permutation of the four corners |
| RemapCibles.Composer | src/core/lecture/preparation/reorientation/remapperCiblesConcentriques.ts:26-40 | composing two corner maps is a corner map |
| RemapCibles.Placer | src/core/lecture/preparation/reorientation/remapperCiblesConcentriques.ts:40 | one turn of the loop keeps four slots |
| RemapCibles.Remappe | src/core/lecture/preparation/reorientation/remapperCiblesConcentriques.ts:20-41 | the result has exactly four slots, and a detection stored in slot s has its coin field set to s |
| RemapCibles.Dernier | src/core/lecture/preparation/reorientation/remapperCiblesConcentriques.ts:22-41 | reference reading of a slot: empty exactly when no non-null detection is sent to it; otherwise it holds an input detection sent there |
| RemapCibles.RemappeDernier | src/core/lecture/preparation/reorientation/remapperCiblesConcentriques.ts:20-41 | slot s holds the last detection sent to s, with only its coin changed (id, rings, centre and radius are copied, so the centre is not re-expressed), or stays null when none is sent there |
| RemapCibles.DernierGagne | src/core/lecture/preparation/reorientation/remapperCiblesConcentriques.ts:40 | when several detections are sent to one slot, the last in input order overwrites the earlier ones |
| RemapCibles.DernierCanonique | src/core/lecture/preparation/reorientation/remapperCiblesConcentriques.ts:40 | remapping slots whose detections already sit in their own corner moves slot t to slot q[t] |
| RemapCibles.RemappeCompose | src/core/lecture/preparation/reorientation/remapperCiblesConcentriques.ts:20-41 | remapping twice, the second time by a permutation, equals remapping once by the composed map |
| RemapCibles.DecalageCompose | src/core/lecture/preparation/reorientation/remapperCiblesConcentriques.ts:26-35 | shifting corners by a, then by b, is shifting by a+b |
| RemapCibles.AllerRetour | src/core/lecture/preparation/reorientation/remapperCiblesConcentriques.ts:26-40 | with distinct corners, remapping by 90·k and then by 90·(4−k) (90 then 270 among them) returns each detection to its own corner, unchanged |
| RemapCibles.SansDoublon | src/core/lecture/preparation/reorientation/remapperCiblesConcentriques.ts:26-40 | with distinct corners and a permutation, each detection lands in the slot its corner is sent to, changed only in its coin field |
| RemapCibles.TourComplet | src/core/lecture/preparation/reorientation/remapperCiblesConcentriques.ts:26-40 | four quarter turns return each detection of distinct-corner input to its own corner, unchanged |
| RemapCibles.Repartir | src/core/lecture/preparation/reorientation/remapperCiblesConcentriques.ts:20-41 | the loop over the input, writing into four slots that start null, yields the reference slots |
| RemapCibles.RemapperCiblesConcentriques | src/core/lecture/preparation/reorientation/remapperCiblesConcentriques.ts:10-44 | a non-multiple of 90 fails with ErreurAlignement; an angle that normalises to 0 (−360, 360 …) returns the input itself; any other multiple 90·k, negative ones included (−90 acts as 270), returns four slots with corner c moved to (c+k) mod 4 |
| RemapCibles.Rotation | src/core/lecture/preparation/reorientation/orientationCiblesConcentriques.ts:8-13 | the corner map a quarter-turn rotation calls for under the numbering HG 0, HD 1, BG 2, BD 3 is a permutation |
| RemapCibles.RemapperCorrige | src/core/lecture/preparation/reorientation/remapperCiblesConcentriques.ts:10-44 | as the code, except that each corner goes where the rotation of row k of the arrangement table puts it |
| RemapCibles.RemappeArrangement | src/core/lecture/preparation/reorientation/remapperCiblesConcentriques.ts:26-40 | the four targets of a rotated sheet each move to the slot the map gives their corner |
| RemapCibles.CorrigeReoriente | src/core/lecture/preparation/reorientation/remapperCiblesConcentriques.ts:26-40 | under the corrected map, the targets of a sheet needing rotation 90·k are recognised as 90·k before and as upright (0) after remapping |
| RemapCibles.DecalageNeReorientePas | src/core/lecture/preparation/reorientation/remapperCiblesConcentriques.ts:26-29 | under the shift the code applies, the targets of a sheet needing 90° are recognised as 90 before remapping but read as −1, not 0, afterwards |
| RemapCibles.AnneauxQuartDeTour | src/core/lecture/preparation/reorientation/orientationCiblesConcentriques.ts:8-13 | on a sheet needing a quarter turn, corners 0, 2 and 3 show ring counts 2, 4 and 3 |
| RemapCibles.PremiereDuSlot | src/core/lecture/preparation/reorientation/orientationCiblesConcentriques.ts:40 | when slot s holds corner s + d, the first detection of corner c + d is the one in slot c |
| RemapCibles.CoinsDiscordants | src/core/lecture/preparation/reorientation/orientationCiblesConcentriques.ts:39-58 | ring counts 4, 2, 3 in corners 3, 1, 0 match rotations that no two consecutive corners share, so the answer is −1 |
| RemapDetections.TournerDetection | src/lecture/preparation/remapperDetections.ts:22-47 | a turned detection keeps its id, hamming and margin and its number of corners; its centre and each corner are turned by the same quarter turn: 90° (x,y) ↦ (height−y, x), 180° (width−x, height−y), 270° (y, width−x) |
| RemapDetections.RemapperDetections | src/lecture/preparation/remapperDetections.ts:12-49 | the result is an ErreurAlignement exactly when the orientation is not a multiple of 90; an angle normalising to 0 returns the input unchanged; otherwise the output has the input's length and order, each detection turned by (orientation mod 360)/90 quarters |
| RemapDetections.DemiTourInvolution | src/lecture/preparation/remapperDetections.ts:31-33 | turning by 180° twice with the same width and height restores every detection |
| RemapDetections.QuartsInverses | src/lecture/preparation/remapperDetections.ts:27-37 | turning by 90° with height h, then by 270° with width h, restores every detection |
| RemapDetections.AnglesNegatifs | src/lecture/preparation/remapperDetections.ts:17 | negative angles are read modulo 360: −270 acts as 90 and −90 as 270 |
| AprilTags.AnnulerAppliquer | src/core/lecture/preparation/detecterAprilTags.ts:80-103 | each step of the remapper undoes its image operation: the point and the image size it was applied to come back |
| AprilTags.AllerRetour | src/core/lecture/preparation/detecterAprilTags.ts:62-108 | undoing the whole list of operations, last first, restores every point of the original image |
| AprilTags.CopieTransposee | src/core/lecture/preparation/detecterAprilTags.ts:27-30 | with the flip set, pixel (x, y) of a W×H scan is seen at (y, x) in the H×W copy handed to the detector |
| AprilTags.RemapPoint | src/core/lecture/preparation/detecterAprilTags.ts:62-108 | the remapper returns the point with every operation undone from the last to the first; with no operation it returns a copy of the point |
| AprilTags.RemapRetrouveLePixel | src/core/lecture/preparation/detecterAprilTags.ts:27-40 | a pixel of the scan, detected in the flipped and turned copy, is mapped back to its own coordinates |
| AprilTags.Corrigee | src/core/lecture/preparation/detecterAprilTags.ts:41-45 | a corrected detection keeps its id, hamming, margin and number of corners |
| AprilTags.RemapCorners | src/core/lecture/preparation/detecterAprilTags.ts:44 | each corner goes through the remapper, in order, and none is added or dropped |
| AprilTags.CorrigerDetections | src/core/lecture/preparation/detecterAprilTags.ts:38-57 | two detections or fewer fail with ErreurDetectionAprilTags; otherwise every detection is returned in order with its centre and corners mapped back into the scan's frame |
| OrientationAprilTags.Coins | src/core/lecture/preparation/reorientation/orientationAprilTags.ts:27-32 | four corners, in the order HG, HD, BG, BD |
| OrientationAprilTags.Indice | src/core/lecture/preparation/reorientation/orientationAprilTags.ts:39-49 | the detection a corner's scan ends on is nearest that corner, and every earlier detection is strictly farther, so ties keep the first |
| OrientationAprilTags.TagsParCoin | src/core/lecture/preparation/reorientation/orientationAprilTags.ts:34-50 | with no detection the slots stay empty; otherwise each of the four corners holds its nearest tag with that distance |
| OrientationAprilTags.Ecrire | src/core/lecture/preparation/reorientation/orientationAprilTags.ts:47 | writing index i of a JavaScript array sets that entry, grows the array only when i is its length, and leaves the other entries alone |
| OrientationAprilTags.PlusProcheDuCoin | src/core/lecture/preparation/reorientation/orientationAprilTags.ts:39-49 | the inner loop leaves the slots untouched without detections and otherwise appends the corner's nearest tag |
| OrientationAprilTags.TagsLesPlusProches | src/core/lecture/preparation/reorientation/orientationAprilTags.ts:34-50 | the corner loop yields the reference slots |
| OrientationAprilTags.Dedoublonne | src/core/lecture/preparation/reorientation/orientationAprilTags.ts:52-69 | de-duplication keeps the slots' number; a slot is kept exactly when its tag is strictly nearer than every earlier slot with the id and no farther than every later one, and is nulled otherwise |
| OrientationAprilTags.Elimine | src/core/lecture/preparation/reorientation/orientationAprilTags.ts:58-66 | a slot knocked out by the comparisons so far has an earlier slot with the same id at least as near |
| OrientationAprilTags.SurvitPas | src/core/lecture/preparation/reorientation/orientationAprilTags.ts:58-66 | comparing with one more earlier slot adds exactly that slot's condition to a later slot's survival |
| OrientationAprilTags.ElimineSansEffet | src/core/lecture/preparation/reorientation/orientationAprilTags.ts:54-55 | a slot already nulled is not kept, and comparing with it removes no later slot |
| OrientationAprilTags.GardeSurvivant | src/core/lecture/preparation/reorientation/orientationAprilTags.ts:58-66 | a slot still set is kept exactly when every later surviving slot with its id is at least as far |
| OrientationAprilTags.ComparerSuivants | src/core/lecture/preparation/reorientation/orientationAprilTags.ts:58-68 | the inner de-duplication loop settles slot i and applies slot i's comparison to every later slot |
| OrientationAprilTags.Dedoublonner | src/core/lecture/preparation/reorientation/orientationAprilTags.ts:53-69 | the de-duplication loop yields the reference de-duplicated slots |
| OrientationAprilTags.DedoublonneSansDoublon | src/core/lecture/preparation/reorientation/orientationAprilTags.ts:52-69 | after de-duplication no tag id is held by two corners |
| OrientationAprilTags.PremierMinimum | src/core/lecture/preparation/reorientation/orientationAprilTags.ts:58-66 | among the first n slots holding an id there is a first nearest one: strictly nearer than the earlier ones, no farther than the later ones |
| OrientationAprilTags.DedoublonneConserve | src/core/lecture/preparation/reorientation/orientationAprilTags.ts:52-69 | every tag id found at some corner survives at exactly one corner, the nearest, the first on ties |
| OrientationAprilTags.Arrangement | src/core/lecture/preparation/reorientation/orientationAprilTags.ts:8-13 | each row of the arrangement table names one expected id per corner |
| OrientationAprilTags.TrouveeAvant | src/core/lecture/preparation/reorientation/orientationAprilTags.ts:73-88 | the rotation found among the first o is the highest one that some corner matches, and none is found exactly when no corner matches any of them |
| OrientationAprilTags.ChercherArrangement | src/core/lecture/preparation/reorientation/orientationAprilTags.ts:73-88 | the arrangement loop yields the reference rotation: the `break` on a second match only leaves the corner loop, so a later rotation with one match still overrides |
| OrientationAprilTags.OrdreTags | src/core/lecture/preparation/reorientation/orientationAprilTags.ts:94-98 | entry k is the upright arrangement's id k exactly when some corner holds that id, and null otherwise |
| OrientationAprilTags.OrientationAprilTags | src/core/lecture/preparation/reorientation/orientationAprilTags.ts:21-101 | the nearest tag per corner, de-duplicated, matched against the four arrangements: no matching rotation is an ErreurAlignement; otherwise the rotation times 90 and the tag order |
| OrientationAprilTags.OrientationQuartDeTour | src/core/lecture/preparation/reorientation/orientationAprilTags.ts:73-100 | the angle returned is one of 0, 90, 180, 270, and without any detection no rotation matches |
| OrientationAprilTags.UneSeuleDetection | src/core/lecture/preparation/reorientation/orientationAprilTags.ts:34-50 | a single detection is the nearest tag of all four corners |
| ObtenirOrientation.ChercherArrangement | src/lecture/preparation/obtenirOrientation.ts:58-69 | the arrangement loop without a `break`: every matching corner records its rotation, so the highest rotation with a match is kept |
| ObtenirOrientation.ObtenirOrientation | src/lecture/preparation/obtenirOrientation.ts:21-78 | the nearest tag of each corner, with no de-duplication, matched against the four arrangements; no match is an ErreurAlignement, otherwise the result is the rotation index, below 4, and not an angle |
| ObtenirOrientation.UnSeulTagDonneTrois | src/lecture/preparation/obtenirOrientation.ts:34-69 | without de-duplication a single detection of an expected tag serves all four corners, so row 3 always matches and index 3 is returned wherever the tag lies |
| Realignement.PositionCibleDansModele | src/core/lecture/preparation/realignerCorrigerScan.ts:131-147 | corner ids 0..3 give (m, m), (W−m, m), (m, H−m) and (W−m, H−m) with m = margin + diameter/2; any other id is an ErreurRealignement quoting it |
| Realignement.PositionConcordeAvecGeneration | src/core/lecture/preparation/realignerCorrigerScan.ts:131-146 | with equal size and margin, the centre the generator prints (src/core/generation/common/genererCiblesConcentriques.ts:17-22, 34-35), on a page of the format's size in points and converted back to mm, is the reader's theoretical position |
| Realignement.SortieW | src/core/lecture/preparation/realignerCorrigerScan.ts:40-41 | the output width is the A4 ratio 210/297 times the height, rounded to the nearest integer |
| Realignement.MmToPixels | src/core/lecture/preparation/realignerCorrigerScan.ts:44-48 | each axis is scaled on its own: 210 mm of width become sortieW pixels and 297 mm of height sortieH pixels, in proportion |
| Realignement.MmToPixelsFormat | src/core/lecture/preparation/realignerCorrigerScan.ts:44-48 | mmToPixels sends the origin to the origin and the format's far corner (210, 297) to the output size |
| Realignement.Sources | src/core/lecture/preparation/realignerCorrigerScan.ts:60-79 | four source slots; slot i holds the centre of detection i when it is present, and stays null otherwise |
| Realignement.Destinations | src/core/lecture/preparation/realignerCorrigerScan.ts:61-72 | four destination slots; each slot the loop visits gets the model position in pixels, whether or not its target was detected |
| Realignement.ReleverPoints | src/core/lecture/preparation/realignerCorrigerScan.ts:60-79 | the anchor loop yields those source and destination slots; a fifth detection slot is an invalid corner id |
| Realignement.NonNuls | src/core/lecture/preparation/realignerCorrigerScan.ts:82-83 | the filter keeps no more points than slots |
| Realignement.NonNulsElements | src/core/lecture/preparation/realignerCorrigerScan.ts:82-83 | a point survives the filter exactly when some slot holds it |
| Realignement.NonNulsTous | src/core/lecture/preparation/realignerCorrigerScan.ts:82-83 | with every slot set, the filter keeps every point in slot order |
| Realignement.NonNulsCroissant | src/core/lecture/preparation/realignerCorrigerScan.ts:82-83 | fewer set slots, slot by slot, give no more filtered points |
| Realignement.NonNulsPrefixe | src/core/lecture/preparation/realignerCorrigerScan.ts:82-83 | when exactly the first n slots are set, the filter keeps n points |
| Realignement.NonNulsMoinsUn | src/core/lecture/preparation/realignerCorrigerScan.ts:82-83 | a slot list with an empty slot keeps fewer points than slots |
| Realignement.Min | src/core/lecture/preparation/realignerCorrigerScan.ts:92 | Math.min over a non-empty list: no larger than any element, and equal to one of them |
| Realignement.Max | src/core/lecture/preparation/realignerCorrigerScan.ts:93 | Math.max over a non-empty list: no smaller than any element, and equal to one of them |
| Realignement.Xs | src/core/lecture/preparation/realignerCorrigerScan.ts:91 | the x coordinates of the destination points, one per point, in order |
| Realignement.Ys | src/core/lecture/preparation/realignerCorrigerScan.ts:91 | the y coordinates of the destination points, one per point, in order |
| Realignement.Ancrer | src/core/lecture/preparation/realignerCorrigerScan.ts:95 | each destination point is moved by the smallest x and the smallest y |
| Realignement.AncrageOrigine | src/core/lecture/preparation/realignerCorrigerScan.ts:90-95 | after anchoring every point has non-negative coordinates, and the minimum x and the minimum y are both 0 |
| Realignement.Cibles | src/core/lecture/preparation/realignerCorrigerScan.ts:66-71 | the model positions of the four corners in pixels, one per corner |
| Realignement.CiblesDestinations | src/core/lecture/preparation/realignerCorrigerScan.ts:70-71 | the four model positions in pixels are the destinations of the four slots, in corner order |
| Realignement.Ancrage | src/core/lecture/preparation/realignerCorrigerScan.ts:91-99 | the warp gets the source points as they are and the anchored destination points, and its size is the rounded extent of the destination points |
| Realignement.RealignerCorrigerScan | src/core/lecture/preparation/realignerCorrigerScan.ts:22-125 | a fifth slot is an invalid corner id; fewer than 3 detected targets is an ErreurRealignement quoting the count; exactly 3 is the unimplemented affine case, also an error with no image; 4 gives the anchors in slot order and the warp size |
| Realignement.ToutesLesDestinations | src/core/lecture/preparation/realignerCorrigerScan.ts:66-83 | with four detected targets there are four slots, and the destinations are the four model positions in corner order |
| Realignement.QuatreCiblesPourLaPerspective | src/core/lecture/preparation/realignerCorrigerScan.ts:82-107 | only four detected targets reach the perspective warp, and then source anchor k is the centre of the target in slot k |
| CadreEtudiantBenchmark.OrigineGroupe | src/core/generation/bordereau/modules/cadre-etudiant/CadreEtudiantBenchmarkModule.ts:25-26 | a letter group's row of boxes starts in one of two columns, x 40 or 307, and at y 90 or lower on the page |
| CadreEtudiantBenchmark.Cellule | src/core/generation/bordereau/modules/cadre-etudiant/CadreEtudiantBenchmarkModule.ts:28-34 | box j of group i is 22 × 26 pt, placed j·25 pt along its group's row |
| CadreEtudiantBenchmark.GetLayoutPositions | src/core/generation/bordereau/modules/cadre-etudiant/CadreEtudiantBenchmarkModule.ts:20-42 | the layout holds 10 boxes per alphabet letter, box i·10+j being box j of group i, and no épreuve-code boxes |
| CadreEtudiantBenchmark.GroupesDisjoints | src/core/generation/bordereau/modules/cadre-etudiant/CadreEtudiantBenchmarkModule.ts:25-34 | boxes of two different letter groups never meet |
| CadreEtudiantBenchmark.CellulesDisjointes | src/core/generation/bordereau/modules/cadre-etudiant/CadreEtudiantBenchmarkModule.ts:30-33 | boxes of one group never meet |
| CadreEtudiantBenchmark.LayoutDisjoint | src/core/generation/bordereau/modules/cadre-etudiant/CadreEtudiantBenchmarkModule.ts:20-42 | any two different boxes of the layout are disjoint |
| CadreEtudiantBenchmark.IndiceLettreBijectif | src/core/generation/bordereau/modules/cadre-etudiant/CadreEtudiantBenchmarkModule.ts:57-59 | the label index (i mod 2)·ceil(n/2) + floor(i/2) is below n and has an inverse, so each letter of the alphabet labels exactly one group |
| CadreEtudiantBenchmark.Generer | src/core/generation/bordereau/modules/cadre-etudiant/CadreEtudiantBenchmarkModule.ts:44-65 | the frame of every layout box in order, then for each group its label letter 5 pt right of and 15 pt above its first box; the result is always true |
| DecoupeROIs.PaddingMm | src/core/lecture/preparation/decouperROIs.ts:57 | without a padding option the padding is −0.05 mm, a slight inset; a given padding is used as it is |
| DecoupeROIs.RetraitDemiMillimetre | src/core/lecture/preparation/decouperROIs.ts:34-66 | converted back to mm of the page, the raw pixel rectangle is the drawn frame shrunk by 0.5 mm on each side |
| DecoupeROIs.Intervalle | src/core/lecture/preparation/decouperROIs.ts:73-78 | one axis of the crop starts at the floor of the padded start, clamped at 0; its length is at least 1; while the clamped interval is not empty the crop ends inside the image and reaches the ceiling of the padded end; otherwise the length is 1 |
| DecoupeROIs.Decoupe | src/core/lecture/preparation/decouperROIs.ts:69-80 | a crop never starts before the image's top-left corner and is at least 1 × 1 pixel |
| DecoupeROIs.DecoupeCouvre | src/core/lecture/preparation/decouperROIs.ts:73-78 | a crop that is not degenerate lies inside the image and covers the padded zone wherever that zone lies inside the image |
| DecoupeROIs.Rectangles | src/core/lecture/preparation/decouperROIs.ts:58-79 | one crop per zone, in zone order, each the padded, clamped pixel rectangle of its zone |
| DecoupeROIs.DecoupeHorsImage | src/core/lecture/preparation/decouperROIs.ts:73-81 | the clamped crop makes Mat.roi throw exactly when the zone starts at or past the image's right or bottom edge; otherwise Mat.roi accepts it |
| DecoupeROIs.AppelsForme | src/core/lecture/preparation/decouperROIs.ts:58-87 | the calls made are those of the zones from k on, in order, each with its crop and index and each crop accepted; every call but the last resolved; a normal end made every call and all resolved; an error is the exception of the next crop or the rejection of the last call |
| DecoupeROIs.AppelsOk | src/core/lecture/preparation/decouperROIs.ts:58-87 | the loop ends normally exactly when every crop is accepted and every onDecoupe call resolves |
| DecoupeROIs.Boucle | src/core/lecture/preparation/decouperROIs.ts:58-87 | the loop, crop then awaited call, zone after zone, stopping at the first exception or rejection, gives the calls and outcome of the reference loop |
| DecoupeROIs.ToutesLesZones | src/core/lecture/preparation/decouperROIs.ts:58-87 | when every crop lies inside the image and every call resolves, decouperROIs resolves after exactly one call per zone, in order, with its crop and index |
| DecoupeROIs.DecouperROIs | src/core/lecture/preparation/decouperROIs.ts:20-88 | the crops are those of the zones in order; the loop ends as the reference loop does: Mat.roi's exception at the first crop outside the image, or the rejection of an onDecoupe call, or normally after one call per zone |
| DecoupeROIsLegacy.ExtractionDansLeCadre | src/lecture/preparation/decouperROIs.ts:52-58 | flooring position and size starts the crop within a pixel of the raw rectangle, and ends it inside that rectangle, less than two pixels short of its right and bottom edges |
| DecoupeROIsLegacy.DecouperROIs | src/lecture/preparation/decouperROIs.ts:27-61 | the floored rectangles of the zones, margin + 7/9 of the tag size, nothing clamped, are taken in order; the loop ends as the reference loop does: sharp's extract error at the first rectangle with a negative part, the rejection of a callback, or normally after one call per zone |
| DecoupeROIsLegacy.RefusExtract | src/lecture/preparation/decouperROIs.ts:58 | extract accepts a rectangle exactly when left, top, width and height are all non-negative; otherwise it throws sharp's "Expected integer for <name> but received <value> of type number" for the first negative one, in the order left, top, width, height |
| DecoupeROIsLegacy.ExtractionAcceptee | src/lecture/preparation/decouperROIs.ts:54-58 | a zone with non-negative position and size, once floored, is extracted without error; one starting left of the image makes extract throw on "left" with the floored value |
| DecoupeROIsLegacy.RectanglesLegacy | src/lecture/preparation/decouperROIs.ts:48-58 | one floored rectangle per zone, in zone order |
| DecoupeROIsLegacy.MemeDebutSansPadding | src/lecture/preparation/decouperROIs.ts:58 | with no padding, the legacy and the current cropper start at the same pixel whenever the zone starts inside the image |
| ConversionPdf.PlusGrande | src/core/lecture/preparation/conversion/pdfToBuffer.ts:27-48 | the image chosen among the first n operators paints a byte array of numeric size and positive area, strictly larger than every earlier candidate and at least as large as every later one, so the first of equal largest images wins; none is chosen only when no candidate has a positive area |
| ConversionPdf.ChoisirImage | src/core/lecture/preparation/conversion/pdfToBuffer.ts:28-48 | the selection loop, tracking the largest area so far from 0 and replacing it only on a strictly larger one, yields the name of the chosen image |
| ConversionPdf.Bit | src/core/lecture/preparation/conversion/pdfToBuffer.ts:74 | `(byte >> (7 − bit)) & 1` is 0 or 1 |
| ConversionPdf.Gris | src/core/lecture/preparation/conversion/pdfToBuffer.ts:75 | a bit becomes grey value 0 or 255 |
| ConversionPdf.Decompacte | src/core/lecture/preparation/conversion/pdfToBuffer.ts:70-77 | the unpacked buffer has width × height bytes; pixel k is bit k mod 8 of byte k/8 of the stream, most significant bit first, and 0 past the data |
| ConversionPdf.Decompacter | src/core/lecture/preparation/conversion/pdfToBuffer.ts:69-77 | the unpack loop over a zeroed buffer, with writes past the end dropped as typed arrays drop them, yields that reference unpack |
| ConversionPdf.DecompacteBinaire | src/core/lecture/preparation/conversion/pdfToBuffer.ts:70-77 | every unpacked byte is black (0) or white (255) |
| ConversionPdf.Canaux | src/core/lecture/preparation/conversion/pdfToBuffer.ts:62 | kind 1 gives 1 channel, kind 2 gives 3, any other kind 4 |
| ConversionPdf.Extraction | src/core/lecture/preparation/conversion/pdfToBuffer.ts:15-95 | a page number outside 1..numPages is exactly the ErreurConversion case, raised before any page is read; a page with no image of positive area, or whose chosen name is empty and so falsy, is an ErreurPdfIncompatible; otherwise the chosen image's size and channel count, raw data, debug exactly for page 1, and for a grey image width × height bytes each 0 or 255 |
| ConversionPdf.PdfToBuffer | src/core/lecture/preparation/conversion/pdfToBuffer.ts:15-95 | the page check, the selection loop and the unpack loop together yield that extraction |
| ConversionPdf.Echantillon | src/core/lecture/preparation/conversion/pdfToBuffer.ts:64-77 | reference unpack (ISO 32000-1, section 8.9.3): the pixel at column x of row y is bit x mod 8 of byte x/8 of its row, each row starting on a byte boundary; it is 0 or 255 |
| ConversionPdf.Rangee | src/core/lecture/preparation/conversion/pdfToBuffer.ts:64-77 | an unpacked row has one byte per pixel |
| ConversionPdf.DecompacteLignes | src/core/lecture/preparation/conversion/pdfToBuffer.ts:64-77 | the row-aware unpack has width × height bytes |
| ConversionPdf.DecompacteLignesPixel | src/core/lecture/preparation/conversion/pdfToBuffer.ts:64-77 | pixel (x, y) of the row-aware unpack is read from row y's own bytes |
| ConversionPdf.DecompacterLignes | src/core/lecture/preparation/conversion/pdfToBuffer.ts:64-77 | the row-by-row loop yields the row-aware unpack |
| ConversionPdf.DecompacterRangee | src/core/lecture/preparation/conversion/pdfToBuffer.ts:73-76 | in the corrected unpack, the loop over one row's pixels yields that row's samples, each 0 or 255 and read from the row's own bytes |
| ConversionPdf.SansRemplissage | src/core/lecture/preparation/conversion/pdfToBuffer.ts:70-77 | when the width is a multiple of 8 there is no row padding, and the linear unpack equals the row-aware one |
| ConversionPdf.RemplissageIgnore | src/core/lecture/preparation/conversion/pdfToBuffer.ts:71-76 | on a 3 × 2 image, given as bytes 0x00 and 0xE0 (row 0 all bits clear, row 1 all bits set), the linear unpack reads pixel (0, 1) from row 0's padding bits and gets 0 instead of 255 |
| ConversionCanvas.LongueurRgba | src/lecture/preparation/conversion/pdfToCanvas.ts:68 | the RGBA buffer has 4/3 the input's length, truncated to an integer as a typed array truncates a fractional length |
| ConversionCanvas.Rgba | src/lecture/preparation/conversion/pdfToCanvas.ts:68-75 | the RGBA buffer has that length |
| ConversionCanvas.RgbaPixel | src/lecture/preparation/conversion/pdfToCanvas.ts:70-75 | every colour byte of every whole RGB pixel is copied to its place in the RGBA pixel, and its alpha byte is 255 |
| ConversionCanvas.VersRgba | src/lecture/preparation/conversion/pdfToCanvas.ts:68-75 | the widening loop yields the reference buffer: reads past the input give undefined, stored as 0, and writes past the output are dropped |
| ConversionCanvas.EtapeRgba | src/lecture/preparation/conversion/pdfToCanvas.ts:70-74 | one pass of the loop extends the part of the buffer already equal to the reference by the four bytes of the next pixel |
| ConversionCanvas.Dessin | src/lecture/preparation/conversion/pdfToCanvas.ts:27-87 | the page check and the selection are pdfToBuffer's, with only Uint8ClampedArray data qualifying; the canvas has the chosen image's size and its RGBA pixels |
| ConversionCanvas.PdfToCanvas | src/lecture/preparation/conversion/pdfToCanvas.ts:27-87 | the page check, the selection loop, the second image check and the widening loop together yield that canvas |
| ConversionCanvas.MemeSelection | src/lecture/preparation/conversion/pdfToCanvas.ts:41-56 | on a page whose byte-array images are all clamped, the legacy reader and pdfToBuffer choose the same image |
| ConversionCanvas.MemeSelectionAvant | src/lecture/preparation/conversion/pdfToCanvas.ts:41-56 | the same agreement over the first n operators |
| ExtraireScans.NbPages | src/core/lecture/preparation/extraireScans.ts:25 | the page count never exceeds the PDF's; with no limit it is the PDF's, and with a limit it is the smaller of the two |
| ExtraireScans.Resultats | src/core/lecture/preparation/extraireScans.ts:28-30 | there is one pdfToBuffer outcome per page |
| ExtraireScans.PagesForme | src/core/lecture/preparation/extraireScans.ts:28-31 | call i carries page i + 1's scan and every call but the last resolved; success only after all n pages and calls; an error is the last call's rejection or else the failure of the page after the calls |
| ExtraireScans.PagesSansErreur | src/core/lecture/preparation/extraireScans.ts:28-31 | the page loop ends without error exactly when every page among 1..n is extracted and every onScanExtrait call resolves |
| ExtraireScans.PagesDansLOrdre | src/core/lecture/preparation/extraireScans.ts:28-31 | when no page fails and no call rejects, there are n callback calls, and call i carries what page i + 1 gave |
| ExtraireScans.ErreurDefinitive | src/core/lecture/preparation/extraireScans.ts:28-31 | once the loop has stopped on a failed page or a rejected call, further pages change neither the calls nor the outcome |
| ExtraireScans.ArretALaPremiereErreur | src/core/lecture/preparation/extraireScans.ts:28-31 | when page p is the first to fail and the calls before it resolved, its error is the outcome and only pages 1..p − 1 reached the callback, in order |
| ExtraireScans.ArretAuPremierRejet | src/core/lecture/preparation/extraireScans.ts:28-31 | when the call for page p is the first to reject, that rejection is the outcome, pages 1..p reached the callback in order and later pages are not read |
| ExtraireScans.JamaisHorsPlage | src/core/lecture/preparation/extraireScans.ts:25-30 | no page within the count makes pdfToBuffer reject its number as out of range, so that error can end the loop only as the callback's own rejection |
| ExtraireScans.ExtrairePages | src/core/lecture/preparation/extraireScans.ts:28-31 | the page loop, awaiting each page and then its callback before the next, yields exactly the calls and outcome of that reference, stopping at the first failed page or rejected call |
| ExtraireScans.ExtraireScansDocument | src/core/lecture/preparation/extraireScans.ts:21-45 | the switch on the MIME type yields the reference extraction: the PDF pages, or the one image and its callback's outcome, or the unsupported-type error |
| ExtraireScans.AucunePage | src/core/lecture/preparation/extraireScans.ts:25-28 | a limit of 0 or below reads no page and succeeds |
| ExtraireScans.ToutesLesPages | src/core/lecture/preparation/extraireScans.ts:25-31 | with no limit, no failing page and no rejected call, the callback gets one call per page of the PDF, call i with page i + 1's extraction |
| ExtraireScans.UneImageUnAppel | src/core/lecture/preparation/extraireScans.ts:34-41 | a JPEG, PNG or TIFF with valid metadata makes exactly one call, with the scan data and the document's own bytes, and a rejection of that call is the outcome; invalid metadata makes no call and is the outcome; success exactly when both go through |
| ExtraireScans.TypeNonSupporte | src/core/lecture/preparation/extraireScans.ts:43-44 | any other MIME type is an ErreurDocumentSource naming that type, and makes no call |
| ImgToBuffer.ImgToBuffer | src/core/lecture/preparation/conversion/imgToBuffer.ts:9-23 | missing or zero width, height or channel count, and only that, gives ErreurDocumentSource with the metadata message; otherwise the scan has the image's size and channel count, is in debug mode and is not raw |
| ImgToBuffer.DeuxCanauxAcceptes | src/core/lecture/preparation/conversion/imgToBuffer.ts:18 | the cast to 1, 3 or 4 channels is not checked: a two-channel image goes through with 2 channels |
| TensorFlowCNN.GetTopProbability | src/core/lecture/CNN/TensorFlowCNN.ts:155-167 | the index is that of a maximum probability, and the first such, since every earlier value is strictly smaller; the value is that probability; an empty input gives index 0 and minus infinity |
| TensorFlowCNN.IndexToChar | src/core/lecture/CNN/TensorFlowCNN.ts:169-175 | classes 0..25 are the letters A..Z in order; any other index is '?' |
| TensorFlowCNN.IndexToCharInjective | src/core/lecture/CNN/TensorFlowCNN.ts:169-175 | two classes with the same letter are the same class |
| TensorFlowCNN.ClasseJamaisInconnue | src/core/lecture/CNN/TensorFlowCNN.ts:169-175 | no class from 0 to 25 is read as '?' |
| TensorFlowCNN.Resultat | src/core/lecture/CNN/TensorFlowCNN.ts:61-69 | the result keeps every probability, predicts a most probable class with its probability as the confidence, and names that class's letter; an empty output predicts 'A' with confidence minus infinity |
| TensorFlowCNN.ToTensor3D | src/core/lecture/CNN/TensorFlowCNN.ts:131-153 | a rank-3 tensor keeps its values; a rank-4 tensor keeps its values and drops its batch dimension; bytes give what the decoder gives; it fails exactly on another source, or on a tensor that is neither rank 3 nor rank 4 with batch 1, with the batch or the source message in those cases |
| TensorFlowCNN.Moyenne | src/core/lecture/CNN/TensorFlowCNN.ts:115 | the mean of a one-channel pixel is its value |
| TensorFlowCNN.MoyenneConstante | src/core/lecture/CNN/TensorFlowCNN.ts:115 | the mean of equal channels is their common value: grey pixels are unchanged by the grey step |
| TensorFlowCNN.SommeConstante | src/core/lecture/CNN/TensorFlowCNN.ts:115 | the channels of a grey pixel sum to the count times the value |
| TensorFlowCNN.NiveauxDeGris | src/core/lecture/CNN/TensorFlowCNN.ts:115 | the grey image has the input's rows and columns; with one channel, each pixel is the input's own value |
| TensorFlowCNN.Normaliser | src/core/lecture/CNN/TensorFlowCNN.ts:117 | the 28 × 28 shape is kept |
| TensorFlowCNN.Transposer | src/core/lecture/CNN/TensorFlowCNN.ts:121 | the 28 × 28 shape is kept |
| TensorFlowCNN.Inverser | src/core/lecture/CNN/TensorFlowCNN.ts:122 | the 28 × 28 shape is kept |
| TensorFlowCNN.Miroir | src/core/lecture/CNN/TensorFlowCNN.ts:120 | the 28 × 28 shape is kept |
| TensorFlowCNN.Pretraitement | src/core/lecture/CNN/TensorFlowCNN.ts:117-122 | the 28 × 28 shape is kept |
| TensorFlowCNN.PretraitementPixel | src/core/lecture/CNN/TensorFlowCNN.ts:117-122 | the model's input at row r and column c is 1 − g(c, r)/255: the step normalises, transposes and inverts the resized grey glyph |
| TensorFlowCNN.TransposerInvolution | src/core/lecture/CNN/TensorFlowCNN.ts:121 | transposing twice gives the image back |
| TensorFlowCNN.BlancDevientNoir | src/core/lecture/CNN/TensorFlowCNN.ts:117-122 | white paper (255) becomes 0 and black ink (0) becomes 1 |
| TensorFlowCNN.SansMiroir | src/core/lecture/CNN/TensorFlowCNN.ts:118-122 | with the left-right flip commented out, the input's top-left pixel comes from the glyph's top-left pixel; the flip the comment describes would take it from the top-right one |
| TensorFlowCNN.Chargeur.constructor | src/core/lecture/CNN/TensorFlowCNN.ts:33-36 | no model is loaded and no load is pending |
| TensorFlowCNN.Chargeur.EnsureModel | src/core/lecture/CNN/TensorFlowCNN.ts:80-104 | a loaded model is returned at once; otherwise a pending load is shared; only with neither is a new load started, and then only if the file exists; a missing file is an Error that records no promise; the model itself is never changed |
| TensorFlowCNN.Chargeur.Charge | src/core/lecture/CNN/TensorFlowCNN.ts:92-95 | when the load resolves, the model is recorded and nothing else changes |
| TensorFlowCNN.Chargeur.Echoue | src/core/lecture/CNN/TensorFlowCNN.ts:96-100 | when the load fails, its promise is dropped so that the next call loads again, and nothing else changes |
| CodeAnonymat.Distance | src/utils/codeAnonymatUtils.ts:6-13 | the Hamming distance of two words of the same length is at most their length |
| CodeAnonymat.Hamming | src/utils/codeAnonymatUtils.ts:6-13 | words of different lengths, and only those, give the length error; otherwise the counting loop gives the number of differing positions |
| CodeAnonymat.DistanceSymetrique | src/utils/codeAnonymatUtils.ts:6-13 | the distance is symmetric |
| CodeAnonymat.DistanceNulle | src/utils/codeAnonymatUtils.ts:6-13 | the distance is 0 exactly between equal words |
| CodeAnonymat.Pow | src/utils/codeAnonymatUtils.ts:46 | Q to the n is positive for a non-empty alphabet, and 0 for an empty one when n > 0 |
| CodeAnonymat.MulStrict | src/utils/codeAnonymatUtils.ts:21-30 | a smaller quotient with a remainder below the base gives a smaller number, so base-Q digits order numbers |
| CodeAnonymat.DivMod | src/utils/codeAnonymatUtils.ts:25-27 | index = Q · floor(index/Q) + index mod Q with the remainder below Q, as `%` and `Math.floor` give on non-negative indices |
| CodeAnonymat.ResteUnique | src/utils/codeAnonymatUtils.ts:25-27 | the quotient and remainder of any such decomposition are those of `/` and `%` |
| CodeAnonymat.Chiffres | src/utils/codeAnonymatUtils.ts:24-28 | after i steps there are i digits, each below Q, the digit of the latest step first |
| CodeAnonymat.ValeurBornee | src/utils/codeAnonymatUtils.ts:21-30 | digits below Q write a number below Q to the power of their count |
| CodeAnonymat.Etape | src/utils/codeAnonymatUtils.ts:25-27 | one step of the loop keeps the index's value: the digit taken off plus Q times the quotient |
| CodeAnonymat.Decomposition | src/utils/codeAnonymatUtils.ts:24-28 | after i steps the digits produced and the running index together give back the starting index |
| CodeAnonymat.ChiffresValeur | src/utils/codeAnonymatUtils.ts:21-30 | the word's digits write the index modulo Q to the length, and the index left after the loop is the rest of the division |
| CodeAnonymat.IndicesDistincts | src/utils/codeAnonymatUtils.ts:21-30 | two different indices below Q to the length have different digits |
| CodeAnonymat.Lettres | src/utils/codeAnonymatUtils.ts:25 | each digit d becomes the letter at position d of the alphabet |
| CodeAnonymat.IndiceVersMot | src/utils/codeAnonymatUtils.ts:21-30 | the word is the index written in base Q, most significant letter first, on exactly `length` letters of the alphabet; with an empty alphabet each step prepends the string "undefined" |
| CodeAnonymat.MotDansLAlphabet | src/utils/codeAnonymatUtils.ts:21-30 | the word has `length` letters, all from the alphabet |
| CodeAnonymat.MotsDistincts | src/utils/codeAnonymatUtils.ts:21-30 | over an alphabet without repeated letters, distinct indices below Q to the length give distinct words: the enumeration covers the code space without collision |
| CodeAnonymat.Ensemble | src/utils/codeAnonymatUtils.ts:57 | the set holds exactly the letters of the candidate |
| CodeAnonymat.SansRepetitionAjout | src/utils/codeAnonymatUtils.ts:50-58 | a word extended by a letter repeats no letter exactly when the word repeats none and lacks that letter |
| CodeAnonymat.TailleEnsemble | src/utils/codeAnonymatUtils.ts:57-58 | the set of a word's letters is never larger than the word, and it has the same size exactly when no letter repeats, so the size test rejects precisely the candidates with a repeated letter |
| CodeAnonymat.Tirer | src/utils/codeAnonymatUtils.ts:50-54 | the candidate has `taille` letters, each drawn from the alphabet |
| CodeAnonymat.Compatible | src/utils/codeAnonymatUtils.ts:60-66 | the candidate is accepted exactly when it is at least minDistance from every code accepted so far |
| CodeAnonymat.GenererCodesHamming | src/utils/codeAnonymatUtils.ts:39-72 | at most Q to the taille codes and at most n codes, none when n ≤ 0; every code has `taille` letters of the alphabet with none repeated; every two codes are at least minDistance apart |
| CodeAnonymat.Accepter | src/utils/codeAnonymatUtils.ts:60-68 | appending a compatible candidate keeps every two codes at least minDistance apart |
| StatistiquesDebug.PlusLongue | src/core/debug/StatistiquesDebug.ts:27-34 | the longest time kept is never negative, since it starts at 0 |
| StatistiquesDebug.PlusLongueMaximum | src/core/debug/StatistiquesDebug.ts:27-34 | the longest time is at least every recorded time, and is either 0 or one of them |
| StatistiquesDebug.PlusLongueSousTotal | src/core/debug/StatistiquesDebug.ts:25-34 | with no negative time, the longest time never exceeds the total |
| StatistiquesDebug.TotalPositif | src/core/debug/StatistiquesDebug.ts:25-30 | with no negative time, the total is not negative |
| StatistiquesDebug.Moyenne | src/core/debug/StatistiquesDebug.ts:37-40 | the mean is 0 when nothing was recorded; otherwise the mean times the count is the total |
| StatistiquesDebug.TempsExecStats.constructor | src/core/debug/StatistiquesDebug.ts:25-27 | the total, the count and the longest time start at 0, with nothing recorded |
| StatistiquesDebug.TempsExecStats.AjouterExecution | src/core/debug/StatistiquesDebug.ts:29-35 | the time is recorded: t is added to the total, 1 to the count, and the longest time becomes the larger of the two; the fields go on agreeing with the times recorded |
| StatistiquesDebug.TempsExecStats.ObtenirTempsMoyenMs | src/core/debug/StatistiquesDebug.ts:37-40 | the mean of the times recorded: 0 when there are none, otherwise their count times it is their total |
| StatistiquesDebug.TempsExecStats.ObtenirPlusLongueMs | src/core/debug/StatistiquesDebug.ts:42-44 | never negative, and at least every time recorded |
| StatistiquesDebug.TempsExecStats.Reset | src/core/debug/StatistiquesDebug.ts:46-50 | all three fields are back to 0, as if nothing had been recorded |
| StatistiquesDebug.StatistiquesDebug.constructor | src/core/debug/StatistiquesDebug.ts:8 | no stage has an accumulator yet |
| StatistiquesDebug.StatistiquesDebug.AjouterTempsExecution | src/core/debug/StatistiquesDebug.ts:15-20 | the stage is added if new, with a fresh accumulator of its own; the time is appended to that stage's times; every other stage keeps its accumulator and its times |
| Emnist.U32BE | resources/scripts/entrainementEMNIST.js:162-164 | a 32-bit read succeeds exactly when four bytes are there, and gives a number below 2^32 |
| Emnist.EncodeU32BE | resources/scripts/entrainementEMNIST.js:162-164 | a 32-bit number is written on four bytes |
| Emnist.Chiffres | resources/scripts/entrainementEMNIST.js:162-164 | four bytes read most significant first make a number below 2^32 whose base-256 digits are those bytes again |
| Emnist.U32BERoundTrip | resources/scripts/entrainementEMNIST.js:162-164 | the number read at any offset determines the bytes: writing it back on four big-endian bytes gives exactly the four bytes read |
| Emnist.Total | resources/scripts/entrainementEMNIST.js:166 | a false maximum (undefined, 0, empty text) means the file's count; otherwise the maximum converted to a number, NaN exactly when that conversion is NaN, and else the smaller of the maximum and the file's count |
| Emnist.LireIdxImages | resources/scripts/entrainementEMNIST.js:160-175 | it throws exactly when the 16-byte header is incomplete, when total × rows × columns truncates below 0, or when one of the copies (one per natural below total) ends past the buffer; otherwise the rows, columns and total are the header's and the maximum's, the buffer holds ToIndex(total × size) bytes, and byte k is file byte 16 + k, or 0 past the file's end |
| Emnist.TailleImage | resources/scripts/entrainementEMNIST.js:165 | an image has rows × columns bytes |
| Emnist.CopierImages | resources/scripts/entrainementEMNIST.js:167-172 | the copy loop over a zeroed buffer throws exactly when some copy ends past the buffer; otherwise every byte the loop reaches is the file's byte 16 + k, and the others stay 0 |
| Emnist.CopierImage | resources/scripts/entrainementEMNIST.js:170-171 | one image's copy extends the filled prefix by the image's size, with the bytes the file has and 0 for those it lacks |
| Emnist.LireIdxLabels | resources/scripts/entrainementEMNIST.js:177-189 | it throws exactly on an incomplete header, a total that truncates below 0, or a label byte past the end of the file read by the loop (one per natural below total); otherwise there are ToIndex(total) labels, label i being byte 8 + i minus one, modulo 256 |
| Emnist.Plafond | resources/scripts/entrainementEMNIST.js:169 | the smallest integer at or above a value |
| Emnist.ToIndex | resources/scripts/entrainementEMNIST.js:167 | a typed array's length: NaN gives 0, a value in (-1, 1) gives 0, a value of at least 0 gives its integer part, and exactly the values at or below -1 throw a RangeError |
| Emnist.Tours | resources/scripts/entrainementEMNIST.js:169 | the `i < total` loop runs as many times as there are naturals below total: none for NaN or a total at or below 0, otherwise the ceiling of total |
| Emnist.Tranche | resources/scripts/entrainementEMNIST.js:170 | the subarray of one image is the longest part of its bytes the file holds: never more than the image, and shorter only when it reaches the file's end |
| Emnist.Couverture | resources/scripts/entrainementEMNIST.js:167-169 | the buffer's length never exceeds what the loop covers, Tours(total) × size |
| Emnist.ImagesFractionnaires | resources/scripts/entrainementEMNIST.js:166-172 | a positive fractional total over images the file holds makes the last copy end past the truncated buffer, so lireIdxImages throws a RangeError |
| Emnist.ImagesEntieres | resources/scripts/entrainementEMNIST.js:166-172 | a natural-number total never throws: the buffer's length is total × size and every copy ends within it |
| Emnist.LabelsFractionnaires | resources/scripts/entrainementEMNIST.js:180-186 | with a positive fractional total the array holds one label fewer than the loop reads, so the last label read is dropped |
| Emnist.MaxTrain | resources/scripts/entrainementEMNIST.js:314 | an absent `--max_train` means every example; a text that is not a number makes the total NaN, so the buffer length is 0 and the loops do not run |
| Emnist.Label | resources/scripts/entrainementEMNIST.js:185 | the label is the byte minus 1, and a 0 byte wraps to 255, as a Uint8Array stores it |
| Emnist.LabelsDecales | resources/scripts/entrainementEMNIST.js:184-185 | EMNIST Letters labels 1..26 become classes 0..25; a 0 would wrap to 255 |
| Emnist.NbVal | resources/scripts/entrainementEMNIST.js:212 | there is always at least one validation row |
| Emnist.DecouperTrainVal | resources/scripts/entrainementEMNIST.js:210-221 | it fails exactly when there are more validation rows than rows; otherwise training rows then validation rows are all the rows, in order, with at least one validation row |
| Emnist.DecoupageValide | resources/scripts/entrainementEMNIST.js:210-221 | with a split between 0 and 1 and at least one row, the split never fails |
| Emnist.IndexOf | resources/scripts/entrainementEMNIST.js:58 | -1 exactly when the flag is absent; otherwise the position of its first occurrence |
| Emnist.LireArg | resources/scripts/entrainementEMNIST.js:57-65 | the default (undefined as None) when the flag is absent or is the last argument; otherwise the argument after the first `--nom`, as a number when it parses as one and as the raw text otherwise |
| Emnist.PremierDrapeau | resources/scripts/entrainementEMNIST.js:58-62 | a repeated flag is read at its first occurrence |
| Emnist.ImagesEntrainement | resources/scripts/entrainementEMNIST.js:193 | the training pixels are as many as the bytes, each between 0 and 1 |
| CacheBase.CacheBase.constructor | src/cache/base/CacheBase.ts:8 | the cache starts empty |
| CacheBase.CacheBase.Get | src/cache/base/CacheBase.ts:15-17 | an element is found exactly for a stored key, and it is the one stored there |
| CacheBase.CacheBase.Has | src/cache/base/CacheBase.ts:33-35 | has is true exactly when get finds an element |
| CacheBase.CacheBase.Size | src/cache/base/CacheBase.ts:55-57 | the number of distinct keys stored |
| CacheBase.CacheBase.Set | src/cache/base/CacheBase.ts:24-26 | afterwards get(id) gives the value; every other key keeps whether it is stored and its element; the size grows by one exactly when id was new |
| CacheBase.CacheBase.Delete | src/cache/base/CacheBase.ts:41-43 | afterwards id is not stored; every other key keeps whether it is stored and its element; the size drops by one exactly when id was stored |
| CacheBase.CacheBase.Clear | src/cache/base/CacheBase.ts:48-50 | nothing is stored any more and the size is 0 |
| CacheBase.TailleApresAjout | src/cache/base/CacheBase.ts:24-26 | storing under a key grows a map by one key exactly when the key is new |
| CacheBase.TailleApresRetrait | src/cache/base/CacheBase.ts:41-43 | removing a key shrinks a map by one key exactly when the key was there |
| DatabaseCacheBase.OccurrencesConcat | src/cache/base/DatabaseCacheBase.ts:56-57 | placeholders of a concatenation add up |
| DatabaseCacheBase.MarqueursCondition | src/cache/base/DatabaseCacheBase.ts:56 | one column condition `\`c\` = ?` holds exactly one placeholder when the column name holds none |
| DatabaseCacheBase.MarqueursClauseWhere | src/cache/base/DatabaseCacheBase.ts:56 | the WHERE clause has exactly one placeholder per key column (delete builds the same clause at line 123) |
| DatabaseCacheBase.Valeurs | src/cache/base/DatabaseCacheBase.ts:112 | one value per given column, in column order |
| DatabaseCacheBase.ValeursCle | src/cache/base/DatabaseCacheBase.ts:60 | the key's values are the parents' values followed by id, or id alone without parents (delete builds the same values at line 126) |
| DatabaseCacheBase.MarqueursAutour | src/cache/base/DatabaseCacheBase.ts:57 | the fixed text of a statement adds no placeholder to its clause (the DELETE text at line 124 likewise) |
| DatabaseCacheBase.MarqueursSelection | src/cache/base/DatabaseCacheBase.ts:56-63 | the SELECT of getOrFetch and the DELETE of delete have one placeholder per key column, so with the parents' values for every column but the last they take exactly the key's values (the DELETE is at lines 123-128) |
| DatabaseCacheBase.MarqueursFiltre | src/cache/base/DatabaseCacheBase.ts:82-84 | getAll's filter has a placeholder for every key column but the last when parents are given and the key has several columns, and none otherwise |
| DatabaseCacheBase.MarqueursTout | src/cache/base/DatabaseCacheBase.ts:82-85 | getAll's query has that many placeholders, whatever clause without placeholders is appended |
| DatabaseCacheBase.MarqueursJoin | src/cache/base/DatabaseCacheBase.ts:108-109 | joining parts of n placeholders each, around a separator with none, gives n times the number of parts |
| DatabaseCacheBase.MarqueursInsertion | src/cache/base/DatabaseCacheBase.ts:106-113 | insert's statement has exactly one placeholder per given column, as many as the values it is sent with |
| DatabaseCacheBase.EnCacheCles | src/cache/base/DatabaseCacheBase.ts:92-96 | after getAll, the key of every returned element is stored |
| DatabaseCacheBase.EnCacheValeurs | src/cache/base/DatabaseCacheBase.ts:92-96 | when the returned elements have distinct keys, each is stored under its own key |
| DatabaseCacheBase.EnCacheAutres | src/cache/base/DatabaseCacheBase.ts:92-96 | a key of no returned element keeps what it held |
| DatabaseCacheBase.Dernier | src/cache/base/DatabaseCacheBase.ts:92-96 | the last element with key k, if there is one; none exactly when no element has key k |
| DatabaseCacheBase.EnCacheDernier | src/cache/base/DatabaseCacheBase.ts:92-96 | whatever the keys, key k holds afterwards the last returned element with key k, or what it held before |
| DatabaseCacheBase.DatabaseCacheBase.constructor | src/cache/base/DatabaseCacheBase.ts:41-44 | the table, key columns, parent values and the two conversions are those given, and the inherited cache is empty |
| DatabaseCacheBase.DatabaseCacheBase.GetOrFetch | src/cache/base/DatabaseCacheBase.ts:51-72 | a cached element is returned with no query and no change; on a miss the SELECT is sent with the key's values; a rejected query is returned as that Err with the cache unchanged; otherwise the first row, converted, is cached under its own key and returned, and with no row nothing is returned or cached |
| DatabaseCacheBase.DatabaseCacheBase.GetAll | src/cache/base/DatabaseCacheBase.ts:80-99 | the query filters on the parents' values when they are given; a rejected query is returned as that Err with the cache unchanged; otherwise every row is converted and returned in result order, and each is cached under its own key in that order |
| DatabaseCacheBase.DatabaseCacheBase.Insert | src/cache/base/DatabaseCacheBase.ts:106-115 | the INSERT names the given columns and is sent with their values in the same order; a failed execution is returned and caches nothing; otherwise the element is cached under its own key |
| DatabaseCacheBase.DatabaseCacheBase.Delete | src/cache/base/DatabaseCacheBase.ts:121-130 | corrected delete: the DELETE is sent once with the key's values; a failed execution is returned and leaves the cache as it was; after a success the element is no longer cached and get finds nothing under id |
| DatabaseCacheBase.DatabaseCacheBase.DeleteTelleQuEcrite | src/cache/base/DatabaseCacheBase.ts:121-130 | delete as written: the statements sent and the outcome are those of the as-written call, and get still finds under id exactly what it found before, whatever the outcome |
| DatabaseCacheBase.SuppressionTelleQuEcrite | src/cache/base/DatabaseCacheBase.ts:121-130 | as written, a failed DELETE is returned after one statement; a successful one makes the unawaited `this.delete(id)` send the same DELETE again before the call resolves, so two identical statements are sent and the call succeeds without touching the cache |
| DatabaseCacheBase.DatabaseCacheBase.Count | src/cache/base/DatabaseCacheBase.ts:136-140 | a rejected COUNT query is returned as that Err; otherwise the count is the first row's count column, and with no row reading it throws a TypeError |
| DatabaseCacheBase.SuppressionSansFin | src/cache/base/DatabaseCacheBase.ts:128-129 | the detached chain left by the as-written delete sends the same DELETE again after every success, one per success, and stops only at the first failure, whose rejection nobody awaits; while every DELETE succeeds it never stops |
| SalleCache.VersSalle | src/cache/salles/Salle.ts:15-20 | a room carries its row's id, number and type, renamed |
| SalleCache.SalleCache.constructor | src/cache/salles/SalleCache.ts:5-10 | a cache of table `salle` keyed by `id_salle`, with no parents, converting rows to rooms and keyed by the room's id; both maps start empty |
| SalleCache.SalleCache.Set | src/cache/salles/SalleCache.ts:25-28 | the room is stored under its id and indexed under its number; nothing else changes |
| SalleCache.SalleCache.Delete | src/cache/salles/SalleCache.ts:30-34 | the number of the room cached under id is dropped from the index before the delete, and nothing is dropped when id is not cached; the inherited delete then runs, in its corrected form |
| SalleCache.SalleCache.Clear | src/cache/salles/SalleCache.ts:36-39 | both the cache and the number index are emptied |
| SalleCache.SalleCache.GetAll | src/cache/salles/SalleCache.ts:25-28 | the inherited getAll goes through the overridden set: a rejected query is returned as that Err with both maps unchanged; otherwise every returned room is cached under its id and indexed under its number, in result order |
| SalleCache.SalleCache.GetParNom | src/cache/salles/SalleCache.ts:20-23 | a rejected load is returned as that Err with both maps unchanged; otherwise, after loading every room, the room found under a number is the last loaded room with that number, or the one indexed before when no loaded room has it; none otherwise |
| SalleCache.EntreePerimee | src/cache/salles/SalleCache.ts:25-28 | storing a room with another number under the same id leaves the old number indexed to the old room, while the id now gives the new one |
| Role.FlagsDisjoints | src/cache/roles/Role.ts:4-13 | every permission other than AUCUNE is a single bit, and no two share a bit |
| Role.AdministrateurPermetTout | src/cache/roles/Role.ts:38-40 | a role whose mask is exactly ADMINISTRATEUR is granted every permission |
| Role.AucuneToujoursPermise | src/cache/roles/Role.ts:38-40 | AUCUNE is granted to every role |
| Role.PermetUnion | src/cache/roles/Role.ts:38-40 | a role granted a combination of permissions is granted each part |
| Role.UnionPermise | src/cache/roles/Role.ts:38-40 | a role granted two permissions is granted their combination |
| Role.AutoriseUnionParties | src/cache/roles/Role.ts:39 | the mask test passes for each part when it passes for the combination |
| Role.AutorisePartiesUnion | src/cache/roles/Role.ts:39 | the mask test passes for the combination when it passes for both parts |
| Role.MasqueUnionParties | src/cache/roles/Role.ts:39 | a mask containing the combination's bits contains each part's |
| Role.MasquePartiesUnion | src/cache/roles/Role.ts:39 | a mask containing both parts' bits contains the combination's |
| Role.PermetUnFlag | src/cache/roles/Role.ts:38-40 | for a single permission bit, a role is granted it exactly when its mask has that bit or is exactly ADMINISTRATEUR |
| Role.AdministrateurEtAutres | src/cache/roles/Role.ts:39 | the administrator test is an equality on the mask: ADMINISTRATEUR combined with LECTURE_SEULE does not grant MODIFIER_SESSIONS |
| InterpretationXLSX.SansEspaces | src/core/xlsx/interpretationXLSX.ts:63-64 | removing spaces leaves no space, never lengthens the text, and leaves a text without spaces as it was |
| InterpretationXLSX.SansEspacesIdempotent | src/core/xlsx/interpretationXLSX.ts:63-64 | removing spaces twice is removing them once |
| InterpretationXLSX.ValeurChiffre | src/core/xlsx/interpretationXLSX.ts:70 | in base 10, exactly the characters 0 to 9 are digits, with their value |
| InterpretationXLSX.PrefixeChiffres | src/core/xlsx/interpretationXLSX.ts:70 | the longest prefix of digits: every character before it is a digit and the character after it is not |
| InterpretationXLSX.LireChiffres | src/core/xlsx/interpretationXLSX.ts:70 | a number is read exactly when the text starts with a digit |
| InterpretationXLSX.ValeurBaseDecimale | src/core/xlsx/interpretationXLSX.ts:70 | decimal digits read as their decimal value |
| InterpretationXLSX.LireDecimal | src/core/xlsx/interpretationXLSX.ts:70 | a non-empty run of decimal digits reads as its value |
| InterpretationXLSX.ParseIntRoundTrip | src/core/xlsx/interpretationXLSX.ts:70 | parseInt reads back the decimal text of any integer, negative ones included |
| InterpretationXLSX.ParseIntNaturel | src/core/xlsx/interpretationXLSX.ts:70 | parseInt reads back the decimal text of a natural number |
| InterpretationXLSX.ParseIntNegatif | src/core/xlsx/interpretationXLSX.ts:70 | parseInt reads back "-" followed by the decimal text of a positive number as its negation |
| InterpretationXLSX.SansBlancsChiffres | src/core/xlsx/interpretationXLSX.ts:70 | a text that starts with a digit has no leading white space to skip |
| InterpretationXLSX.SansSigne | src/core/xlsx/interpretationXLSX.ts:70 | with no sign, the number is read from the start |
| InterpretationXLSX.AvecMoins | src/core/xlsx/interpretationXLSX.ts:70 | a leading '-' negates the number read after it |
| InterpretationXLSX.PrefixeChiffresDecimal | src/core/xlsx/interpretationXLSX.ts:70 | a string of decimal digits is a prefix of digits in full |
| InterpretationXLSX.ParseIntAbsente | src/core/xlsx/interpretationXLSX.ts:70 | a missing student-code cell becomes the text "undefined", which parses as NaN |
| InterpretationXLSX.LigneInvalide | src/core/xlsx/interpretationXLSX.ts:74-88 | a row error is an ErreurLigneInvalide carrying the row number and the detail |
| InterpretationXLSX.Minutes | src/core/xlsx/interpretationXLSX.ts:86 | the minute count is the one nearest the instant in milliseconds, halves rounded up: within half a minute below, and strictly less than half a minute above |
| InterpretationXLSX.Diagnostiquer | src/core/xlsx/interpretationXLSX.ts:63-89 | a row passes exactly when its date and time cells are text, and then all its fields are as read with the spaces removed from date and time, every field is non-empty, the student code parses to a non-zero integer and the date parser accepts the instant, converted to minutes; a date or time cell that is not text, and only that, is the replaceAll failure |
| InterpretationXLSX.Valider | src/core/xlsx/interpretationXLSX.ts:63-89 | a row's outcome is its fields exactly when it passes; a date or time cell that is not text raises replaceAll's TypeError; any other failure is an ErreurLigneInvalide |
| InterpretationXLSX.DateAbsente | src/core/xlsx/interpretationXLSX.ts:63 | a missing date cell fails in replaceAll, before any check |
| InterpretationXLSX.CodeNulOuNaN | src/core/xlsx/interpretationXLSX.ts:70-75 | a student code that parses to 0 or NaN is reported as a missing field on row indice + 1 |
| InterpretationXLSX.NonReconnuInatteignable | src/core/xlsx/interpretationXLSX.ts:73-79 | the "code étudiant non reconnu" check never decides: a NaN code has already failed the falsy test before it |
| InterpretationXLSX.ChampVide | src/core/xlsx/interpretationXLSX.ts:73-75 | an empty room or name, or a date made only of spaces, is a missing field |
| InterpretationXLSX.DateNonReconnue | src/core/xlsx/interpretationXLSX.ts:86-89 | a date the parser rejects, on a row that passes the other checks, is reported with the date and time as read with spaces removed |
| InterpretationXLSX.FiltresCumulatifs | src/core/xlsx/interpretationXLSX.ts:92-96 | a row is kept exactly when it passes each supplied filter on its own; with no filter, or no filters object, every row is kept |
| InterpretationXLSX.FiltresVides | src/core/xlsx/interpretationXLSX.ts:92-96 | an empty list of codes or of rooms keeps no row, since an empty array is truthy; an empty date keeps every row, since an empty string is falsy |
| InterpretationXLSX.Validations | src/core/xlsx/interpretationXLSX.ts:61-89 | one outcome per row, in order, row j validated with index j |
| InterpretationXLSX.InsererEtudiant | src/core/xlsx/interpretationXLSX.ts:108 | the student's insert is always sent; the student is cached exactly when the database accepts it, and its rejection is returned |
| InterpretationXLSX.InsererEpreuve | src/core/xlsx/interpretationXLSX.ts:112-123 | the épreuve's insert is always sent; the épreuve is cached under its code exactly when the database accepts it, and its rejection is returned |
| InterpretationXLSX.TraiterAccepte | src/core/xlsx/interpretationXLSX.ts:98-125 | with a database that rejects nothing, a row writes and caches its student when missing, then its épreuve when missing, and nothing else |
| InterpretationXLSX.Apres | src/core/xlsx/interpretationXLSX.ts:61-127 | the run over rows ends with true or with an error, never with false |
| InterpretationXLSX.ApresLigneValide | src/core/xlsx/interpretationXLSX.ts:91-125 | after a successful prefix, a valid row is processed when the filters keep it and skipped otherwise, with success |
| InterpretationXLSX.ErreurDefinitive | src/core/xlsx/interpretationXLSX.ts:61-127 | after an error, later rows change nothing |
| InterpretationXLSX.RefusDefinitif | src/core/xlsx/interpretationXLSX.ts:98-127 | a kept row whose write the database rejects ends the whole run with that error and the state after that row |
| InterpretationXLSX.TraiterRefus | src/core/xlsx/interpretationXLSX.ts:98-125 | a row only appends writes, and a rejection it returns is that of one of its writes |
| InterpretationXLSX.Resultat | src/core/xlsx/interpretationXLSX.ts:61-131 | the run only appends writes; it returns true only when every row is valid; an error is that of an invalid row or of a write the database rejected |
| InterpretationXLSX.ResultatSansRefus | src/core/xlsx/interpretationXLSX.ts:61-127 | with a database that rejects nothing, the run returns true exactly when every row is valid and otherwise the error of an invalid row; the outcome depends neither on the caches nor on the session nor on the filters |
| InterpretationXLSX.LigneSansRefus | src/core/xlsx/interpretationXLSX.ts:91-125 | with a database that rejects nothing, a valid row after a successful prefix keeps the run successful |
| InterpretationXLSX.PremiereErreur | src/core/xlsx/interpretationXLSX.ts:61-127 | at the first invalid row, after a prefix whose writes were accepted, the run fails with its error, keeping the state the valid rows before it reached; a database that rejects nothing accepts that prefix |
| InterpretationXLSX.CachesConserves | src/core/xlsx/interpretationXLSX.ts:98-125 | whatever the database answers, a run keeps earlier writes, never changes a cached student or épreuve, and writes only students and épreuves that were not cached |
| InterpretationXLSX.NouveauxElements | src/core/xlsx/interpretationXLSX.ts:98-125 | every new student and épreuve comes from a processed row; a new épreuve is not printed yet, lasts 0, carries the session's id and its own code |
| InterpretationXLSX.LignesPresentes | src/core/xlsx/interpretationXLSX.ts:98-125 | after a successful run, every processed row's student and épreuve are cached |
| InterpretationXLSX.TraiterEffets | src/core/xlsx/interpretationXLSX.ts:98-125 | processing a row keeps cached entries, writes only a missing student and then a missing épreuve, caches only accepted writes, and after no rejection has both cached |
| InterpretationXLSX.EtudiantRefuse | src/core/xlsx/interpretationXLSX.ts:98-110 | a rejected student insert is the row's only write: nothing is cached, the épreuve is not looked at, and the row ends with that error |
| InterpretationXLSX.AvecSession | src/core/xlsx/interpretationXLSX.ts:44-53 | a rejected lookup is returned and changes nothing; a found session changes nothing; a missing one is written as "Session <id>" with the current year and status 0, and the database's answer to that write is returned; the caches are unchanged |
| InterpretationXLSX.Interpretation | src/core/xlsx/interpretationXLSX.ts:42-132 | a rejected session lookup is returned before anything else; a rejected getAll ends the run with an error and without touching the caches |
| InterpretationXLSX.Caches.constructor | src/core/xlsx/interpretationXLSX.ts:58-59 | the caches hold what the initial getAll calls loaded, and nothing is written yet |
| InterpretationXLSX.Caches.CreerSession | src/core/xlsx/interpretationXLSX.ts:44-53 | the state and answer are those of the reference session step: the lookup, then the write of a missing session, with a rejection returned |
| InterpretationXLSX.Caches.ObtenirOuCreer | src/core/xlsx/interpretationXLSX.ts:98-125 | the state and answer are those of processing the row: the student, then the épreuve, each written when missing and cached only when the write is accepted; a rejection ends the row |
| InterpretationXLSX.Caches.InterpreterLignes | src/core/xlsx/interpretationXLSX.ts:61-127 | the loop over the rows gives the state and outcome of the reference run, stopping at the first invalid row or rejected write |
| InterpretationXLSX.Caches.Interpreter | src/core/xlsx/interpretationXLSX.ts:42-132 | the session step, the loads and the row loop give the reference run's state and outcome, rejected lookups, loads and writes included |
| Texte.SauterBlancsSuffixe | src/core/services/database/Database.ts:172 | skipping leading white space keeps a suffix of the text and drops only white space, the white space of JavaScript's `\s`, `trim` and parseInt |
| Texte.SauterBlancsPropre | src/core/services/database/Database.ts:172 | what is left after skipping leading white space does not start with white space |
| Texte.SauterBlancs | src/core/xlsx/interpretationXLSX.ts:70 | skipping leading white space never lengthens the text |
| Database.SansBlancsFinPrefixe | src/core/services/database/Database.ts:173 | dropping trailing white space keeps a prefix of the text |
| Database.SansBlancsFinPropre | src/core/services/database/Database.ts:173 | what is left after dropping trailing white space does not end with white space |
| Database.TrimPropre | src/core/services/database/Database.ts:173 | a trimmed statement neither starts nor ends with white space |
| Database.SauterBlancsContenu | src/core/services/database/Database.ts:172 | skipping white space adds no character |
| Database.TrimContenu | src/core/services/database/Database.ts:173 | trimming adds no character |
| Database.DecoupeElement | src/core/services/database/Database.ts:172 | split(/;\s*/) gives the pieces of a plain split on ';', each piece after the first without its leading white space |
| Database.SauterBlancsTousElement | src/core/services/database/Database.ts:172 | every piece after a semicolon loses its leading white space, and only that |
| Database.GarderPropre | src/core/services/database/Database.ts:173-174 | every statement kept by map(trim).filter(length > 0) is non-empty with no white space at either end |
| Database.DecoupeSansPointVirgule | src/core/services/database/Database.ts:172 | no piece of the split holds a semicolon |
| Database.GarderSansPointVirgule | src/core/services/database/Database.ts:173-174 | trimming and filtering keep pieces free of semicolons |
| Database.InstructionsPropres | src/core/services/database/Database.ts:169-179 | every statement executerSQL sends is non-empty, holds no semicolon and has no white space at either end |
| Database.TrimSauter | src/core/services/database/Database.ts:172-173 | trimming after the regular expression has eaten the leading white space gives the same statement as trimming alone |
| Database.GarderEgal | src/core/services/database/Database.ts:173-174 | pieces that trim alike give the same statements |
| Database.InstructionsCommeSplit | src/core/services/database/Database.ts:172-174 | the statements are exactly the trimmed, non-empty pieces of a plain split on ';' (the `\s*` of the regular expression changes nothing) |
| Database.GarderConcat | src/core/services/database/Database.ts:173-174 | the statements of consecutive pieces come in order, first those of the first pieces |
| Database.InstructionsConcat | src/core/services/database/Database.ts:169-179 | two scripts joined by a semicolon send the statements of the first, then those of the second |
| Database.JoindreDescendre | src/core/services/database/Database.ts:98 | path.join with plain names goes down those names |
| Database.JoindreRemonter | src/core/services/database/Database.ts:98 | path.join with k times ".." then names goes k levels up, then down those names |
| Database.NomsTrois | src/core/services/database/Database.ts:98 | three names as path.join arguments |
| Database.CheminInitialResolu | src/core/services/database/Database.ts:98 | the four ".." from src/core/services/database lead initial.sql to config/schemas at the repository's root |
| Database.PatchHorsSchemas | src/core/services/database/Database.ts:147 | as written, three ".." lead every patch file to src/config/schemas, never into the directory of initial.sql |
| Database.PatchAvecSchemas | src/core/services/database/Database.ts:147 | corrected to four ".." as for initial.sql, every patch file is config/schemas/patch-N.sql |
| Database.PremierManquantCorrect | src/core/services/database/Database.ts:144-150 | the patch at which the loop stops is missing and every patch before it is present; when it does not stop, every patch of the range is present |
| Database.PremierManquantSome | src/core/services/database/Database.ts:144-150 | conversely, a missing patch with every earlier one present is the one the loop stops at |
| Database.PremierManquantNone | src/core/services/database/Database.ts:144-150 | conversely, when every patch of the range is present the loop does not stop early |
| Database.PremierManquant | src/core/services/database/Database.ts:144-150 | the patch the loop stops at, if any, lies in dernier+1..actuel |
| Database.InstructionsPatchsEnDeuxFois | src/core/services/database/Database.ts:144-155 | running the patches in two goes sends the same statements, in the same order, as running them at once |
| Database.UnPatch | src/core/services/database/Database.ts:151-153 | a single patch sends the statements of its own file |
| Database.Executer | src/core/services/database/Database.ts:169-179 | the statements sent are always a prefix of the script after those sent before; a normal end sent the whole script; on an error the last statement sent is the one the server rejected, with that error |
| Database.ExecuterRefus | src/core/services/database/Database.ts:169-179 | executerSQL succeeds exactly when the server accepts every statement of the script, each given the statements sent before it |
| Database.ExecuterAccepte | src/core/services/database/Database.ts:169-179 | a server that rejects nothing receives the whole script, and the run succeeds |
| Database.BouclePatchs | src/core/services/database/Database.ts:144-155 | the patch loop only appends to the statements already sent |
| Database.BouclePatchsManquant | src/core/services/database/Database.ts:144-150 | a missing patch file in the range makes the loop fail, whatever the server answers |
| Database.PremierPatch | src/core/services/database/Database.ts:144-155 | the statements of the patches after dernier start with those of patch dernier + 1 |
| Database.BouclePatchsAccepte | src/core/services/database/Database.ts:144-155 | with a server that rejects nothing, the loop sends the patches' statements in increasing order up to the first missing file, whose error it returns, or up to the current patch |
| Database.PatchsJusquAuManquantPresent | src/core/services/database/Database.ts:144-155 | a present first patch sends its statements first, then those of the patches after it |
| Database.Patchs | src/core/services/database/Database.ts:119-163 | appliquerPatchs only appends statements; on an error the saved configuration does not move; it changes only to a configuration holding the current patch number |
| Database.AJour | src/core/services/database/Database.ts:137-138 | a last applied patch at or above the current number changes nothing and succeeds |
| Database.PatchsAccepte | src/core/services/database/Database.ts:137-161 | with a server that rejects nothing, patches last+1 to current run in order and the current number is saved, or the loop stops at the first missing file with the earlier patches sent, that error, and the number unsaved |
| Database.PatchsIdempotents | src/core/services/database/Database.ts:138-161 | a successful upgrade records the current number, so running the patches again straight after changes nothing |
| Database.PatchManquantRetente | src/core/services/database/Database.ts:148-161 | a missing patch file is an error and the recorded number does not move, so the next start retries from the same patch |
| Database.ImportOuPatchs | src/core/services/database/Database.ts:42-46 | on an empty database the schema is imported and no patch runs; on a non-empty one only the patches run |
| Database.Import | src/core/services/database/Database.ts:92-114 | importer only appends statements; the configuration is saved with the current number exactly when the import ran (true); a count that is not 0 changes nothing and returns false; a rejected count query, a missing initial.sql or a rejected statement returns that error with the configuration unchanged |
| Database.PatchsSeuls | src/core/services/database/Database.ts:42-46 | on a non-empty database connexion runs appliquerPatchs alone; a rejected count query is returned as is and changes nothing |
| Database.ImportPuisPatchs | src/core/services/database/Database.ts:42-46 | after an import the recorded patch number is the current one, so the patches are up to date |
| Database.Database.constructor | src/core/services/database/Database.ts:19 | no pool yet, no statement sent, the hidden configuration as given |
| Database.Database.ExecuterSQL | src/core/services/database/Database.ts:169-179 | the statements sent and the outcome are those of the reference loop: each statement of the script in order, stopping at the first one the server rejects, whose error is returned; nothing else changes |
| Database.Database.Importer | src/core/services/database/Database.ts:92-114 | the state and outcome are those of the reference import: the count query, then initial.sql on an empty database, which a rejected statement ends with its error, then the saved configuration |
| Database.Database.AppliquerPatchs | src/core/services/database/Database.ts:119-163 | with the corrected path, the state and outcome are those of the reference appliquerPatchs: a missing configuration created, malformed numbers refused, the patches run, and the current number saved only when no file is missing and the server rejects no statement |
| Database.Database.MettreAJour | src/core/services/database/Database.ts:138-162 | when the last applied patch is below the current one, the state and outcome are those of the reference appliquerPatchs: the patches run, and the cached number becomes the current one only if all of them ran |
| Database.Database.ExecuterPatchs | src/core/services/database/Database.ts:144-155 | with the corrected path, the patches run in increasing order up to the first missing file or rejected statement, whose error is returned, as the reference loop gives; nothing but the statements sent changes |
| Database.Database.Connexion | src/core/services/database/Database.ts:25-49 | an existing pool is returned and nothing else happens; otherwise exactly one pool is created and kept, then the import and, when it did not run, the patches give the state, and their error, the count query's included, is returned |
| Database.DeuxConnexions | src/core/services/database/Database.ts:25-28 | two connections create at most one pool, and the second returns the pool of the first when that one succeeded |
| EnteteEmargement.LettresAfficherForme | src/core/generation/emargement/renduEnteteEmargement.ts:15 | the range label is empty exactly when there are no names; with both surnames non-empty it is the upper case of the first surname's first character (two letters for ß), '-', and that of the last surname's; an empty first surname gives no initial, so the label starts with '-' |
| EnteteEmargement.LettresExtremites | src/core/generation/emargement/renduEnteteEmargement.ts:15 | only the first and the last names count, so a page with one name shows the same initial on both sides |
| EnteteEmargement.NomEpreuve | src/core/generation/emargement/renduEnteteEmargement.ts:33 | an empty name shows "Épreuve"; otherwise the result is the upper case of the first character (one or, for ß, two letters) followed by every other character lower-cased, one for one |
| EnteteEmargement.NomEpreuveIdempotent | src/core/generation/emargement/renduEnteteEmargement.ts:33 | formatting a formatted name again changes nothing exactly when the name is empty or does not start with ß, whose "SS" then becomes "Ss"; formatting a third time changes nothing in every case |
| EnteteEmargement.NomEpreuveStable | src/core/generation/emargement/renduEnteteEmargement.ts:33 | a formatted name is formatted again unchanged if and only if the name is empty or does not start with ß |
| EnteteEmargement.NomEpreuveStableVide | src/core/generation/emargement/renduEnteteEmargement.ts:33 | the default "Épreuve" shown for an empty name is itself formatted unchanged |
| EnteteEmargement.NomEpreuveEszett | src/core/generation/emargement/renduEnteteEmargement.ts:33 | a name starting with ß is changed by a second formatting, its "SS" becoming "Ss" |
| EnteteEmargement.NomEpreuveStableAutre | src/core/generation/emargement/renduEnteteEmargement.ts:33 | a non-empty name not starting with ß is formatted once for good: one capital, then lower case, which a second formatting keeps |
| EnteteEmargement.InfosTexteParties | src/core/generation/emargement/renduEnteteEmargement.ts:34 | the info line reads back as the épreuve's code, " - ", and the formatted name |
| EnteteEmargement.DateHorsEchelle | src/core/generation/emargement/renduEnteteEmargement.ts:39 | as written, `dateEpreuve * 1000` reads the stored minute count as seconds: any épreuve from a minute after 1970 on is shown early, at a sixtieth of its time since 1970 |
| EnteteEmargement.DateHorsEchelleExemple | src/core/generation/emargement/renduEnteteEmargement.ts:39 | 20 May 2026 10:00 UTC is stored as minute 29654520 and shown, as written, 343 days, 5 hours and 22 minutes after the epoch: 10 December 1970, 05:22 UTC (334 days precede 1 December) |
| EnteteEmargement.DateCorrigee | src/core/xlsx/interpretationXLSX.ts:86 | read as minutes, the instant shown is the imported instant to within the half minute lost to rounding |
| EnteteEmargement.RenduEnteteEmargement | src/core/generation/emargement/renduEnteteEmargement.ts:5-45 | five texts in order: the range label at the left margin plus 10; the title in bold, centred, 3 pt higher; the page label ending 11 pt inside the right margin; in 13 pt, the info line and the date line, both centred, 14 and 31 pt lower; the date is that of the stored minute |
| TableauEmargement.CumulTotal | src/core/generation/emargement/renduTableauEmargement.ts:7-13 | the five column percentages add up to the whole width, and the closing rule adds nothing |
| TableauEmargement.BordSuivant | src/core/generation/emargement/renduTableauEmargement.ts:23-34 | each column is its percentage of the table's width wide |
| TableauEmargement.BordsOrdonnes | src/core/generation/emargement/renduTableauEmargement.ts:20-35 | the rules go from the table's left edge to its right edge, strictly left to right when the table has a width |
| TableauEmargement.TexteCelluleDansColonne | src/core/generation/emargement/renduTableauEmargement.ts:71-75 | a cell text starts one inner margin (2 mm) right of its column's left rule and its width ends one inner margin before the next rule |
| TableauEmargement.RenduTableauEmargement | src/core/generation/emargement/renduTableauEmargement.ts:18-37 | six vertical rules, one before each column and a closing one, the first at the table's left edge and the last at its right edge, each spanning all the rows |
| TableauEmargement.RenduLigneEmargement | src/core/generation/emargement/renduTableauEmargement.ts:39-97 | a grey background exactly on odd rows, the rule above the row, a 3 mm box centred in the first column at mid-height, then the surname upper-cased as toUpperCase does (ß as SS) and in bold, the first name, and the student number centred, each inside its column, at half the row's height |
| TableauEmargement.RenduEnteteTableauEmargement | src/core/generation/emargement/renduTableauEmargement.ts:99-125 | the grey background, the rule above, then the five column titles in bold, each inside its column, centred exactly from the fourth column on |
| FeuilleEmargement.NbPagesPlafond | src/core/generation/emargement/genererFeuilleEmargement.ts:27 | Math.ceil(n / 35) is the fewest pages of 35 rows that hold n names, and no page for no name |
| FeuilleEmargement.TranchesPrefixe | src/core/generation/emargement/genererFeuilleEmargement.ts:35 | the slices of the first p pages, end to end, are the first 35p names, or all of them when there are fewer |
| FeuilleEmargement.PagesPartition | src/core/generation/emargement/genererFeuilleEmargement.ts:27-38 | the pages, taken in order, hold every name exactly once and in order; every page but the last is full, and the last holds 1 to 35 names |
| FeuilleEmargement.LignesEntreCibles | src/core/generation/emargement/genererFeuilleEmargement.ts:54-56 | the rows tile the space between the target zones: the first starts 17 mm from the top, every row has the same positive height, and 35 rows end 17 mm from the bottom |
| FeuilleEmargement.LigneForme | src/core/generation/emargement/genererFeuilleEmargement.ts:91-133 | a row is shaded exactly when its index is odd, the shading spans the row between the margins, the rule sits at the row's top, the surname upper-cased as toUpperCase does (ß as SS) and then ' ' plus the first name share one line set from the row's top plus half the block's height, the first name starting after the upper-cased surname's width plus 2 pt |
| FeuilleEmargement.EnteteForme | src/core/generation/emargement/genererFeuilleEmargement.ts:65-86 | the header shows the range label of the page's names at 16 mm, the title on the same line, and "Page n" 28 pt above the bottom, title and page label centred on the page |
| FeuilleEmargement.Lignes | src/core/generation/emargement/genererFeuilleEmargement.ts:91 | one row per name of the page |
| FeuilleEmargement.FermetureForme | src/core/generation/emargement/genererFeuilleEmargement.ts:148-172 | the closing rule is the bottom of the last row and joins the two outer vertical rules; every vertical rule runs from the first row's top to it; a full page closes 17 mm from the bottom |
| FeuilleEmargement.RenduLignes | src/core/generation/emargement/genererFeuilleEmargement.ts:91-146 | the loop draws one row per name, in order, each as the row specification says |
| FeuilleEmargement.RenduPageEmargement | src/core/generation/emargement/genererFeuilleEmargement.ts:50-175 | a page is the four 7 mm targets at 7 mm from the corners, the header, the rows of its names and the closing rules |
| FeuilleEmargement.GenererFeuilleEmargement | src/core/generation/emargement/genererFeuilleEmargement.ts:16-48 | ⌈n/35⌉ pages, page k drawn for names 35k to 35k+34 and numbered k+1, a new page added before each page except the first; the result is always false |
| FeuilleEmargement.FeuilletsIndex | src/core/generation/emargement/genererFeuilleEmargement.ts:16-48 | the sheets after p turns of the page loop are exactly p, sheet k being page k+1 of the k-th slice of 35 names, preceded by a new page unless k is 0 |
| Logger.ComposanteDeuxChiffres | src/utils/logger.ts:23-24 | a clock component below 100 is two decimal digits that read back as it, zero-padded below 10 |
| Logger.HorodatageForme | src/utils/logger.ts:23-24 | with components below 100 the stamp "[HH:MM:SS]" is ten characters, with each component in its fixed place |
| Logger.Crochets | src/utils/logger.ts:23-24 | three two-character parts joined by ':' inside brackets read back at their places |
| Logger.LogHeaderForme | src/utils/logger.ts:19-25 | the header opens on the black-on-white stamp, then the title's colour, then the title right-aligned on 18 characters with spaces and never cut, then reset, " \| " and white |
| Logger.EntetesAlignes | src/utils/logger.ts:19-25 | titles of at most 18 characters and colour codes of equal length give headers of equal length, so messages start in the same column |
| Logger.MessageIntact | src/utils/logger.ts:1-11 | the message appears unchanged between the header and the final reset |
| Logger.NiveauxParCouleur | src/utils/logger.ts:1-11 | the info, warning and error lines are identical except for the five characters of the title's colour code (cyan, yellow, red), so two levels never write the same line |
| Logger.LigneParStyle | src/utils/logger.ts:1-25 | a line is the clock part, the title's colour code, and a remainder that does not depend on the colour |
| Logger.Encadre | src/utils/logger.ts:1-25 | the three parts of a line read back at their places |
| UseFile.RecevoirDansOrdre | src/routes/useFile.ts:30-39 | when the first value is not empty, a field's entry lists every value in the order received: a plain string for one value, an array from the second on |
| UseFile.RecevoirVides | src/routes/useFile.ts:30-39 | values that are all empty leave no entry or an entry holding "" |
| UseFile.RecevoirVidesOublies | src/routes/useFile.ts:30-39 | leading empty values are forgotten: an empty first value is replaced by the next one rather than joined to it |
| UseFile.ConcatLongueur | src/routes/useFile.ts:53-63 | the size recorded for a file is the length of its buffer |
| UseFile.ConcatPrefixe | src/routes/useFile.ts:44-46 | the bytes of the first chunks open the buffer |
| UseFile.ConcatPlacement | src/routes/useFile.ts:44-63 | every chunk lies in the buffer unchanged, right after the chunks that arrived before it |
| UseFile.MessageErreurSource | src/routes/useFile.ts:66-68 | the message kept is the error's own text when it has one and "Erreur inconnue" otherwise, so it is empty only when that text is |
| UseFile.DecisionCorrecte | src/routes/useFile.ts:70-78 | the request is refused with 400 exactly when a non-empty message was recorded, with that message; a file over the limit and an unknown error are always refused; a passed-on request carries every recorded file |
| UseFile.Reception.constructor | src/routes/useFile.ts:24-28 | no field, no file and no error yet |
| UseFile.Reception.Champ | src/routes/useFile.ts:30-39 | the value is merged into its field's entry; no other field, no file and the error do not change |
| UseFile.Reception.OuvrirFichier | src/routes/useFile.ts:41-43 | a new stream for the file, with no chunk yet, reporting to this request |
| UseFile.Reception.Erreur | src/routes/useFile.ts:66-68 | the error's message is recorded; fields and files do not change |
| UseFile.Reception.Fermeture | src/routes/useFile.ts:70-78 | the close event answers as the decision says and changes nothing |
| UseFile.FluxFichier.constructor | src/routes/useFile.ts:41-43 | the stream of one file with its name and information, no chunk yet |
| UseFile.FluxFichier.Donnees | src/routes/useFile.ts:44-46 | the chunk is appended after those received before |
| UseFile.FluxFichier.Limite | src/routes/useFile.ts:48-51 | the "file too large" message is recorded; fields and files do not change |
| UseFile.FluxFichier.Fin | src/routes/useFile.ts:53-63 | the file is recorded last, with its chunks concatenated in arrival order and their total length; fields and the error do not change |
| Lecture.CompteurLectures.constructor | src/core/services/lectures/LectureDocument.ts:13 | the counter starts at 1 with no id handed out |
| Lecture.LectureDocument.constructor | src/core/services/lectures/LectureDocument.ts:35-39 | the reading takes the counter's value as its id and advances it by one, so its id differs from every id handed out before; no page read yet; name, page count and debug settings as given |
| Texte.NatToString | src/utils/logger.ts:23 | a number's template-literal text is decimal digits with no leading zero |
| Texte.NatToStringRoundTrip | src/utils/logger.ts:23 | reading the decimal text back gives the number |
| Texte.PadStart | src/utils/logger.ts:24 | padStart keeps the text as its suffix, fills only with spaces in front, and reaches the width unless the text is longer |
| Texte.SplitJoin | src/core/services/database/Database.ts:172 | joining the pieces of a split with the separator gives back the text |
| Texte.SplitSansSeparateur | src/core/services/database/Database.ts:172 | no piece of a split holds the separator |
| Texte.SplitSeparateur | src/core/services/database/Database.ts:172 | splitting two texts joined by the separator gives the pieces of the first, then those of the second |
| Texte.CasseStable | src/core/generation/emargement/renduEnteteEmargement.ts:33 | upper- and lower-casing are idempotent and upper-casing after lower-casing gives the capitals alone; lower-casing after upper-casing gives the lower case alone on every text without ß or the micro sign |
| Texte.Majuscule | src/core/generation/emargement/renduEnteteEmargement.ts:15 | toUpperCase of one character is one character, except ß, which gives the two letters "SS"; no capital is ß |
| Texte.MajusculeTexte | src/core/generation/emargement/renduTableauEmargement.ts:71 | toUpperCase never shortens a text, and keeps its length when it holds no ß |
| Texte.MajusculeConcat | src/core/generation/emargement/renduTableauEmargement.ts:71 | upper-casing a concatenation gives the concatenation of the upper-cased parts |
| Texte.MinusculeConcat | src/core/generation/emargement/renduEnteteEmargement.ts:33 | lower-casing a concatenation gives the concatenation of the lower-cased parts |
| Texte.MinusculeTete | src/core/generation/emargement/renduEnteteEmargement.ts:33 | lower-casing a text is lower-casing its first character, then the rest |
| Texte.CasseCaractere | src/core/generation/emargement/renduEnteteEmargement.ts:33 | on one character each casing is idempotent and lower-casing first leaves the capitals as they were; any character but ß and the micro sign lower-cases back from its capital to its own lower case |
| Texte.MajusculeIdempotente | src/core/generation/emargement/renduTableauEmargement.ts:71 | upper-casing twice is upper-casing once |
| Texte.MinusculeIdempotente | src/core/generation/emargement/renduEnteteEmargement.ts:33 | lower-casing twice is lower-casing once |
| Texte.MajusculeApresMinuscule | src/core/generation/emargement/renduEnteteEmargement.ts:33 | upper-casing after lower-casing gives what upper-casing alone gives |
| Texte.MinusculeApresMajuscule | src/core/generation/emargement/renduEnteteEmargement.ts:33 | on a text without ß or the micro sign, lower-casing after upper-casing gives what lower-casing alone gives |
| Texte.CasseExceptions | src/core/generation/emargement/renduTableauEmargement.ts:71 | ß upper-cases to "SS", which lower-cases to "ss"; the micro sign comes back from its capital as the Greek μ; "Weiß" upper-cases to "WEISS" |
| Texte.CasseInverse | src/core/generation/emargement/renduEnteteEmargement.ts:33 | each ASCII lower-case letter has a different one-letter capital, which lower-cases back to it |
| Geometrie.JsRound | src/core/lecture/preparation/realignerCorrigerScan.ts:41 | Math.round gives the integer nearest its argument, halves rounded up |

## Left out

- DecoupeROIs.DecouperROIs, DecoupeROIsLegacy.DecouperROIs: require the effective zone (the A4 format minus the margins) to have a positive size. With a zero size, JavaScript divides by zero and crops with Infinity or NaN, which this model does not represent.
- The `!imgObj` checks after the selection (src/core/lecture/preparation/conversion/pdfToBuffer.ts:57-59, src/lecture/preparation/conversion/pdfToCanvas.ts:64-66) cannot fail in the model: a page is given with every object its operators name already resolved, as pdf.js hands them out.
- Drawing the RGBA buffer on a node-canvas and printing its data URL (src/lecture/preparation/conversion/pdfToCanvas.ts:78-84) are left out. So is the loop in `pdfToCanvas_WIP` that loads a PDF from a path.
- The native libraries are inputs, not code. These are the OpenCV thresholding and contour finding, minEnclosingCircle, the perspective transform and warp, sharp, pdf.js, tfjs, tesseract, the apriltag detector, PDFKit, dayjs, busboy and mysql. The model takes their outputs as given values and does not check what they compute.
- The promises of sharp's `metadata`, pdf.js's `getPage`, `getOperatorList` and `getDocument`, and tfjs's `data` are taken as resolved: their outputs are inputs, and a rejection of theirs is not represented.
- All numbers are exact reals. Floating-point rounding and Infinity are not modelled, and NaN only in the EMNIST readers' maximum (`NombreJS`).
- Math.sqrt is not modelled. Distances are compared squared, which picks the same nearest point.
- Math.random is a nondeterministic choice: the model proves what holds for every draw.
- Files, the console, the clock, the network and HTTP responses are not modelled. They are parameters, or the model returns what would be written.
- Asynchronous code runs in program order. Concurrent interleavings are not modelled, except that the shared model load of TensorFlowCNN is kept as explicit state.
- APRILTAGS_IDS is not part of this model; it is a parameter of four ids.
- Texte.MajusculeTexte, Texte.MinusculeTexte: toUpperCase and toLowerCase are modelled for ASCII, Latin-1 (ß as "SS", ÿ as Ÿ, the micro sign as Greek Μ) and the capitals these produce. Other scripts (Greek, Cyrillic, Latin Extended and so on) and the context-dependent special casings (final sigma, dotted I) are not modelled: their characters are left as they are.
- Text measurement (widthOfString, heightOfString, currentLineHeight) is a parameter, as is dayjs's formatting of an instant.
- PDFKit's `baseline: 'middle'`, colours, line widths and the `ellipsis` option are not recorded on the drawing elements.
- renduPiedPageEmargement is not part of this model.
- The ErreurAprilTag wrapping of a failed target drawing in renduPageEmargement is left out, because target generation cannot fail in the model.
- The per-corner "best candidate" block of detecterCiblesConcentriques.ts:90-145 is left out. It refers to names that are never defined. The model keeps, for each corner, the candidate nearest its edge, as the comment at line 90 intends.
- preparerScan.ts is left out (it does not compile as shown, `ordreTags` at line 53), as is the rest of the orchestration.
- The concentric targets are generated at 5 mm size and 10 mm margin and read at 10 mm and 10 mm. The model keeps each value where the source uses it and does not reconcile them.
- CodeAnonymat.Tirer: requires a non-empty alphabet when the code length is positive. GenererCodesHamming never calls it otherwise, because the number of words is then 0.
- CodeAnonymat: the code length is a nat. A negative or fractional length, which JavaScript would accept, is not modelled.
- Role: permission masks are 32-bit vectors. Masks of 32 bits or more read from the database are not modelled.
- TensorFlowCNN: the network, resizeBilinear and the softmax are foreign. ChargementPartage and NouvelEssai are scenario methods that exercise the load cache; they carry no ensures of their own.
- Database.query and Database.execute are calls into the mysql pool. The model records each statement sent; the answer to an execute is a parameter, a function of the statements sent before it, and the answer to each query (its rows or its rejection) is an input. Database.creerTransaction and the Transaction class are left out.
- InterpretationXLSX: the database's answer to each insert is a parameter, a function of the writes sent before it; the session lookup's answer and a failed getAll are inputs. What the two getAll calls load is given to the Caches constructor as two maps.
- DecoupeROIs.DecouperROIs: matToSharp and the deletion of the Mat view are not modelled; the crop handed to onDecoupe is its rectangle. The callback's answer is a parameter, a function of the call.
- DecoupeROIsLegacy.DecouperROIs: sharp checks only the types and signs of the extract parameters when extract is called; an area of zero width or height, or one that leaves the image, fails later, when the crop is read. That happens inside onDecoupe, so the model counts it as a rejection of that call.
- DatabaseCacheBase.DatabaseCacheBase.DeleteTelleQuEcrite: what the unhandled rejection at the end of the detached chain does to the Node process is not modelled.
- Emnist: reading files, downloading datasets, `melanger` (a random shuffle), one-hot labels, model creation and training are left out.
- ScanData.channels is an int. The source's cast to 1 | 3 | 4 is not checked there, as ImgToBuffer.DeuxCanauxAcceptes shows.
- UseFile: busboy's enforcement of its limits of one file and 100 MiB (which event it raises, and when) is outside the model. Inherited Object.prototype keys in `fields` are not modelled.
- The debug visualisers, the Python training scripts, the HTTP routes other than useFile, the zod schemas, the entity DTOs and the thin cache subclasses are left out. They hold drawing, I/O, mock data or plain field copies.

## Findings

| source | as written | input that shows it | evidently intended | confidence | as-written member | corrected member |
|---|---|---|---|---|---|---|
| src/core/lecture/preparation/reorientation/remapperCiblesConcentriques.ts:26-34 | a rotation by 90·k moves the detection at corner c to corner (c + k) mod 4 | the targets of a sheet rotated so that orientationCiblesConcentriques reads 90: after remapping by 90 they read −1 instead of 0 | move each corner where the rotation puts it: with the numbering HG 0, HD 1, BG 2, BD 3, a rotation is not an addition mod 4 | not executed | RemapCibles.DecalageNeReorientePas | RemapCibles.RemapperCorrige, RemapCibles.CorrigeReoriente |
| src/core/lecture/preparation/conversion/pdfToBuffer.ts:70-77 | 1-bit pixels are unpacked as one continuous bit stream | a 3 × 2 image stored as bytes 0x00, 0xE0: pixel (0, 1) comes out 0 instead of 255 | each row of a 1-bit image starts on a byte boundary (ISO 32000-1, section 8.9.3), so each row is unpacked from its own bytes | not executed | ConversionPdf.RemplissageIgnore, ConversionPdf.Decompacte | ConversionPdf.DecompacterLignes, ConversionPdf.DecompacteLignesPixel |
| src/cache/base/DatabaseCacheBase.ts:121-130 | delete ends with `this.delete(id)`, which calls delete itself instead of the inherited one, without awaiting it | any call to delete whose DELETE succeeds: the call resolves, get(id) still finds the element, the same DELETE has been sent twice and a detached chain sends it again after every success | remove the element from the in-memory cache (`super.delete(id)`) after the DELETE | not executed | DatabaseCacheBase.DatabaseCacheBase.DeleteTelleQuEcrite, DatabaseCacheBase.SuppressionTelleQuEcrite, DatabaseCacheBase.SuppressionSansFin | DatabaseCacheBase.DatabaseCacheBase.Delete |
| src/core/generation/emargement/renduEnteteEmargement.ts:39 | `dayjs(epreuve.dateEpreuve * 1000)` reads the stored number as seconds | an épreuve on 20 May 2026 at 10:00 UTC, stored by interpretationXLSX.ts:86 as minute 29654520, is shown on 10 December 1970 at 05:22 UTC | read the stored minutes: multiply by 60000 | not executed | EnteteEmargement.DateHorsEchelle, EnteteEmargement.DateHorsEchelleExemple | EnteteEmargement.DateCorrigee, EnteteEmargement.RenduEnteteEmargement |
| src/core/services/database/Database.ts:147 | the patch path goes up three directories from src/core/services/database | any patch number N: the file is looked for at src/config/schemas/patch-N.sql | go up four directories, as for initial.sql at line 98, to config/schemas/patch-N.sql | not executed | Database.PatchHorsSchemas | Database.PatchAvecSchemas, Database.Database.ExecuterPatchs |
