# Skybox cubemap tool — a verified model

This project models the exact-arithmetic core of a tool that turns an
equirectangular panorama into the six faces of a game skybox. The tool has two
revisions:

- `skybox_architect.py` renders previews on a background thread and exports a
  `.pk3` (zip) archive.
- `jk2_skybox_creator.py` is the older, single-threaded revision. It writes six
  JPEG files into a folder.

The model covers:

- **Face directions** (`Geometry`). A pixel index becomes a normalised
  coordinate `t = 2(i + 0.5)/n - 1`. The six-entry face table gives the
  unrotated view vector of each face. A pitch step and then a yaw step rotate
  it; each step takes its cosine and sine as an `Angle` on the unit circle.
- **Bilinear sampling** (`Sampler`). A panorama coordinate is clipped with
  numpy's `clip` semantics, then floored to an integer index. There are two
  neighbour policies:
  - the architect's clamp (clip to `n - 1.001`, neighbour clipped to `n - 1`);
  - the older revision's wrap (clip to `n - 1`, neighbour taken modulo `n`).

  numpy's negative indices are modelled, and so are the four bilinear weights.
  The `uint8` cast is modelled as the floor of a nonnegative sum.
- **The top/bottom correction** (`FaceTransform`). The top and bottom faces are
  flipped vertically and then turned by `rot` degrees clockwise. PIL's
  `rotate(-rot)` is, for a square image, a permutation of pixels. The other
  four faces pass through unchanged. The preview and the export apply this
  same correction.
- **Export naming** (`Naming`, `Export`):
  - the prefix is stripped and falls back to `sky`, and the archive name to
    `skybox`;
  - each face has a two-letter suffix;
  - the extension and encoding follow the chosen format;
  - archive paths are `textures/skies/{prefix}_{suffix}{ext}`, and folder
    paths are built with POSIX path joining;
  - export entries come in the fixed face order.
- **The two sessions** (`SkyboxArchitect.SkyboxSmartFix`,
  `Jk2SkyboxCreator.SkyboxSmartFix`). These are classes whose methods update
  the rotation table, the flip and the offsets, the rendered faces, the
  preview cache, the busy flag and the export button, as the event handlers of
  the source do.

The floating-point mapping from a view direction to panorama coordinates uses
`np.radians`, `cos`, `sin`, `arctan2`, `arcsin` and `sqrt`. It enters the model
as a parameter, the `Projection` datatype, which holds the angle conversion and
the direction-to-`(u, v)` map. Everything after `(u, v)` is exact.

## Behaviour of note

- Results carry no sequence numbers. Every finished render is published, so a
  late preview can overwrite newer faces in the preview cache.
- The export button is created disabled in both revisions. Only a completed
  render enables it: the final tier in the architect, any render in the older
  revision. The architect disables it again at every import. So an export is
  refused before a render by the disabled control. The export handlers do not
  check for faces themselves:
  - `save_pk3` skips faces it has no image for;
  - the older `save` fails on the first missing face.

  Neither path can be reached while the button is disabled. In the model,
  `SkyboxArchitect.SkyboxSmartFix.SavePk3` writes all six faces whenever
  export is enabled. `Jk2SkyboxCreator.SkyboxSmartFix.Save` succeeds exactly
  when export is enabled.
- A panorama of zero width or height is accepted at load time. The render then
  fails when it divides by zero in the aspect-ratio correction. The architect
  clears its busy flag; the older revision leaves everything unchanged.
- A failed decode in the architect still leaves export disabled. The faces of
  the earlier panorama are kept. A cancelled open dialog returns before export
  is disabled, so it changes nothing.

## Model

| member | source | states |
|---|---|---|
| Geometry.FaceNamed | skybox_architect.py:23-29 | a face name maps to the face it names, and a name that is not one of the six yields None |
| Geometry.Ndc | skybox_architect.py:20-21 | for every pixel index below the size, the normalised coordinate lies strictly inside (-1, 1) |
| Geometry.NdcAntisymmetric | jk2_skybox_creator.py:112-113 | mirrored pixel indices get opposite coordinates: t(n-1-i) = -t(i) |
| Geometry.FaceVector | skybox_architect.py:23-28 | each face's unrotated vector has its own axis fixed at the face's sign (front +x, back -x, left +y, right -y, top +z, bottom -z), and every other component is one of ±tx, ±ty |
| Geometry.FaceVectorPointsIntoFace | jk2_skybox_creator.py:115-120 | for coordinates inside (-1, 1), exactly the fixed axis has magnitude 1, and the vector's dominant axis names the face back |
| Geometry.FacesGiveDistinctDirections | skybox_architect.py:23-28 | two different faces never produce the same unrotated vector |
| Geometry.PlanarRotationPreservesLength | skybox_architect.py:34-42 | with c² + s² = 1, each of the two planar rotations preserves the squared length of the pair it turns |
| Geometry.RotationPreservesLength | skybox_architect.py:34-42 | pitch then yaw, with both angles on the unit circle, preserves squared length |
| Geometry.FaceVectorLength | skybox_architect.py:23-28 | no unrotated face vector is shorter than 1, so none is zero |
| Geometry.RotatedLength | jk2_skybox_creator.py:122-134 | a vector of squared length at least 1 stays normalisable under pitch then yaw: squared length at least 1 and z² at most the squared length |
| Geometry.DirectionWellDefined | skybox_architect.py:52-54 | the magnitude is positive and rz/mag lies in [-1, 1], so the arcsine is defined for every pixel of every face |
| Geometry.CubemapCoordinates | skybox_architect.py:16-44 | None exactly for an unknown face name; otherwise a size×size grid holding at (y, x) the rotated direction of that pixel of the named face, each normalisable (squared length at least 1, z² at most the squared length) |
| Sampler.PyIndex | skybox_architect.py:73-76 | a numpy index in [-n, n) reads element i or n+i, always in bounds |
| Sampler.ClampTap | skybox_architect.py:61-68 | after clipping to [0, n-1.001]: index plus fraction equals the clipped coordinate, the fraction is in [0, 1), both reads are in bounds, and for n ≥ 2 the base index is in [0, n-2] with its neighbour just after it |
| Sampler.WrapTap | jk2_skybox_creator.py:140-146 | after clipping to [0, n-1]: both indices are in bounds, the fraction is in [0, 1), and the neighbour is either the next index or wraps to 0 with fraction exactly 0 (the wrapped column gets no weight) |
| Sampler.TapOf | jk2_skybox_creator.py:144-145 | under either policy both reads are in bounds and the fraction is in [0, 1) |
| Sampler.Weights | skybox_architect.py:70-78 | the four bilinear weights are nonnegative and sum to 1 |
| Sampler.ConvexCombinationBounds | jk2_skybox_creator.py:148-149 | a combination with such weights lies between the least and the greatest of its four values |
| Sampler.BlendChannel | skybox_architect.py:78 | each output channel after the uint8 cast lies between the least and greatest of its four texels, hence in [0, 255] |
| Sampler.Sample | skybox_architect.py:73-78 | every channel of a sampled pixel lies within the range of the four texels it reads |
| Sampler.UniformSample | skybox_architect.py:73-78 | sampling a panorama of one colour yields that colour, whatever the coordinates and the policy |
| Sampler.RenderFace | skybox_architect.py:47-78 | a rendered face is size×size |
| Sampler.UniformPanoramaUniformFace | jk2_skybox_creator.py:108-151 | a panorama of one colour renders every face, at every offset and size, in that colour |
| FaceTransform.NextRotation | skybox_architect.py:296 | a press of the rotate button keeps the angle in {0, 90, 180, 270} and always changes it |
| FaceTransform.FourPressesRestoreRotation | jk2_skybox_creator.py:82 | four presses bring the angle back to its value |
| FaceTransform.RotationOf | skybox_architect.py:290 | the angle used for a face is a quarter angle, and 0 for the four side faces |
| FaceTransform.FlipVerticalInvolution | skybox_architect.py:289 | flipping twice gives the image back, and a flipped square image is square |
| FaceTransform.QuarterTurn | skybox_architect.py:291 | a quarter turn of a square image is square with the same side |
| FaceTransform.QuarterTurnAt | skybox_architect.py:291 | the clockwise quarter turn puts source pixel (n-1-j, i) at (i, j) |
| FaceTransform.TurnsAdd | skybox_architect.py:291 | a turns followed by b turns is a + b turns |
| FaceTransform.FourQuarterTurns | skybox_architect.py:291 | four quarter turns give the image back |
| FaceTransform.FourTurnsIdentity | skybox_architect.py:291 | turning four times is the identity |
| FaceTransform.TurnsModFour | skybox_architect.py:291 | turning k times equals turning k mod 4 times |
| FaceTransform.PostProcess | skybox_architect.py:288-291 | the corrected face is square with the same side, and the four side faces are returned unchanged |
| FaceTransform.RotateButtonTurnsFace | skybox_architect.py:295-297 | after a press of the rotate button, the corrected top or bottom face is the previous one turned a further quarter clockwise |
| FaceTransform.CapCorrection | skybox_architect.py:335-338 | a corrected top or bottom face is the face, flipped when the flip is on, turned rot/90 times |
| FaceTransform.PostProcessInvertible | skybox_architect.py:335-338 | the correction loses nothing: undoing the turns and then the flip gives the rendered face back |
| FaceTransform.TurnsComplement | skybox_architect.py:291 | k turns followed by (4-k) mod 4 turns give the image back |
| FaceTransform.Corrected | jk2_skybox_creator.py:157-163 | the corrected face set has the same faces, all square, and the side faces are unchanged |
| Naming.Strip | skybox_architect.py:317 | the stripped prefix is a contiguous slice of the input, everything removed is whitespace, and neither end of the result is whitespace |
| Naming.StripEmptyIffBlank | skybox_architect.py:317 | stripping yields the empty string exactly when the input is all whitespace |
| Naming.OutputPrefix | skybox_architect.py:317 | the file prefix is never empty: `sky` for a blank entry, the stripped entry otherwise |
| Naming.ArchiveStem | skybox_architect.py:307 | the archive name is never empty: `skybox` for a blank entry, the stripped entry otherwise |
| Naming.Suffix | skybox_architect.py:318 | every face's suffix has two characters |
| Naming.FaceOfSuffix | jk2_skybox_creator.py:173 | a suffix read back names a face whose suffix it is |
| Naming.SuffixRoundTrip | skybox_architect.py:318 | each face's suffix is read back as that face, so the six suffixes are distinct |
| Naming.Extension | skybox_architect.py:320 | the extension is `.tga` for the TGA format and `.jpg` for any other |
| Naming.EncodingFor | skybox_architect.py:321-322 | TGA is chosen exactly for the TGA format; otherwise JPEG at the chosen quality, consistent with the extension |
| Naming.FileNameRoundTrip | jk2_skybox_creator.py:184 | a face's file name `{prefix}_{suffix}{ext}` is read back as that face |
| Naming.FileNamesDistinct | jk2_skybox_creator.py:184 | two different faces get different file names |
| Naming.ArchivePathRoundTrip | skybox_architect.py:346 | an archive path lies under `textures/skies/`, ends with the extension and is read back as its face |
| Naming.ArchivePathsDistinct | skybox_architect.py:346 | two different faces get different archive paths |
| Naming.JoinPath | jk2_skybox_creator.py:185 | a joined path ends with the file name, and starts with the folder when the file name is relative |
| Naming.JoinedFileNamesDistinct | jk2_skybox_creator.py:185 | joined to one folder, the files of two different faces are at different paths |
| Export.PlacedFileNamesDistinct | skybox_architect.py:346-347 | under either placement, two different faces get different paths |
| Export.ExportEntriesStep | skybox_architect.py:330-347 | one more face in the list appends exactly that face's entry when it has an image, and nothing otherwise |
| Export.ExportEntriesSound | skybox_architect.py:330-347 | every export entry is for a listed face that has an image, at its placed file name, holding the face under the same correction the preview applies, with the requested encoding |
| Export.ExportEntriesAllPresent | skybox_architect.py:330-333 | when every face has an image, no face is skipped: one entry per listed face |
| Export.ExportEntriesComplete | skybox_architect.py:330-333 | every listed face that has an image gets an entry |
| Export.ExportEntriesDistinct | skybox_architect.py:330-347 | when the face list has no repeats, no two entries share a face or a path |
| Geometry.SameOnEveryFace | skybox_architect.py:259-264 | two face maps that agree on each face of the generation order are equal and hold all six faces |
| Export.FacesDistinctAndComplete | skybox_architect.py:259 | the face order lists each of the six faces exactly once |
| SkyboxArchitect.SkyboxSmartFix.constructor | skybox_architect.py:87-102 | the initial state: no panorama or faces, not busy, export disabled, angles top 270 and bottom 90, flip on, offsets 0, prefix `sky`, archive `my_skybox`, size 1024, JPG at quality 100 |
| SkyboxArchitect.SkyboxSmartFix.LoadImage | skybox_architect.py:216-235 | export is disabled; a decoded image becomes the panorama, with its stem as prefix and archive name, and a preview then a final render are requested; a failed decode changes nothing else |
| SkyboxArchitect.SkyboxSmartFix.OnSliderDrag | skybox_architect.py:237-241 | the offsets are stored, and a preview is requested exactly when a panorama is loaded and no render is running |
| SkyboxArchitect.SkyboxSmartFix.TriggerHighRes | skybox_architect.py:246-250 | a final render is requested exactly when a panorama is loaded |
| SkyboxArchitect.SkyboxSmartFix.OnSliderRelease | skybox_architect.py:243-244 | releasing a slider requests a final render exactly when a panorama is loaded |
| SkyboxArchitect.SkyboxSmartFix.SelectSize | skybox_architect.py:127 | the size is stored, and a final render is requested exactly when a panorama is loaded |
| SkyboxArchitect.SkyboxSmartFix.SetFlip | skybox_architect.py:152 | the flip setting is stored and the session stays consistent |
| SkyboxArchitect.SkyboxSmartFix.Rendered | skybox_architect.py:257-264 | a render produces all six faces, each square |
| SkyboxArchitect.SkyboxSmartFix.WorkerProcess | skybox_architect.py:255-267 | the render succeeds exactly when a panorama of nonzero width and height is loaded; the busy flag is left set exactly on success; the result holds each of the six faces rendered with the clamp policy at 256 for a preview and the chosen size otherwise; the session stays consistent |
| SkyboxArchitect.SkyboxSmartFix.GenerationComplete | skybox_architect.py:269-281 | given the six faces the render thread produces, both tiers clear the busy flag and merge the result into the preview cache; a preview leaves the export faces and the export button alone; a final render replaces the export faces, enables export, and every shown face is then the exported face under the same correction |
| SkyboxArchitect.SkyboxSmartFix.RotateFaceLogic | skybox_architect.py:295-297 | succeeds exactly for top and bottom, advancing only that face's angle by 90 modulo 360; otherwise the table is unchanged |
| SkyboxArchitect.SkyboxSmartFix.ResetSettings | skybox_architect.py:299-304 | offsets 0, default angles and flip on, independent of the old state, so a second reset changes nothing; a reset from the defaults leaves every preview unchanged; a final render is requested when a panorama is loaded |
| SkyboxArchitect.SkyboxSmartFix.SavePk3 | skybox_architect.py:306-347 | a cancelled dialog writes nothing; otherwise the archive at the chosen path holds the export entries for the faces present, in face order, under `textures/skies/` with the stripped prefix, the format's extension and encoding, and the preview correction; while export is enabled it holds all six faces |
| SkyboxArchitect.ArchiveContents | skybox_architect.py:328-347 | an archive has at most one entry per face, no two at the same path, an entry for every rendered face, each at `textures/skies/{prefix}_{suffix}{ext}` and holding the face under the correction the preview applies |
| Jk2SkyboxCreator.SkyboxSmartFix.constructor | jk2_skybox_creator.py:14-24 | the initial state: no panorama or faces, export disabled, angles top 270 and bottom 90, flip on, prefix `sky`, size 1024, offsets 0 |
| Jk2SkyboxCreator.SkyboxSmartFix.Rendered | jk2_skybox_creator.py:108-151 | a render produces all six faces, each square |
| Jk2SkyboxCreator.SkyboxSmartFix.ProcessMath | jk2_skybox_creator.py:93-154 | without a usable panorama nothing changes; otherwise all six faces are replaced by their wrap-policy renderings at the current size and offsets and export is enabled; faces are always all present or all absent, and export is enabled exactly when they are present |
| Jk2SkyboxCreator.SkyboxSmartFix.LoadImage | jk2_skybox_creator.py:85-90 | a failed import changes nothing; a decoded image becomes the panorama with its stem as prefix and is rendered |
| Jk2SkyboxCreator.SkyboxSmartFix.Drag | jk2_skybox_creator.py:44-51 | the offsets are stored and, when a panorama is loaded, the faces are rendered again at them |
| Jk2SkyboxCreator.SkyboxSmartFix.SelectSize | jk2_skybox_creator.py:39-40 | the size is stored and, when a panorama is loaded, every face is rendered again at that size |
| Jk2SkyboxCreator.SkyboxSmartFix.SetFlip | jk2_skybox_creator.py:53 | the flip setting is stored and the session stays consistent |
| Jk2SkyboxCreator.SkyboxSmartFix.Rotate | jk2_skybox_creator.py:81-83 | succeeds exactly for top and bottom, advancing only that face's angle by 90 modulo 360; otherwise the table is unchanged |
| Jk2SkyboxCreator.SkyboxSmartFix.ResetSettings | jk2_skybox_creator.py:74-79 | offsets 0, default angles and flip on; the faces are rendered again only when a panorama is loaded |
| Jk2SkyboxCreator.SkyboxSmartFix.Save | jk2_skybox_creator.py:168-187 | a cancelled dialog writes nothing; the export succeeds exactly when export is enabled, writing the six corrected faces as `{prefix}_{suffix}.jpg` at JPEG quality 100, joined to the folder, in face order; otherwise it stops at the front face having written nothing |

## Left out

- The trigonometry and the direction-to-panorama map (`np.radians`, `cos`, `sin`, `arctan2`, `arcsin`, `sqrt`, and the `u`/`v` formulas with the aspect-ratio correction) are floating point. They are the `Projection` parameter. The model proves that the arcsine argument is defined, but not the values of these functions.
- Floating-point rounding is not modelled: the source computes pixel coordinates and blended sums in `float32` and `float64` arrays. All arithmetic here is exact over the reals.
- The preview resize to 160 pixels (NEAREST for previews, LANCZOS for finals) and the display widgets are not modelled. The preview cache holds the rendered face itself.
- Threads are not modelled. The render thread and the completion callback are two sequential events, `WorkerProcess` and `GenerationComplete`. Requested renders are returned as a list of tiers rather than started, and interleavings of concurrent renders are not modelled.
- The save dialogs are parameters: the chosen folder or save path, with the empty string for a cancelled dialog. The open dialog is not a parameter. A cancelled import changes nothing, so it is modelled by not calling `LoadImage`.
  - Taking a file stem with `basename`/`splitext` is not modelled; the stem is a parameter.
  - The dialog's default `.pk3` extension and its suggested name are not modelled. `Naming.ArchiveStem` states the suggested name.
- Decoding an image (`Image.open`, `convert`) is a parameter: `None` for a file that fails to open.
- JPEG and TGA encoding, zip compression and file writes are not modelled. An export is the list of entries it writes: path, face, corrected image and encoding. Write failures and the status messages about them are not modelled.
- Status text, the progress bar and message boxes are not modelled.
- Typing into the prefix and archive-name fields, the format menu and the quality slider are plain assignments to the corresponding fields. They have no methods.
- SkyboxArchitect.SkyboxSmartFix.WorkerProcess: does not model the render reading the panorama and settings while other events change them.
- Naming.JoinPath: models POSIX path joining (`posixpath.join`). On Windows, `os.path` joins with `\` and treats drive letters differently, and that platform's joining is not modelled.
- Sampler.RenderFace: states only the shape of a face. Its pixels are stated pointwise by `Sampler.Sample` and `Sampler.UniformPanoramaUniformFace`.
