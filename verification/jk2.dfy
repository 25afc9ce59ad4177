/**
 * The session state of jk2_skybox_creator.py, the earlier single-threaded
 * revision (class SkyboxSmartFix): every settings change re-renders all six
 * faces at the selected size, sampling with horizontal wrap-around, and the
 * export writes six JPEG files (quality 100) into a chosen folder.
 */
module Jk2SkyboxCreator {
  import opened Wrappers
  import opened Geometry
  import opened Sampler
  import opened FaceTransform
  import opened Naming
  import opened Export

  /**
   * How an export ends: cancelled in the folder dialog, written completely,
   * or stopped at the first face without an image, after `written`.
   */
  datatype SaveOutcome = Cancelled | Saved(files: seq<Entry>) | Failed(written: seq<Entry>, missing: Face)

  /** The extension and encoding of every exported face. */
  const JpegExtension: string := ".jpg"
  const MaxQuality: Encoding := Jpeg(100)

  class SkyboxSmartFix {
    var panorama: Option<Raster>
    var faceImages: map<Face, Image>
    var faceRotations: map<Face, int>
    var flipUp: bool
    var prefix: string
    var size: nat
    var yaw: real
    var pitch: real
    var saveEnabled: bool

    /**
     * Faces are only ever written all six at a time, and the export button is
     * enabled exactly when they have been.
     */
    ghost predicate Valid()
      reads this
    {
      && RotationsValid(faceRotations)
      && ImagesSquare(faceImages)
      && (HasNoFaces(faceImages) || HasAllFaces(faceImages))
      && (saveEnabled <==> HasAllFaces(faceImages))
    }

    constructor ()
      ensures Valid()
      ensures panorama == None && faceImages == map[] && !saveEnabled
      ensures faceRotations == DefaultRotations && flipUp && yaw == 0.0 && pitch == 0.0
      ensures prefix == "sky" && size == 1024
    {
      panorama := None;
      faceImages := map[];
      faceRotations := DefaultRotations;
      flipUp := true;
      prefix := "sky";
      size := 1024;
      yaw := 0.0;
      pitch := 0.0;
      saveEnabled := false;
      new;
      assert Front !in faceImages;
    }

    /** The six faces of a panorama at the current size and offsets, sampled with wrap-around. */
    function Rendered(p: Raster, proj: Projection): (m: map<Face, Image>)
      reads this
      requires Samplable(p)
      ensures HasAllFaces(m) && ImagesSquare(m)
    {
      AllFacesComplete();
      map f | f in AllFaces :: RenderFace(p, Wrap, proj, f, size, yaw, pitch)
    }

    /**
     * The render: without a panorama nothing happens, and with one of zero
     * width or height the aspect-ratio division fails before any face is
     * written. Otherwise each face in turn is replaced by its new rendering,
     * and export is enabled.
     */
    method ProcessMath(proj: Projection)
      requires Valid()
      modifies this`faceImages, this`saveEnabled
      ensures Valid()
      ensures panorama.None? || !Samplable(panorama.value) ==>
                faceImages == old(faceImages) && saveEnabled == old(saveEnabled)
      ensures panorama.Some? && Samplable(panorama.value) ==>
                faceImages == Rendered(panorama.value, proj) && saveEnabled
    {
      if panorama.None? || !Samplable(panorama.value) {
        return;
      }
      var p := panorama.value;
      ghost var target := Rendered(p, proj);
      for i := 0 to |Faces|
        invariant forall k :: 0 <= k < i ==> Faces[k] in faceImages && faceImages[Faces[k]] == target[Faces[k]]
      {
        faceImages := faceImages[Faces[i] := RenderFace(p, Wrap, proj, Faces[i], size, yaw, pitch)];
      }
      SameOnEveryFace(faceImages, target);
      saveEnabled := true;
    }

    /**
     * Import: a cancelled dialog or an image that fails to open changes
     * nothing; otherwise the image becomes the panorama, its file stem the
     * prefix, and the faces are rendered.
     */
    method LoadImage(stem: string, decoded: Option<Raster>, proj: Projection)
      requires Valid()
      modifies this`panorama, this`prefix, this`faceImages, this`saveEnabled
      ensures Valid()
      ensures decoded.None? ==> panorama == old(panorama) && prefix == old(prefix) &&
                                faceImages == old(faceImages) && saveEnabled == old(saveEnabled)
      ensures decoded.Some? ==> panorama == decoded && prefix == stem
      ensures decoded.Some? && Samplable(decoded.value) ==>
                faceImages == Rendered(decoded.value, proj) && saveEnabled
      ensures decoded.Some? && !Samplable(decoded.value) ==>
                faceImages == old(faceImages) && saveEnabled == old(saveEnabled)
    {
      if decoded.Some? {
        panorama := decoded;
        prefix := stem;
        ProcessMath(proj);
      }
    }

    /** A slider moved: the offsets are stored and the faces rendered again. */
    method Drag(newYaw: real, newPitch: real, proj: Projection)
      requires Valid()
      modifies this`yaw, this`pitch, this`faceImages, this`saveEnabled
      ensures Valid() && yaw == newYaw && pitch == newPitch
      ensures panorama.Some? && Samplable(panorama.value) ==>
                faceImages == Rendered(panorama.value, proj) && saveEnabled
      ensures panorama.None? || !Samplable(panorama.value) ==>
                faceImages == old(faceImages) && saveEnabled == old(saveEnabled)
    {
      yaw, pitch := newYaw, newPitch;
      ProcessMath(proj);
    }

    /** A size chosen in the size menu: the faces are rendered again at that size. */
    method SelectSize(n: nat, proj: Projection)
      requires Valid()
      modifies this`size, this`faceImages, this`saveEnabled
      ensures Valid() && size == n
      ensures panorama.Some? && Samplable(panorama.value) ==>
                faceImages == Rendered(panorama.value, proj) && saveEnabled &&
                forall f :: f in faceImages ==> |faceImages[f]| == n
      ensures panorama.None? || !Samplable(panorama.value) ==>
                faceImages == old(faceImages) && saveEnabled == old(saveEnabled)
    {
      size := n;
      ProcessMath(proj);
    }

    /** The flip checkbox: only the displayed previews change. */
    method SetFlip(on: bool)
      requires Valid()
      modifies this`flipUp
      ensures Valid() && flipUp == on
    {
      flipUp := on;
    }

    /** The six preview labels: every rendered face after the top/bottom correction. */
    function Previews(): map<Face, Image>
      reads this
      requires Valid()
    {
      Corrected(faceImages, flipUp, faceRotations)
    }

    /**
     * A rotate button: the angle of top or bottom advances by 90 degrees
     * modulo 360; a face without an angle fails the lookup and nothing changes.
     */
    method Rotate(face: Face) returns (ok: bool)
      requires Valid()
      modifies this`faceRotations
      ensures Valid()
      ensures ok <==> IsCap(face)
      ensures ok ==> faceRotations == old(faceRotations)[face := NextRotation(old(faceRotations)[face])]
      ensures !ok ==> faceRotations == old(faceRotations)
    {
      if face !in faceRotations {
        return false;
      }
      faceRotations := faceRotations[face := NextRotation(faceRotations[face])];
      ok := true;
    }

    /** Reset: offsets to 0, default angles, flip on, and a new render when a panorama is loaded. */
    method ResetSettings(proj: Projection)
      requires Valid()
      modifies this`yaw, this`pitch, this`faceRotations, this`flipUp, this`faceImages, this`saveEnabled
      ensures Valid()
      ensures yaw == 0.0 && pitch == 0.0 && faceRotations == DefaultRotations && flipUp
      ensures panorama.Some? && Samplable(panorama.value) ==>
                faceImages == Rendered(panorama.value, proj) && saveEnabled
      ensures panorama.None? || !Samplable(panorama.value) ==>
                faceImages == old(faceImages) && saveEnabled == old(saveEnabled)
    {
      yaw := 0.0;
      pitch := 0.0;
      faceRotations := DefaultRotations;
      flipUp := true;
      if panorama.Some? {
        ProcessMath(proj);
      }
    }

    /**
     * Export into a folder (empty when the dialog is cancelled): for front,
     * back, left, right, top, bottom in that order, the corrected face is
     * written as {prefix}_{suffix}.jpg joined to the folder. Reading a face
     * that was never rendered stops the export there. The export succeeds
     * exactly when the export button is enabled.
     */
    method Save(folder: string) returns (outcome: SaveOutcome)
      requires Valid()
      ensures outcome.Cancelled? <==> folder == []
      ensures outcome.Saved? <==> folder != [] && saveEnabled
      ensures outcome.Saved? ==>
                outcome.files == ExportEntries(Faces, faceImages, JoinedTo(folder), OutputPrefix(prefix),
                                               JpegExtension, MaxQuality, flipUp, faceRotations)
      ensures outcome.Failed? ==> outcome.written == [] && outcome.missing == Front && outcome.missing !in faceImages
    {
      if folder == [] {
        return Cancelled;
      }
      var userPrefix := OutputPrefix(prefix);
      var files: seq<Entry> := [];
      for i := 0 to |Faces|
        invariant i > 0 ==> saveEnabled
        invariant files == ExportEntries(Faces[..i], faceImages, JoinedTo(folder), userPrefix,
                                         JpegExtension, MaxQuality, flipUp, faceRotations)
      {
        var face := Faces[i];
        ExportEntriesStep(Faces, i, faceImages, JoinedTo(folder), userPrefix, JpegExtension, MaxQuality, flipUp, faceRotations);
        if face !in faceImages {
          assert !saveEnabled;
          assert i == 0 && files == [];
          return Failed(files, face);
        }
        assert !HasNoFaces(faceImages);
        var img := PostProcess(face, faceImages[face], flipUp, RotationOf(faceRotations, face));
        files := files + [Entry(Place(JoinedTo(folder), FileName(userPrefix, face, JpegExtension)), face, img, MaxQuality)];
      }
      assert Faces[..|Faces|] == Faces;
      outcome := Saved(files);
    }
  }
}
