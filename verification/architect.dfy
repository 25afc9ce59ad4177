/**
 * The session state of skybox_architect.py (class SkyboxSmartFix): the
 * orientation and correction settings, the rendered faces, the preview cache,
 * the busy flag and the export button.
 *
 * Rendering runs on a background thread in the source. Here it is two
 * sequential events: `WorkerProcess` (the thread body, which marks the session
 * busy and renders the six faces) and `GenerationComplete` (the callback that
 * publishes the result on the interface thread). A method that would start a
 * render returns the tiers it requests instead of starting a thread.
 */
module SkyboxArchitect {
  import opened Wrappers
  import opened Geometry
  import opened Sampler
  import opened FaceTransform
  import opened Naming
  import opened Export

  /** The face size of a preview render. */
  const PreviewSize: nat := 256

  /** The two resolution tiers a render runs at. */
  datatype Tier = Preview | Final

  /** A written archive: where it was saved and the files in it, in order. */
  datatype Archive = Archive(path: string, entries: seq<Entry>)

  class SkyboxSmartFix {
    var panorama: Option<Raster>
    var faceImages: map<Face, Image>
    var previewCache: map<Face, Image>
    var isProcessing: bool
    var faceRotations: map<Face, int>
    var prefix: string
    var pk3Name: string
    var size: nat
    var format: string
    var quality: int
    var yaw: real
    var pitch: real
    var flipUp: bool
    var saveEnabled: bool

    /**
     * Renders publish all six faces at once, so the export faces are all
     * present or all absent, and export is only ever enabled once they are
     * present. An import disables export but keeps the faces of the earlier
     * panorama, so the converse does not hold.
     */
    ghost predicate Valid()
      reads this
    {
      && RotationsValid(faceRotations)
      && ImagesSquare(faceImages)
      && ImagesSquare(previewCache)
      && (HasNoFaces(faceImages) || HasAllFaces(faceImages))
      && (saveEnabled ==> HasAllFaces(faceImages))
    }

    constructor ()
      ensures Valid()
      ensures panorama == None && faceImages == map[] && previewCache == map[]
      ensures !isProcessing && !saveEnabled
      ensures faceRotations == DefaultRotations && flipUp && yaw == 0.0 && pitch == 0.0
      ensures prefix == "sky" && pk3Name == "my_skybox" && size == 1024
      ensures format == "JPG" && quality == 100
    {
      panorama := None;
      faceImages := map[];
      previewCache := map[];
      isProcessing := false;
      faceRotations := DefaultRotations;
      prefix := "sky";
      pk3Name := "my_skybox";
      size := 1024;
      format := "JPG";
      quality := 100;
      yaw := 0.0;
      pitch := 0.0;
      flipUp := true;
      saveEnabled := false;
      new;
      assert Front !in faceImages;
    }

    /**
     * Import of a panorama: export is disabled first; a decoded image becomes
     * the panorama, its file stem the prefix and archive name, and a preview
     * and then a final render are requested. A decoding failure changes
     * nothing else. Faces rendered from an earlier panorama are kept.
     */
    method LoadImage(stem: string, decoded: Option<Raster>) returns (requests: seq<Tier>)
      requires Valid()
      modifies this`saveEnabled, this`panorama, this`prefix, this`pk3Name
      ensures Valid() && !saveEnabled
      ensures decoded.None? ==> panorama == old(panorama) && prefix == old(prefix) && pk3Name == old(pk3Name)
      ensures decoded.None? ==> requests == []
      ensures decoded.Some? ==> panorama == decoded && prefix == stem && pk3Name == stem
      ensures decoded.Some? ==> requests == [Preview, Final]
    {
      saveEnabled := false;
      requests := [];
      if decoded.Some? {
        panorama := decoded;
        prefix := stem;
        pk3Name := stem;
        requests := [Preview];
        var high := TriggerHighRes();
        requests := requests + high;
      }
    }

    /**
     * A slider moved: the new offsets are stored, and a preview render is
     * requested only when a panorama is loaded and no render is in progress.
     */
    method OnSliderDrag(newYaw: real, newPitch: real) returns (requests: seq<Tier>)
      requires Valid()
      modifies this`yaw, this`pitch
      ensures Valid()
      ensures yaw == newYaw && pitch == newPitch
      ensures requests == (if panorama.Some? && !isProcessing then [Preview] else [])
    {
      yaw, pitch := newYaw, newPitch;
      requests := [];
      if panorama.Some? && !isProcessing {
        requests := [Preview];
      }
    }

    /** A final render is requested exactly when a panorama is loaded, whether or not one is running. */
    method TriggerHighRes() returns (requests: seq<Tier>)
      requires Valid()
      ensures Valid()
      ensures requests == (if panorama.Some? then [Final] else [])
    {
      requests := if panorama.Some? then [Final] else [];
    }

    /** A slider released. */
    method OnSliderRelease() returns (requests: seq<Tier>)
      requires Valid()
      ensures Valid()
      ensures requests == (if panorama.Some? then [Final] else [])
    {
      requests := TriggerHighRes();
    }

    /** A new output size chosen in the size menu. */
    method SelectSize(n: nat) returns (requests: seq<Tier>)
      requires Valid()
      modifies this`size
      ensures Valid()
      ensures size == n
      ensures requests == (if panorama.Some? then [Final] else [])
    {
      size := n;
      requests := TriggerHighRes();
    }

    /** The flip checkbox toggled: only the displayed previews change, nothing is re-rendered. */
    method SetFlip(on: bool)
      requires Valid()
      modifies this`flipUp
      ensures Valid() && flipUp == on
    {
      flipUp := on;
    }

    /** The face size a render of a tier uses. */
    function RenderSize(tier: Tier): nat
      reads this
    {
      if tier == Preview then PreviewSize else size
    }

    /** The faces a render produces from a panorama at the current offsets. */
    function Rendered(p: Raster, tier: Tier, proj: Projection): (m: map<Face, Image>)
      reads this
      requires Samplable(p)
      ensures HasAllFaces(m) && ImagesSquare(m)
    {
      AllFacesComplete();
      map f | f in AllFaces :: RenderFace(p, Clamp, proj, f, RenderSize(tier), yaw, pitch)
    }

    /**
     * The render thread: the session is marked busy and the six faces are
     * rendered with the clamp policy, at 256 pixels for a preview and at the
     * selected size otherwise. Without a panorama, or with one of zero width
     * or height (the aspect-ratio correction then divides by zero), the render
     * fails and the busy flag is cleared again.
     */
    method WorkerProcess(tier: Tier, proj: Projection) returns (results: Option<map<Face, Image>>)
      requires Valid()
      modifies this`isProcessing
      ensures Valid()
      ensures results.Some? <==> panorama.Some? && Samplable(panorama.value)
      ensures isProcessing <==> results.Some?
      ensures results.Some? ==> results.value == Rendered(panorama.value, tier, proj)
    {
      isProcessing := true;
      if panorama.None? || !Samplable(panorama.value) {
        isProcessing := false;
        return None;
      }
      var p := panorama.value;
      var n := RenderSize(tier);
      var out: map<Face, Image> := map[];
      ghost var target := Rendered(p, tier, proj);
      for i := 0 to |Faces|
        invariant forall k :: 0 <= k < i ==> Faces[k] in out && out[Faces[k]] == target[Faces[k]]
      {
        out := out[Faces[i] := RenderFace(p, Clamp, proj, Faces[i], n, yaw, pitch)];
      }
      SameOnEveryFace(out, target);
      results := Some(out);
    }

    /**
     * The callback publishing a finished render. Both tiers clear the busy
     * flag and refresh the preview cache with the new faces. Only a final
     * render replaces the faces kept for export and enables export; after it,
     * every face shown is the exported face under the same correction. The
     * results are always the six faces the render thread produced.
     */
    method GenerationComplete(results: map<Face, Image>, tier: Tier)
      requires Valid() && ImagesSquare(results) && HasAllFaces(results)
      modifies this`isProcessing, this`previewCache, this`faceImages, this`saveEnabled
      ensures Valid() && !isProcessing
      ensures previewCache == old(previewCache) + results
      ensures tier == Preview ==> faceImages == old(faceImages) && saveEnabled == old(saveEnabled)
      ensures tier == Final ==> faceImages == results && saveEnabled
      ensures tier == Final ==> forall f :: f in faceImages ==> Previews()[f] == Corrected(faceImages, flipUp, faceRotations)[f]
    {
      isProcessing := false;
      previewCache := previewCache + results;
      if tier == Final {
        faceImages := results;
        saveEnabled := true;
      }
    }

    /** The six preview labels: every cached face after the top/bottom correction. */
    function Previews(): map<Face, Image>
      reads this
      requires Valid()
    {
      Corrected(previewCache, flipUp, faceRotations)
    }

    /**
     * A rotate button: the face's angle advances by 90 degrees modulo 360 and
     * no other entry changes. Only top and bottom have an entry; for any other
     * face the lookup fails and nothing changes.
     */
    method RotateFaceLogic(face: Face) returns (ok: bool)
      requires Valid()
      modifies this`faceRotations
      ensures Valid()
      ensures ok <==> IsCap(face)
      ensures ok ==> faceRotations == old(faceRotations)[face := NextRotation(old(faceRotations)[face])]
      ensures !ok ==> faceRotations == old(faceRotations)
    {
      if face !in faceRotations {
        return false;
      }
      faceRotations := faceRotations[face := NextRotation(faceRotations[face])];
      ok := true;
    }

    /**
     * Reset: offsets to 0, rotations to their defaults, flip on, and a final
     * render requested when a panorama is loaded. The new settings do not
     * depend on the old ones, so resetting twice is resetting once, and a
     * reset from the default settings changes no preview.
     */
    method ResetSettings() returns (requests: seq<Tier>)
      requires Valid()
      modifies this`yaw, this`pitch, this`faceRotations, this`flipUp
      ensures Valid()
      ensures yaw == 0.0 && pitch == 0.0 && faceRotations == DefaultRotations && flipUp
      ensures requests == (if panorama.Some? then [Final] else [])
      ensures old(faceRotations) == DefaultRotations && old(flipUp) ==> Previews() == old(Previews())
    {
      yaw := 0.0;
      pitch := 0.0;
      faceRotations := DefaultRotations;
      flipUp := true;
      requests := TriggerHighRes();
    }

    /**
     * Export to the path chosen in the save dialog (empty when cancelled):
     * one archive entry per face present, in the order front, back, left,
     * right, top, bottom, at textures/skies/{prefix}_{suffix}{ext}, each face
     * under the correction the preview applies, encoded as TGA or as JPEG at
     * the chosen quality. While export is enabled the archive holds all six.
     */
    method SavePk3(savePath: string) returns (archive: Option<Archive>)
      requires Valid()
      ensures archive.None? <==> savePath == []
      ensures archive.Some? ==> archive.value.path == savePath
      ensures archive.Some? ==>
                archive.value.entries ==
                ExportEntries(Faces, faceImages, Under(SkiesDir), OutputPrefix(prefix), Extension(format),
                              EncodingFor(format, quality), flipUp, faceRotations)
      ensures archive.Some? && saveEnabled ==> |archive.value.entries| == |Faces|
    {
      if savePath == [] {
        return None;
      }
      var userPrefix := OutputPrefix(prefix);
      var ext := Extension(format);
      var enc := EncodingFor(format, quality);
      var entries: seq<Entry> := [];
      for i := 0 to |Faces|
        invariant entries == ExportEntries(Faces[..i], faceImages, Under(SkiesDir), userPrefix, ext, enc, flipUp, faceRotations)
      {
        var face := Faces[i];
        ExportEntriesStep(Faces, i, faceImages, Under(SkiesDir), userPrefix, ext, enc, flipUp, faceRotations);
        if face in faceImages {
          var img := PostProcess(face, faceImages[face], flipUp, RotationOf(faceRotations, face));
          entries := entries + [Entry(Place(Under(SkiesDir), FileName(userPrefix, face, ext)), face, img, enc)];
        }
      }
      assert Faces[..|Faces|] == Faces;
      if saveEnabled {
        ExportEntriesAllPresent(Faces, faceImages, Under(SkiesDir), userPrefix, ext, enc, flipUp, faceRotations);
      }
      archive := Some(Archive(savePath, entries));
    }
  }

  /**
   * An archive holds at most one entry per face and never two entries at the
   * same path; every face that has been rendered is in it, under
   * textures/skies/ with its own suffix, under the correction the preview
   * applies.
   */
  lemma ArchiveContents(images: map<Face, Image>, prefix: string, ext: string, enc: Encoding,
                        flip: bool, rots: map<Face, int>)
    requires ImagesSquare(images) && RotationsValid(rots)
    ensures var es := ExportEntries(Faces, images, Under(SkiesDir), prefix, ext, enc, flip, rots);
            && (forall i, j :: 0 <= i < j < |es| ==> es[i].face != es[j].face && es[i].path != es[j].path)
            && (forall f :: f in images ==> HasEntryFor(es, f))
            && (forall k :: 0 <= k < |es| ==>
                  es[k].face in images &&
                  es[k].path == ArchivePath(prefix, es[k].face, ext) &&
                  es[k].image == Corrected(images, flip, rots)[es[k].face])
  {
    FacesDistinctAndComplete();
    ExportEntriesDistinct(Faces, images, Under(SkiesDir), prefix, ext, enc, flip, rots);
    ExportEntriesSound(Faces, images, Under(SkiesDir), prefix, ext, enc, flip, rots);
    forall f | f in images
      ensures HasEntryFor(ExportEntries(Faces, images, Under(SkiesDir), prefix, ext, enc, flip, rots), f)
    {
      ExportEntriesComplete(Faces, images, Under(SkiesDir), prefix, ext, enc, flip, rots, f);
    }
  }
}
