/**
 * The list of files an export writes, shared by both revisions: one entry
 * per face present, in the order front, back, left, right, top, bottom, each
 * carrying its path, its corrected image and its encoding. The archive and
 * image encoders themselves are not modelled.
 */
module Export {
  import opened Geometry
  import opened Sampler
  import opened FaceTransform
  import opened Naming

  datatype Entry = Entry(path: string, face: Face, image: Image, encoding: Encoding)

  /**
   * Where the file of a face goes: after a fixed directory string inside an
   * archive, or joined to a folder on disk as POSIX path joining does.
   */
  datatype Placement = Under(dir: string) | JoinedTo(folder: string)

  function Place(pl: Placement, name: string): string {
    match pl
    case Under(dir) => dir + name
    case JoinedTo(folder) => JoinPath(folder, name)
  }

  /** The files of two different faces are never placed at the same path. */
  lemma PlacedFileNamesDistinct(pl: Placement, prefix: string, f: Face, g: Face, ext: string)
    requires f != g
    ensures Place(pl, FileName(prefix, f, ext)) != Place(pl, FileName(prefix, g, ext))
  {
    FileNamesDistinct(prefix, f, g, ext);
    match pl
    case Under(dir) =>
      assert (dir + FileName(prefix, f, ext))[|dir|..] == FileName(prefix, f, ext);
      assert (dir + FileName(prefix, g, ext))[|dir|..] == FileName(prefix, g, ext);
    case JoinedTo(folder) =>
      JoinedFileNamesDistinct(folder, prefix, f, g, ext);
  }

  /** The entries for the faces of `faces` that are present in `images`, in that order. */
  function ExportEntries(faces: seq<Face>, images: map<Face, Image>, pl: Placement, prefix: string,
                         ext: string, enc: Encoding, flip: bool, rots: map<Face, int>): seq<Entry>
    requires ImagesSquare(images) && RotationsValid(rots)
  {
    if faces == [] then []
    else
      var f := faces[|faces| - 1];
      var earlier := ExportEntries(faces[..|faces| - 1], images, pl, prefix, ext, enc, flip, rots);
      if f in images then
        earlier + [Entry(Place(pl, FileName(prefix, f, ext)), f, PostProcess(f, images[f], flip, RotationOf(rots, f)), enc)]
      else
        earlier
  }

  /** Extending the face list by one face appends that face's entry, if it has an image. */
  lemma ExportEntriesStep(faces: seq<Face>, i: nat, images: map<Face, Image>, pl: Placement, prefix: string,
                          ext: string, enc: Encoding, flip: bool, rots: map<Face, int>)
    requires ImagesSquare(images) && RotationsValid(rots) && i < |faces|
    ensures ExportEntries(faces[..i + 1], images, pl, prefix, ext, enc, flip, rots) ==
            ExportEntries(faces[..i], images, pl, prefix, ext, enc, flip, rots) +
            (if faces[i] in images
             then [Entry(Place(pl, FileName(prefix, faces[i], ext)), faces[i],
                         PostProcess(faces[i], images[faces[i]], flip, RotationOf(rots, faces[i])), enc)]
             else [])
  {
    assert faces[..i + 1][..i] == faces[..i];
  }

  /**
   * Every entry is for a listed face that has an image, is placed at
   * {prefix}_{suffix}{ext}, holds that face after the same correction the
   * preview applies, and uses the requested encoding.
   */
  lemma {:induction false} ExportEntriesSound(faces: seq<Face>, images: map<Face, Image>, pl: Placement, prefix: string,
                                              ext: string, enc: Encoding, flip: bool, rots: map<Face, int>)
    requires ImagesSquare(images) && RotationsValid(rots)
    ensures var es := ExportEntries(faces, images, pl, prefix, ext, enc, flip, rots);
            |es| <= |faces| &&
            forall k :: 0 <= k < |es| ==>
              && es[k].face in faces && es[k].face in images
              && es[k].path == Place(pl, FileName(prefix, es[k].face, ext))
              && es[k].image == Corrected(images, flip, rots)[es[k].face]
              && es[k].encoding == enc
  {
    if faces != [] {
      ExportEntriesSound(faces[..|faces| - 1], images, pl, prefix, ext, enc, flip, rots);
    }
  }

  /** When every listed face has an image, there is one entry per listed face. */
  lemma {:induction false} ExportEntriesAllPresent(faces: seq<Face>, images: map<Face, Image>, pl: Placement, prefix: string,
                                                   ext: string, enc: Encoding, flip: bool, rots: map<Face, int>)
    requires ImagesSquare(images) && RotationsValid(rots) && HasAllFaces(images)
    ensures |ExportEntries(faces, images, pl, prefix, ext, enc, flip, rots)| == |faces|
  {
    if faces != [] {
      ExportEntriesAllPresent(faces[..|faces| - 1], images, pl, prefix, ext, enc, flip, rots);
    }
  }

  predicate HasEntryFor(es: seq<Entry>, f: Face) {
    exists k :: 0 <= k < |es| && es[k].face == f
  }

  /** Every listed face that has an image gets an entry. */
  lemma {:induction false} ExportEntriesComplete(faces: seq<Face>, images: map<Face, Image>, pl: Placement, prefix: string,
                                                 ext: string, enc: Encoding, flip: bool, rots: map<Face, int>, f: Face)
    requires ImagesSquare(images) && RotationsValid(rots)
    requires f in faces && f in images
    ensures HasEntryFor(ExportEntries(faces, images, pl, prefix, ext, enc, flip, rots), f)
  {
    var last := faces[|faces| - 1];
    var es := ExportEntries(faces, images, pl, prefix, ext, enc, flip, rots);
    if f == last {
      var k := |es| - 1;
      assert es == ExportEntries(faces[..|faces| - 1], images, pl, prefix, ext, enc, flip, rots)
        + [Entry(Place(pl, FileName(prefix, f, ext)), f, PostProcess(f, images[f], flip, RotationOf(rots, f)), enc)];
      assert 0 <= k < |es| && es[k].face == f;
    } else {
      assert f in faces[..|faces| - 1] by {
        var i :| 0 <= i < |faces| && faces[i] == f;
        assert faces[..|faces| - 1][i] == f;
      }
      ExportEntriesComplete(faces[..|faces| - 1], images, pl, prefix, ext, enc, flip, rots, f);
      var earlier := ExportEntries(faces[..|faces| - 1], images, pl, prefix, ext, enc, flip, rots);
      var k :| 0 <= k < |earlier| && earlier[k].face == f;
      assert es[k] == earlier[k];
    }
  }

  /** A sequence of faces without repetitions. */
  predicate Distinct(faces: seq<Face>) {
    forall i, j :: 0 <= i < j < |faces| ==> faces[i] != faces[j]
  }

  /** When no face is listed twice, no two entries are for the same face or share a path. */
  lemma {:induction false} ExportEntriesDistinct(faces: seq<Face>, images: map<Face, Image>, pl: Placement, prefix: string,
                                                 ext: string, enc: Encoding, flip: bool, rots: map<Face, int>)
    requires ImagesSquare(images) && RotationsValid(rots) && Distinct(faces)
    ensures var es := ExportEntries(faces, images, pl, prefix, ext, enc, flip, rots);
            forall i, j :: 0 <= i < j < |es| ==> es[i].face != es[j].face && es[i].path != es[j].path
  {
    if faces != [] {
      var init := faces[..|faces| - 1];
      var f := faces[|faces| - 1];
      var earlier := ExportEntries(init, images, pl, prefix, ext, enc, flip, rots);
      var es := ExportEntries(faces, images, pl, prefix, ext, enc, flip, rots);
      ExportEntriesDistinct(init, images, pl, prefix, ext, enc, flip, rots);
      ExportEntriesSound(init, images, pl, prefix, ext, enc, flip, rots);
      ExportEntriesSound(faces, images, pl, prefix, ext, enc, flip, rots);
      assert f !in init;
      forall i, j | 0 <= i < j < |es|
        ensures es[i].face != es[j].face && es[i].path != es[j].path
      {
        if j == |earlier| {
          assert es[i] == earlier[i];
          assert es[i].face in init;
        } else {
          assert es[i] == earlier[i] && es[j] == earlier[j];
        }
        if es[i].face != es[j].face {
          PlacedFileNamesDistinct(pl, prefix, es[i].face, es[j].face, ext);
        }
      }
    }
  }

  /** The export order lists every face exactly once. */
  lemma FacesDistinctAndComplete()
    ensures Distinct(Faces)
    ensures forall f: Face :: f in Faces
  {
    forall f: Face
      ensures f in Faces
    {
      match f
      case Front => assert Faces[0] == f;
      case Back => assert Faces[1] == f;
      case Left => assert Faces[2] == f;
      case Right => assert Faces[3] == f;
      case Top => assert Faces[4] == f;
      case Bottom => assert Faces[5] == f;
    }
  }
}
