/**
 * Export naming shared by both revisions: whitespace stripping with a
 * fallback name, the face-to-suffix table, the extension chosen by format,
 * and the file and archive paths built from them.
 */
module Naming {
  import opened Wrappers
  import opened Geometry

  /** Python's str.isspace on one character. */
  predicate IsSpace(c: char) {
    || c == ' ' || c == '\t' || c == '\n' || c == '\r' || c == '\U{000B}' || c == '\U{000C}'
    || ('\U{001C}' <= c <= '\U{001F}')
    || c == '\U{0085}' || c == '\U{00A0}' || c == '\U{1680}'
    || ('\U{2000}' <= c <= '\U{200A}')
    || c == '\U{2028}' || c == '\U{2029}' || c == '\U{202F}' || c == '\U{205F}' || c == '\U{3000}'
  }

  /** A string made only of whitespace (the empty string included). */
  predicate Blank(s: string) {
    forall i :: 0 <= i < |s| ==> IsSpace(s[i])
  }

  /** The number of whitespace characters s starts with. */
  function LeadingSpaces(s: string): (k: nat)
    ensures k <= |s|
    ensures forall i :: 0 <= i < k ==> IsSpace(s[i])
    ensures k < |s| ==> !IsSpace(s[k])
  {
    if |s| > 0 && IsSpace(s[0]) then 1 + LeadingSpaces(s[1..]) else 0
  }

  /** The number of whitespace characters s ends with. */
  function TrailingSpaces(s: string): (k: nat)
    ensures k <= |s|
    ensures forall i :: |s| - k <= i < |s| ==> IsSpace(s[i])
    ensures k < |s| ==> !IsSpace(s[|s| - 1 - k])
  {
    if |s| > 0 && IsSpace(s[|s| - 1]) then 1 + TrailingSpaces(s[..|s| - 1]) else 0
  }

  /**
   * str.strip(): the part of s between its leading and trailing whitespace.
   * Everything removed is whitespace, and what is kept neither starts nor
   * ends with whitespace.
   */
  function Strip(s: string): (r: string)
    ensures LeadingSpaces(s) + |r| <= |s| && r == s[LeadingSpaces(s)..LeadingSpaces(s) + |r|]
    ensures forall i :: 0 <= i < |s| && !(LeadingSpaces(s) <= i < LeadingSpaces(s) + |r|) ==> IsSpace(s[i])
    ensures r == [] || (!IsSpace(r[0]) && !IsSpace(r[|r| - 1]))
  {
    var a := LeadingSpaces(s);
    var rest := s[a..];
    var b := TrailingSpaces(rest);
    assert forall i :: a + |rest| - b <= i < |s| ==> s[i] == rest[i - a];
    rest[..|rest| - b]
  }

  /** Stripping leaves nothing exactly when the string is blank. */
  lemma StripEmptyIffBlank(s: string)
    ensures Strip(s) == [] <==> Blank(s)
  {
  }

  /** Python's `text or fallback`: an empty string yields the fallback. */
  function OrDefault(text: string, fallback: string): string {
    if text == [] then fallback else text
  }

  /**
   * The name stem used for every exported file: the stripped user prefix, or
   * "sky" when the prefix is blank. It is never empty.
   */
  function OutputPrefix(raw: string): (r: string)
    ensures r != []
    ensures Blank(raw) ==> r == "sky"
    ensures !Blank(raw) ==> r == Strip(raw) && !IsSpace(r[0]) && !IsSpace(r[|r| - 1])
  {
    StripEmptyIffBlank(raw);
    OrDefault(Strip(raw), "sky")
  }

  /** The archive name suggested to the save dialog: the stripped name, or "skybox" when blank. */
  function ArchiveStem(raw: string): (r: string)
    ensures r != []
    ensures Blank(raw) ==> r == "skybox"
    ensures !Blank(raw) ==> r == Strip(raw)
  {
    StripEmptyIffBlank(raw);
    OrDefault(Strip(raw), "skybox")
  }

  /** The two-letter suffix the target engine expects for each face. */
  function Suffix(f: Face): (s: string)
    ensures |s| == 2
  {
    match f
    case Front => "ft"
    case Back => "bk"
    case Left => "lf"
    case Right => "rt"
    case Top => "up"
    case Bottom => "dn"
  }

  /** The face a suffix stands for; any other string yields None. */
  function FaceOfSuffix(s: string): (r: Option<Face>)
    ensures r.Some? ==> Suffix(r.value) == s
  {
    if s == "ft" then Some(Front)
    else if s == "bk" then Some(Back)
    else if s == "lf" then Some(Left)
    else if s == "rt" then Some(Right)
    else if s == "up" then Some(Top)
    else if s == "dn" then Some(Bottom)
    else None
  }

  /** Every suffix is read back as its face, so no two faces share a suffix. */
  lemma SuffixRoundTrip(f: Face)
    ensures FaceOfSuffix(Suffix(f)) == Some(f)
  {
  }

  /** The file extension for an export format: ".tga" for TGA, ".jpg" for anything else. */
  function Extension(format: string): (e: string)
    ensures format == "TGA" ==> e == ".tga"
    ensures format != "TGA" ==> e == ".jpg"
  {
    if format == "TGA" then ".tga" else ".jpg"
  }

  /** How a face is encoded: JPEG at a quality (always with chroma subsampling off) or lossless TGA. */
  datatype Encoding = Jpeg(quality: int) | Tga

  /** The encoding for an export format; the quality only reaches the JPEG encoder. */
  function EncodingFor(format: string, quality: int): (e: Encoding)
    ensures e.Tga? <==> format == "TGA"
    ensures e.Jpeg? ==> e.quality == quality
    ensures (e == Tga) == (Extension(format) == ".tga")
  {
    if format == "TGA" then Tga else Jpeg(quality)
  }

  /** The file name of a face: {prefix}_{suffix}{ext}. */
  function FileName(prefix: string, f: Face, ext: string): string {
    prefix + "_" + Suffix(f) + ext
  }

  /** The face a file name was made for, read from the two characters after "{prefix}_". */
  function FaceOfFileName(name: string, prefix: string): Option<Face> {
    var at := |prefix| + 1;
    if at + 2 <= |name| then FaceOfSuffix(name[at..at + 2]) else None
  }

  /** A file name is read back as its face; so the six names of one export are distinct. */
  lemma {:induction false} FileNameRoundTrip(prefix: string, f: Face, ext: string)
    ensures FaceOfFileName(FileName(prefix, f, ext), prefix) == Some(f)
  {
    var name := FileName(prefix, f, ext);
    var at := |prefix| + 1;
    assert name == (prefix + "_") + Suffix(f) + ext;
    assert name[at..at + 2] == Suffix(f);
    SuffixRoundTrip(f);
  }

  lemma FileNamesDistinct(prefix: string, f: Face, g: Face, ext: string)
    requires f != g
    ensures FileName(prefix, f, ext) != FileName(prefix, g, ext)
  {
    FileNameRoundTrip(prefix, f, ext);
    FileNameRoundTrip(prefix, g, ext);
  }

  /** The directory inside the archive that holds the six faces. */
  const SkiesDir: string := "textures/skies/"

  /** The path of a face inside the archive: textures/skies/{prefix}_{suffix}{ext}. */
  function ArchivePath(prefix: string, f: Face, ext: string): string {
    SkiesDir + FileName(prefix, f, ext)
  }

  function FaceOfArchivePath(path: string, prefix: string): Option<Face> {
    if |SkiesDir| <= |path| then FaceOfFileName(path[|SkiesDir|..], prefix) else None
  }

  /**
   * Every archive path lies under textures/skies/, ends with the extension,
   * and is read back as its face; so the six paths of one archive are distinct.
   */
  lemma {:induction false} ArchivePathRoundTrip(prefix: string, f: Face, ext: string)
    ensures var p := ArchivePath(prefix, f, ext);
            |p| >= |SkiesDir| + |ext| && p[..|SkiesDir|] == SkiesDir && p[|p| - |ext|..] == ext
    ensures FaceOfArchivePath(ArchivePath(prefix, f, ext), prefix) == Some(f)
  {
    var p := ArchivePath(prefix, f, ext);
    assert p[|SkiesDir|..] == FileName(prefix, f, ext);
    assert p == (SkiesDir + prefix + "_" + Suffix(f)) + ext;
    FileNameRoundTrip(prefix, f, ext);
  }

  lemma ArchivePathsDistinct(prefix: string, f: Face, g: Face, ext: string)
    requires f != g
    ensures ArchivePath(prefix, f, ext) != ArchivePath(prefix, g, ext)
  {
    ArchivePathRoundTrip(prefix, f, ext);
    ArchivePathRoundTrip(prefix, g, ext);
  }

  /**
   * POSIX path joining of a folder and a file name: an absolute name replaces
   * the folder, a folder that is empty or ends with '/' is extended directly,
   * and any other folder gets a '/' before the name.
   */
  function JoinPath(folder: string, name: string): (p: string)
    ensures |name| <= |p| && p[|p| - |name|..] == name
    ensures (name == [] || name[0] != '/') ==> |folder| <= |p| && p[..|folder|] == folder
  {
    if name != [] && name[0] == '/' then name
    else if folder == [] || folder[|folder| - 1] == '/' then folder + name
    else folder + "/" + name
  }

  /** Joined to one folder, the file names of two different faces stay different. */
  lemma JoinedFileNamesDistinct(folder: string, prefix: string, f: Face, g: Face, ext: string)
    requires f != g
    ensures JoinPath(folder, FileName(prefix, f, ext)) != JoinPath(folder, FileName(prefix, g, ext))
  {
    var a := FileName(prefix, f, ext);
    var b := FileName(prefix, g, ext);
    FileNamesDistinct(prefix, f, g, ext);
    assert a[0] == b[0] by {
      if prefix == [] {
        assert a[0] == '_' && b[0] == '_';
      } else {
        assert a[0] == prefix[0] && b[0] == prefix[0];
      }
    }
    if a[0] != '/' {
      var head := if folder == [] || folder[|folder| - 1] == '/' then folder else folder + "/";
      assert JoinPath(folder, a) == head + a && JoinPath(folder, b) == head + b;
      assert (head + a)[|head|..] == a && (head + b)[|head|..] == b;
    }
  }
}
