/**
 * The string handling both drivers use to select media files and name their
 * outputs: `str.lower`, `str.endswith`, `os.path.basename`, `os.path.join`,
 * `os.path.splitext` and the `:04d` format of frame indices.
 */
module Naming {

  // ---------------------------------------------------------------------
  // Case folding and suffix tests
  // ---------------------------------------------------------------------

  /** Lower-casing of one character (ASCII letters only). */
  function LowerChar(c: char): char {
    if 'A' <= c <= 'Z' then (c as int + 32) as char else c
  }

  function Lower(s: string): (r: string)
    ensures |r| == |s|
  {
    seq(|s|, i requires 0 <= i < |s| => LowerChar(s[i]))
  }

  predicate EndsWith(s: string, suffix: string) {
    |suffix| <= |s| && s[|s| - |suffix|..] == suffix
  }

  /** `str.endswith` given a tuple of suffixes. */
  predicate EndsWithAny(s: string, suffixes: seq<string>) {
    exists k :: 0 <= k < |suffixes| && EndsWith(s, suffixes[k])
  }

  const ImageSuffixes: seq<string> := [".jpg", ".jpeg", ".png"]
  const VideoSuffixes: seq<string> := [".mp4", ".avi"]
  const MediaSuffixes: seq<string> := [".jpg", ".jpeg", ".png", ".mp4", ".avi"]

  predicate IsImage(name: string) { EndsWithAny(Lower(name), ImageSuffixes) }
  predicate IsVideo(name: string) { EndsWithAny(Lower(name), VideoSuffixes) }
  predicate IsMedia(name: string) { EndsWithAny(Lower(name), MediaSuffixes) }

  lemma EndsWithLast(s: string, suffix: string)
    requires EndsWith(s, suffix) && suffix != []
    ensures s[|s| - 1] == suffix[|suffix| - 1]
  {
    assert s[|s| - |suffix|..][|suffix| - 1] == s[|s| - 1];
  }

  /** The media allow-list is exactly the image list followed by the video list. */
  lemma MediaIsImageOrVideo(name: string)
    ensures IsMedia(name) <==> IsImage(name) || IsVideo(name)
  {
    var s := Lower(name);
    if IsMedia(name) {
      var k :| 0 <= k < |MediaSuffixes| && EndsWith(s, MediaSuffixes[k]);
      if k < 3 {
        assert EndsWith(s, ImageSuffixes[k]);
      } else {
        assert EndsWith(s, VideoSuffixes[k - 3]);
      }
    }
    if IsImage(name) {
      var k :| 0 <= k < |ImageSuffixes| && EndsWith(s, ImageSuffixes[k]);
      assert EndsWith(s, MediaSuffixes[k]);
    }
    if IsVideo(name) {
      var k :| 0 <= k < |VideoSuffixes| && EndsWith(s, VideoSuffixes[k]);
      assert EndsWith(s, MediaSuffixes[k + 3]);
    }
  }

  /** No name is both an image and a video: image suffixes end in 'g', video suffixes in '4' or 'i'. */
  lemma ImageNotVideo(name: string)
    ensures !(IsImage(name) && IsVideo(name))
  {
    var s := Lower(name);
    if IsImage(name) {
      var i :| 0 <= i < |ImageSuffixes| && EndsWith(s, ImageSuffixes[i]);
      EndsWithLast(s, ImageSuffixes[i]);
      assert s[|s| - 1] == 'g';
    }
  }

  /** The test ignores case: an upper-case extension is accepted. */
  lemma UpperCaseAccepted()
    ensures IsImage("SCAN.JPG") && IsVideo("Clip.Mp4") && !IsMedia("notes.txt")
  {
    UpperImage();
    MixedVideo();
    TextNotMedia();
  }

  lemma UpperImage()
    ensures IsImage("SCAN.JPG")
  {
    var t := Lower("SCAN.JPG");
    assert t == "scan.jpg";
    assert t[|t| - 4..] == ".jpg";
    assert EndsWith(t, ImageSuffixes[0]);
  }

  lemma MixedVideo()
    ensures IsVideo("Clip.Mp4")
  {
    var t := Lower("Clip.Mp4");
    assert t == "clip.mp4";
    assert t[|t| - 4..] == ".mp4";
    assert EndsWith(t, VideoSuffixes[0]);
  }

  lemma TextNotMedia()
    ensures !IsMedia("notes.txt")
  {
    var t := Lower("notes.txt");
    assert t == "notes.txt";
    assert t[|t| - 1] == 't';
  }

  // ---------------------------------------------------------------------
  // Paths
  // ---------------------------------------------------------------------

  /** `str.rfind`: the last index of `c`, or -1. */
  function LastIndexOf(s: string, c: char): (r: int)
    ensures -1 <= r < |s|
    ensures r >= 0 ==> s[r] == c
    ensures forall j :: r < j < |s| ==> s[j] != c
    decreases |s|
  {
    if s == [] then -1
    else if s[|s| - 1] == c then |s| - 1
    else LastIndexOf(s[..|s| - 1], c)
  }

  /** `os.path.basename`: everything after the last '/'. */
  function Basename(p: string): (r: string)
    ensures '/' !in r
    ensures EndsWith(p, r)
    ensures |r| < |p| ==> p[|p| - |r| - 1] == '/'
  {
    var i := LastIndexOf(p, '/') + 1;
    assert forall j :: 0 <= j < |p[i..]| ==> p[i..][j] == p[i + j];
    p[i..]
  }

  /** `os.path.join(a, b)` on POSIX. */
  function Join(a: string, b: string): string {
    if |b| > 0 && b[0] == '/' then b
    else if a == [] || a[|a| - 1] == '/' then a + b
    else a + "/" + b
  }

  lemma LowerConcat(a: string, b: string)
    ensures Lower(a + b) == Lower(a) + Lower(b)
  {
  }

  lemma EndsWithAfterSlash(x: string, y: string, suffix: string)
    requires x == [] || x[|x| - 1] == '/'
    requires '/' !in suffix
    ensures EndsWith(x + y, suffix) <==> EndsWith(y, suffix)
  {
    var p := x + y;
    if |suffix| <= |y| {
      assert p[|p| - |suffix|..] == y[|y| - |suffix|..];
    } else if |suffix| <= |p| {
      var k := |suffix| - |y| - 1;
      assert p[|p| - |suffix|..][k] == '/';
      assert suffix[k] in suffix;
    }
  }

  lemma JoinPrefix(dir: string, name: string) returns (prefix: string)
    ensures Join(dir, name) == prefix + name
    ensures prefix == [] || prefix[|prefix| - 1] == '/'
  {
    if |name| > 0 && name[0] == '/' {
      prefix := [];
    } else if dir == [] || dir[|dir| - 1] == '/' {
      prefix := dir;
    } else {
      prefix := dir + "/";
    }
  }

  /** A slash-free suffix ends a joined path iff it ends the name joined on: the join only adds a '/' before the name. */
  lemma EndsWithJoin(dir: string, name: string, suffix: string)
    requires '/' !in suffix
    ensures EndsWith(Lower(Join(dir, name)), suffix) <==> EndsWith(Lower(name), suffix)
  {
    var prefix := JoinPrefix(dir, name);
    LowerConcat(prefix, name);
    assert Lower(prefix) == [] || Lower(prefix)[|prefix| - 1] == '/';
    EndsWithAfterSlash(Lower(prefix), Lower(name), suffix);
  }

  /** Filtering on the entry name and dispatching on the joined path agree. */
  lemma JoinKeepsKind(dir: string, name: string)
    ensures IsImage(Join(dir, name)) <==> IsImage(name)
    ensures IsVideo(Join(dir, name)) <==> IsVideo(name)
    ensures IsMedia(Join(dir, name)) <==> IsMedia(name)
  {
    forall k | 0 <= k < |MediaSuffixes| ensures '/' !in MediaSuffixes[k] {
      assert MediaSuffixes[k] in {".jpg", ".jpeg", ".png", ".mp4", ".avi"};
    }
    forall k | 0 <= k < |MediaSuffixes| {
      EndsWithJoin(dir, name, MediaSuffixes[k]);
    }
    assert ImageSuffixes == MediaSuffixes[..3] && VideoSuffixes == MediaSuffixes[3..];
  }

  /** The basename of `dir` joined with a slash-free name is that name. */
  lemma BasenameOfJoin(dir: string, name: string)
    requires '/' !in name
    ensures Basename(Join(dir, name)) == name
  {
    var p := Join(dir, name);
    var prefix := p[..|p| - |name|];
    assert p == prefix + name;
    assert prefix == [] || prefix[|prefix| - 1] == '/';
    var r := LastIndexOf(p, '/');
    forall j | |prefix| <= j < |p| ensures p[j] != '/' {
      assert p[j] == name[j - |prefix|];
    }
    if prefix != [] {
      assert p[|prefix| - 1] == '/';
    }
    assert r == |prefix| - 1;
  }

  /** Joining the same directory with two relative names gives the same path only for the same name. */
  lemma JoinInjective(dir: string, a: string, b: string)
    requires a == [] || a[0] != '/'
    requires b == [] || b[0] != '/'
    ensures Join(dir, a) == Join(dir, b) ==> a == b
  {
    if Join(dir, a) == Join(dir, b) {
      var prefix := if dir == [] || dir[|dir| - 1] == '/' then dir else dir + "/";
      assert Join(dir, a) == prefix + a && Join(dir, b) == prefix + b;
      assert a == (prefix + a)[|prefix|..];
      assert b == (prefix + b)[|prefix|..];
    }
  }

  /**
   * `os.path.splitext(p)[0]`: the last '.' after the last '/' starts the extension,
   * unless only dots precede it in the final component (".png" has no extension).
   */
  function StripExtension(p: string): string {
    var sep := LastIndexOf(p, '/');
    var dot := LastIndexOf(p, '.');
    if dot > sep && exists j :: sep < j < dot && p[j] != '.' then p[..dot] else p
  }

  /** What splitext removes is a prefix cut at a '.', after which no '.' and no '/' occur. */
  lemma StripExtensionCuts(p: string)
    ensures var r := StripExtension(p);
      && |r| <= |p| && r == p[..|r|]
      && (r != p ==> p[|r|] == '.' && forall j :: |r| < j < |p| ==> p[j] != '.' && p[j] != '/')
  {
  }

  /** The last index of `c` is the one position holding `c` with none after it. */
  lemma LastIndexOfIs(s: string, c: char, r: int)
    requires -1 <= r < |s| && (r >= 0 ==> s[r] == c)
    requires forall j :: r < j < |s| ==> s[j] != c
    ensures LastIndexOf(s, c) == r
  {
  }

  /** A known extension is removed from a stem whose last component is not all dots. */
  lemma StripExtensionOf(stem: string, ext: string)
    requires |ext| > 0 && ext[0] == '.'
    requires forall j :: 0 < j < |ext| ==> ext[j] != '.' && ext[j] != '/'
    requires exists j :: LastIndexOf(stem, '/') < j < |stem| && stem[j] != '.'
    ensures StripExtension(stem + ext) == stem
  {
    var p := stem + ext;
    forall j | |stem| < j < |p| ensures p[j] != '.' && p[j] != '/' {
      assert p[j] == ext[j - |stem|];
    }
    assert p[|stem|] == '.';
    LastIndexOfIs(p, '.', |stem|);
    var s := LastIndexOf(stem, '/');
    forall j | s < j < |p| ensures p[j] != '/' {
      if j < |stem| {
        assert p[j] == stem[j];
      }
    }
    if s >= 0 {
      assert p[s] == stem[s];
    }
    LastIndexOfIs(p, '/', s);
    var j :| s < j < |stem| && stem[j] != '.';
    assert p[j] == stem[j];
    assert p[..|stem|] == stem;
  }

  /** Only the last extension is removed: "a.b.mp4" has base name "a.b". */
  lemma StripLastExtensionOnly()
    ensures StripExtension("a.b.mp4") == "a.b"
  {
    assert "a.b" + ".mp4" == "a.b.mp4";
    assert LastIndexOf("a.b", '/') == -1 && "a.b"[0] != '.';
    StripExtensionOf("a.b", ".mp4");
  }

  /** A name made of a dot and an extension keeps it: ".png" has base name ".png", written as ".png.png". */
  lemma DotFileKeepsName()
    ensures StripExtension(".png") == ".png"
  {
    var p := ".png";
    assert p[0] == '.' && p[1] != '.' && p[2] != '.' && p[3] != '.';
    assert LastIndexOf(p, '.') == 0;
  }

  lemma ScanBase(p: string, ext: string)
    requires ext in {".jpg", ".png"} && p == "scan" + ext
    ensures StripExtension(p) == "scan"
  {
    var stem := "scan";
    assert stem[0] != '/' && stem[1] != '/' && stem[2] != '/' && stem[3] != '/';
    assert LastIndexOf(stem, '/') == -1;
    assert stem[0] != '.';
    StripExtensionOf(stem, ext);
  }

  /** Two images that differ only in extension get the same base name, so their outputs overwrite each other. */
  lemma SameStemCollides()
    ensures StripExtension("scan.jpg") == StripExtension("scan.png") == "scan"
  {
    assert "scan" + ".jpg" == "scan.jpg";
    ScanBase("scan.jpg", ".jpg");
    assert "scan" + ".png" == "scan.png";
    ScanBase("scan.png", ".png");
  }

  // ---------------------------------------------------------------------
  // Frame indices: the `:04d` format
  // ---------------------------------------------------------------------

  function DigitChar(d: int): char
    requires 0 <= d < 10
  {
    ('0' as int + d) as char
  }

  /** The decimal digits of `n`, without leading zeros. */
  function Decimal(n: nat): (r: string)
    ensures |r| >= 1
    decreases n
  {
    if n < 10 then [DigitChar(n)] else Decimal(n / 10) + [DigitChar(n % 10)]
  }

  /** The number a digit string denotes (the reading `int(s)` performs). */
  function DigitsValue(s: string): int
    decreases |s|
  {
    if s == [] then 0 else DigitsValue(s[..|s| - 1]) * 10 + (s[|s| - 1] as int - '0' as int)
  }

  function Zeros(k: nat): (r: string)
    ensures |r| == k
  {
    seq(k, _ => '0')
  }

  /** `f"{n:04d}"`: at least four digits, zero-padded on the left. */
  function Pad4(n: nat): string {
    var digits := Decimal(n);
    if |digits| >= 4 then digits else Zeros(4 - |digits|) + digits
  }

  lemma {:induction false} DecimalValue(n: nat)
    ensures DigitsValue(Decimal(n)) == n
    decreases n
  {
    if n >= 10 {
      DecimalValue(n / 10);
      var d := Decimal(n / 10) + [DigitChar(n % 10)];
      assert d[..|d| - 1] == Decimal(n / 10);
    }
  }

  lemma {:induction false} ZerosValue(k: nat, s: string)
    ensures DigitsValue(Zeros(k) + s) == DigitsValue(s)
    decreases |s|, k
  {
    if s == [] {
      assert Zeros(k) + s == Zeros(k);
      if k > 0 {
        assert Zeros(k)[..k - 1] == Zeros(k - 1);
        ZerosValue(k - 1, []);
        assert Zeros(k - 1) + [] == Zeros(k - 1);
      }
    } else {
      var t := Zeros(k) + s;
      assert t[..|t| - 1] == Zeros(k) + s[..|s| - 1];
      ZerosValue(k, s[..|s| - 1]);
    }
  }

  /** Reading a padded index back gives the index: the padding loses nothing. */
  lemma Pad4Value(n: nat)
    ensures DigitsValue(Pad4(n)) == n
  {
    DecimalValue(n);
    var digits := Decimal(n);
    if |digits| < 4 {
      ZerosValue(4 - |digits|, digits);
    }
  }

  /** Distinct indices are formatted differently. */
  lemma Pad4Injective(i: nat, j: nat)
    ensures Pad4(i) == Pad4(j) ==> i == j
  {
    Pad4Value(i);
    Pad4Value(j);
  }

  lemma {:induction false} DecimalLength(n: nat, k: nat)
    requires n < Power10(k)
    ensures |Decimal(n)| <= k || (k == 0 && |Decimal(n)| == 1)
    decreases n
  {
    if n >= 10 {
      assert Power10(0) == 1 && Power10(1) == 10;
      DecimalLength(n / 10, k - 1);
    }
  }

  function Power10(k: nat): nat { if k == 0 then 1 else 10 * Power10(k - 1) }

  /** Indices below 10000 take exactly four characters; larger ones are not truncated. */
  lemma Pad4Width(n: nat)
    ensures |Pad4(n)| >= 4
    ensures n < 10000 ==> |Pad4(n)| == 4
  {
    if n < 10000 {
      assert Power10(4) == 10000;
      DecimalLength(n, 4);
    }
  }

  /** `f"{base}_{i:04d}"`: the base name of the outputs of frame `i`. */
  function FrameStem(base: string, i: nat): string {
    base + "_" + Pad4(i)
  }

  /** The output name of frame `i` of the video with base name `base`. */
  function FrameFile(base: string, i: nat, ext: string): string {
    FrameStem(base, i) + ext
  }

  /** Two frame outputs of one video share a name only if they are the same frame and the same kind. */
  lemma FrameFileInjective(base: string, i: nat, j: nat, e1: string, e2: string)
    requires e1 in {".png", ".txt"} && e2 in {".png", ".txt"}
    ensures FrameFile(base, i, e1) == FrameFile(base, j, e2) ==> i == j && e1 == e2
  {
    if FrameFile(base, i, e1) == FrameFile(base, j, e2) {
      var a, b := FrameFile(base, i, e1), FrameFile(base, j, e2);
      assert |Pad4(i)| == |Pad4(j)|;
      var start := |base| + 1;
      assert a[start..start + |Pad4(i)|] == Pad4(i);
      assert b[start..start + |Pad4(j)|] == Pad4(j);
      Pad4Injective(i, j);
      assert e1 == a[|a| - 4..] && e2 == b[|b| - 4..];
    }
  }

  /** Frame 9 of "clip" is written as clip_0009.png, frame 12 as clip_0012.txt. */
  lemma FrameFileExamples()
    ensures FrameFile("clip", 9, ".png") == "clip_0009.png"
    ensures FrameFile("clip", 12, ".txt") == "clip_0012.txt"
  {
    assert Decimal(12) == "12";
    assert Zeros(2) == "00";
    assert Zeros(3) == "000";
  }
}
