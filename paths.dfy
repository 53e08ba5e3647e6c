/** The `pathlib` operations the core relies on, on POSIX path strings:
    `name`, `suffix`, `stem`, `with_suffix`, the `/` join and "is an entry of directory d". */
module Paths {
  import opened Strings
  import opened Wrappers

  lemma LastIndexOfMarked(a: string, c: char, b: string)
    requires c !in b
    ensures LastIndexOf(a + [c] + b, c) == |a|
  {
    LastIndexOfAppend(a + [c], b, c);
  }

  /** `PurePosixPath(p).name`: what follows the last '/'. */
  function Name(p: string): string {
    p[LastIndexOf(p, '/') + 1..]
  }

  /** Everything before `Name(p)`: empty, or a directory path ending in '/'. */
  function DirPrefix(p: string): string {
    p[..LastIndexOf(p, '/') + 1]
  }

  /** The position of the suffix dot in a name, when the name has a suffix. */
  predicate HasSuffix(n: string) {
    var i := LastIndexOf(n, '.');
    0 < i < |n| - 1
  }

  /** `PurePosixPath(p).suffix`: from the last '.' of the name on, unless that dot opens or
      ends the name (a hidden file such as ".mp3", or "track."), in which case "". */
  function Suffix(p: string): string {
    var n := Name(p);
    if HasSuffix(n) then n[LastIndexOf(n, '.')..] else ""
  }

  /** `PurePosixPath(p).stem`: the name without its suffix. */
  function Stem(p: string): string {
    var n := Name(p);
    if HasSuffix(n) then n[..LastIndexOf(n, '.')] else n
  }

  /** `PurePosixPath(p).with_suffix(s)`; an empty name is the `ValueError` pathlib raises. */
  function WithSuffix(p: string, s: string): Option<string> {
    if Name(p) == "" then None else Some(DirPrefix(p) + Stem(p) + s)
  }

  /** `base / name`: an absolute `name` replaces `base`, an empty one leaves `base`. */
  function JoinPath(base: string, name: string): string {
    if |name| > 0 && name[0] == '/' then name
    else if name == "" then base
    else base + "/" + name
  }

  /** `p` is listed by `Path(d).iterdir()`: a non-empty name directly below `d`. */
  predicate DirectlyIn(p: string, d: string) {
    var i := LastIndexOf(p, '/');
    0 <= i < |p| - 1 && p[..i] == d
  }

  /** Stem and suffix split the name: nothing is lost or duplicated. */
  lemma StemSuffix(p: string)
    ensures Stem(p) + Suffix(p) == Name(p)
    ensures DirPrefix(p) + Name(p) == p
  {
  }

  /** A non-empty name has a non-empty stem, and a stem never contains '/'. */
  lemma StemShape(p: string)
    ensures Name(p) != "" ==> Stem(p) != ""
    ensures '/' !in Stem(p)
  {
    var n := Name(p);
    LastIndexOfIsLast(p, '/');
    if HasSuffix(n) {
      var st := n[..LastIndexOf(n, '.')];
      forall k | 0 <= k < |st| ensures st[k] != '/' { assert st[k] == n[k]; }
    }
  }

  /** The name of `DirPrefix(p) + tail` is `tail` when `tail` has no '/'. */
  lemma NameAfterPrefix(p: string, tail: string)
    requires '/' !in tail
    ensures Name(DirPrefix(p) + tail) == tail
    ensures DirPrefix(DirPrefix(p) + tail) == DirPrefix(p)
  {
    var d, i := DirPrefix(p), LastIndexOf(p, '/');
    if i >= 0 {
      assert d == d[..i] + ['/'];
      LastIndexOfMarked(d[..i], '/', tail);
      assert d + tail == d[..i] + ['/'] + tail;
    } else {
      assert d + tail == tail;
    }
  }

  /** An extension such as ".wav": a dot, then a non-empty word without dots or slashes. */
  predicate IsExtension(ext: string) {
    |ext| >= 2 && ext[0] == '.' && '.' !in ext[1..] && '/' !in ext[1..]
  }

  lemma WavIsExtension()
    ensures IsExtension(".wav")
  {
  }

  lemma SlashFreeName(st: string, ext: string)
    requires '/' !in st && IsExtension(ext)
    ensures '/' !in st + ext && Name(st + ext) == st + ext
  {
    assert ext == ext[..1] + ext[1..];
    assert '/' !in ext;
    LastIndexOfAppend(st, ext, '/');
    LastIndexOfIsLast(st, '/');
  }

  lemma ConcatAssoc(a: string, b: string, c: string)
    ensures a + b + c == a + (b + c)
  {
  }

  /** A slash-free, non-empty stem followed by an extension is a name whose stem and suffix
      are exactly those two parts. */
  lemma SuffixedName(st: string, ext: string)
    requires st != "" && '/' !in st && IsExtension(ext)
    ensures '/' !in st + ext
    ensures Stem(st + ext) == st && Suffix(st + ext) == ext
  {
    var tail, w := st + ext, ext[1..];
    SlashFreeName(st, ext);
    assert ext == ['.'] + w;
    assert tail == st + ['.'] + w;
    LastIndexOfMarked(st, '.', w);
    assert HasSuffix(tail);
    assert tail[..|st|] == st;
    assert tail[|st|..] == ext;
  }

  /** `with_suffix(ext)` keeps the directory and the stem and yields a path whose suffix is
      exactly `ext`. */
  lemma WithSuffixShape(p: string, ext: string)
    requires Name(p) != "" && IsExtension(ext)
    ensures WithSuffix(p, ext).Some?
    ensures var q := WithSuffix(p, ext).value;
      Suffix(q) == ext && Stem(q) == Stem(p) && DirPrefix(q) == DirPrefix(p)
  {
    var st := Stem(p);
    StemShape(p);
    var tail := st + ext;
    SuffixedName(st, ext);
    NameAfterPrefix(p, tail);
    var q := DirPrefix(p) + tail;
    ConcatAssoc(DirPrefix(p), st, ext);
    assert Name(q) == tail == Name(tail);
    assert Suffix(q) == Suffix(tail);
    assert Stem(q) == Stem(tail);
  }

  /** A file written to `d / name` is an entry of the directory `d`. */
  lemma JoinedIsDirectlyIn(d: string, name: string)
    requires name != "" && name[0] != '/' && '/' !in name
    ensures DirectlyIn(JoinPath(d, name), d)
    ensures Name(JoinPath(d, name)) == name
  {
    var p := JoinPath(d, name);
    assert p == d + ['/'] + name;
    LastIndexOfMarked(d, '/', name);
    assert p[..|d|] == d;
  }
}
