/**
 * The part of the host file system the agents and tools look at: which
 * paths are regular files (with their text) and which are directories, and
 * the `os.path` string helpers they apply to paths (`basename`, `splitext`).
 * Paths are taken as written; nothing is normalised or resolved.
 */
module FileSystem {
  import opened Values

  /** A snapshot: the text of every regular file, and the set of directories. */
  datatype Fs = Fs(files: map<string, string>, dirs: set<string>)

  /** The disk the tools read and write; `write` replaces a file's whole text. */
  class Disk {
    var files: map<string, string>
    var dirs: set<string>

    constructor (files: map<string, string>, dirs: set<string>)
      ensures this.files == files && this.dirs == dirs
    {
      this.files := files;
      this.dirs := dirs;
    }

    function View(): Fs
      reads this
    {
      Fs(files, dirs)
    }
  }

  function StatTypeError(p: Json): string {
    "stat: path should be string, bytes, os.PathLike or integer, not " + TypeName(p)
  }

  /**
   * The text `open(path, 'r').read()` returns: universal newlines turn each
   * "\r\n" and each lone "\r" into "\n".
   */
  function ReadText(s: string): (r: string)
    ensures '\r' !in r
    ensures |r| <= |s|
    decreases |s|
  {
    if s == [] then []
    else if s[0] == '\r' then "\n" + ReadText(if |s| > 1 && s[1] == '\n' then s[2..] else s[1..])
    else [s[0]] + ReadText(s[1..])
  }

  /** Text without a carriage return reads back unchanged. */
  lemma {:induction false} ReadTextKeepsLf(s: string)
    requires '\r' !in s
    ensures ReadText(s) == s
    decreases |s|
  {
    if s != [] {
      assert s[0] in s;
      assert forall c :: c in s[1..] ==> c in s;
      ReadTextKeepsLf(s[1..]);
    }
  }

  /** Reading text already read changes nothing. */
  lemma ReadTextIdempotent(s: string)
    ensures ReadText(ReadText(s)) == ReadText(s)
  {
    ReadTextKeepsLf(ReadText(s));
  }

  /** A Windows line ending reads as a single newline. */
  lemma ReadTextCrLf()
    ensures ReadText("a\r\nb") == "a\nb"
  {
    assert "a\r\nb"[1..] == "\r\nb" && "\r\nb"[2..] == "b";
    assert ReadText("b") == ['b'] + ReadText([]);
  }

  /**
   * `os.path.isfile(p)`: a string path is a file when the snapshot has it.
   * An integer is a file descriptor, taken here as not a file; None, a list
   * or a dict makes `os.stat` raise.
   */
  function IsFile(fs: Fs, p: Json): (r: Outcome<bool>)
    ensures p.JStr? ==> r == Ok(p.s in fs.files)
    ensures r.Raise? <==> p.JNull? || p.JArr? || p.JObj?
  {
    match p
    case JStr(s) => Ok(s in fs.files)
    case JInt(_) => Ok(false)
    case JBool(_) => Ok(false)
    case _ => Raise(StatTypeError(p))
  }

  /** `os.path.isdir(p)`, on the same terms as IsFile. */
  function IsDir(fs: Fs, p: Json): (r: Outcome<bool>)
    ensures p.JStr? ==> r == Ok(p.s in fs.dirs)
    ensures r.Raise? <==> p.JNull? || p.JArr? || p.JObj?
  {
    match p
    case JStr(s) => Ok(s in fs.dirs)
    case JInt(_) => Ok(false)
    case JBool(_) => Ok(false)
    case _ => Raise(StatTypeError(p))
  }

  /** `s.rfind(c)`: the last index holding c, or -1. */
  function LastIndex(s: string, c: char): (r: int)
    ensures -1 <= r < |s|
    ensures r >= 0 ==> s[r] == c
    ensures forall k :: r < k < |s| ==> s[k] != c
  {
    if s == [] then -1
    else if s[|s| - 1] == c then |s| - 1
    else LastIndex(s[..|s| - 1], c)
  }

  /** `os.path.basename(p)`: what follows the last `/`. */
  function Basename(p: string): (r: string)
    ensures |r| <= |p| && r == p[|p| - |r|..] && '/' !in r
    ensures |r| < |p| ==> p[|p| - |r| - 1] == '/'
  {
    p[LastIndex(p, '/') + 1..]
  }

  /** Some character of s[lo..hi] is not a dot. */
  predicate HasNonDot(s: string, lo: int, hi: int)
    requires 0 <= lo && hi <= |s|
  {
    exists k :: lo <= k < hi && s[k] != '.'
  }

  /**
   * The extension `os.path.splitext(p)` splits off: from the last `.` on,
   * provided that dot lies in the last path component and is not one of the
   * component's leading dots; otherwise empty.
   */
  function Ext(p: string): (r: string)
    ensures r == [] || (|r| <= |p| && r == p[|p| - |r|..] && r[0] == '.' && '.' !in r[1..] && '/' !in r)
  {
    var sep := LastIndex(p, '/');
    var dot := LastIndex(p, '.');
    if dot > sep && HasNonDot(p, sep + 1, dot) then
      p[dot..]
    else ""
  }

  /** A file name with a stem and one dotted suffix, in any directory, has that suffix as its extension. */
  lemma ExtOfName(dir: string, stem: string, suffix: string)
    requires dir == [] || dir[|dir| - 1] == '/'
    requires stem != [] && stem[0] != '.' && '/' !in stem
    requires '.' !in suffix && '/' !in suffix
    ensures Ext(dir + stem + "." + suffix) == "." + suffix
  {
    var p := dir + stem + "." + suffix;
    var dot := |dir| + |stem|;
    assert p[dot] == '.';
    assert forall k :: dot < k < |p| ==> p[k] == suffix[k - dot - 1];
    LastIndexAt(p, '.', dot);
    assert p[|dir|] == stem[0];
    if dir == [] {
      LastIndexNone(p, '/');
    } else {
      assert forall k :: |dir| <= k < dot ==> p[k] == stem[k - |dir|];
      LastIndexAt(p, '/', |dir| - 1);
    }
    assert HasNonDot(p, LastIndex(p, '/') + 1, dot);
    assert p[dot..] == "." + suffix;
  }

  /** A name made of leading dots and a suffix (a dot-file) has no extension. */
  lemma ExtOfDotFile(suffix: string)
    requires '.' !in suffix && '/' !in suffix
    ensures Ext("." + suffix) == ""
  {
    var p := "." + suffix;
    assert forall k :: 0 < k < |p| ==> p[k] == suffix[k - 1];
    LastIndexAt(p, '.', 0);
    LastIndexNone(p, '/');
  }

  lemma LastIndexAt(s: string, c: char, i: nat)
    requires i < |s| && s[i] == c && forall k :: i < k < |s| ==> s[k] != c
    ensures LastIndex(s, c) == i
  {
  }

  lemma LastIndexNone(s: string, c: char)
    requires c !in s
    ensures LastIndex(s, c) == -1
  {
  }
}
