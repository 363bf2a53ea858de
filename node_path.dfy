/**
 * The string and path helpers of Node.js that the core applies to file
 * names: `s.split(sep)[0]`, `path.basename` and `path.extname` (POSIX form,
 * separator `/`).
 */
module NodePath {

  /** `s.split(sep)[0]` for a one-character separator: the text before its first occurrence. */
  function BeforeFirst(s: string, sep: char): string
  {
    if s == [] || s[0] == sep then "" else [s[0]] + BeforeFirst(s[1..], sep)
  }

  /** The text before the first separator is a prefix free of it, cut at the separator. */
  lemma {:induction false} BeforeFirstShape(s: string, sep: char)
    ensures var r := BeforeFirst(s, sep);
      |r| <= |s| && r == s[..|r|] && sep !in r && (|r| < |s| ==> s[|r|] == sep)
    decreases |s|
  {
    if s != [] && s[0] != sep {
      BeforeFirstShape(s[1..], sep);
    }
  }

  /** The path with its trailing separators removed (`path.basename` ignores them). */
  function TrimTrailingSlashes(p: string): string
  {
    if p != [] && p[|p| - 1] == '/' then TrimTrailingSlashes(p[..|p| - 1]) else p
  }

  /** The text after the last separator. */
  function AfterLastSlash(p: string): string
  {
    if p == [] then ""
    else if p[|p| - 1] == '/' then ""
    else AfterLastSlash(p[..|p| - 1]) + [p[|p| - 1]]
  }

  /** The text after the last separator is a separator-free suffix, cut after a separator. */
  lemma {:induction false} AfterLastSlashShape(p: string)
    ensures var r := AfterLastSlash(p);
      '/' !in r && |r| <= |p| && r == p[|p| - |r|..] && (|r| < |p| ==> p[|p| - |r| - 1] == '/')
    decreases |p|
  {
    if p != [] && p[|p| - 1] != '/' {
      AfterLastSlashShape(p[..|p| - 1]);
    }
  }

  /** `path.basename(p)`: the last path portion, trailing separators ignored. */
  function Basename(p: string): string
  {
    AfterLastSlash(TrimTrailingSlashes(p))
  }

  /** Index of the last `.` in `s`, if any. */
  function LastDot(s: string): (r: int)
    ensures -1 <= r < |s|
  {
    if s == [] then -1
    else if s[|s| - 1] == '.' then |s| - 1
    else LastDot(s[..|s| - 1])
  }

  /** The index found holds a dot and no dot follows it. */
  lemma {:induction false} LastDotShape(s: string)
    ensures LastDot(s) >= 0 ==> s[LastDot(s)] == '.'
    ensures forall i :: LastDot(s) < i < |s| ==> s[i] != '.'
    decreases |s|
  {
    if s != [] && s[|s| - 1] != '.' {
      LastDotShape(s[..|s| - 1]);
    }
  }

  /**
   * `path.extname(p)`: from the last `.` of the last portion to its end;
   * empty when there is no dot, when the portion starts with its only dot
   * (`.bashrc`), or when the portion is `..`.
   */
  function ExtName(p: string): (r: string)
  {
    var b := Basename(p);
    var d := LastDot(b);
    if d <= 0 || b == ".." then "" else b[d..]
  }

  /** The extension begins with a dot and holds no other dot nor separator. */
  lemma ExtNameShape(p: string)
    ensures ExtName(p) != "" ==> ExtName(p)[0] == '.'
    ensures forall i :: 1 <= i < |ExtName(p)| ==> ExtName(p)[i] != '.' && ExtName(p)[i] != '/'
  {
    var t := TrimTrailingSlashes(p);
    var b := AfterLastSlash(t);
    AfterLastSlashShape(t);
    assert Basename(p) == b && '/' !in b;
    LastDotShape(b);
    var d := LastDot(b);
    if d > 0 && b != ".." {
      assert ExtName(p) == b[d..];
      forall i | 1 <= i < |b[d..]| ensures b[d..][i] != '.' && b[d..][i] != '/' {
        assert b[d..][i] == b[d + i] && b[d + i] in b;
      }
    }
  }

  /** A file name `stem.ext` with a dot-free stem that is not empty has extension `.ext`. */
  lemma ExtNameOfSimpleName(stem: string, ext: string)
    requires stem != [] && '.' !in stem && '/' !in stem
    requires '.' !in ext && '/' !in ext
    ensures ExtName(stem + "." + ext) == "." + ext
  {
    var p := stem + "." + ext;
    assert '/' !in p;
    AfterLastSlashNoSlash(p);
    assert Basename(p) == p;
    LastDotOf(stem, ext);
    assert p[|stem|..] == "." + ext;
    assert p != "..";
  }

  lemma {:induction false} AfterLastSlashNoSlash(p: string)
    requires '/' !in p
    ensures AfterLastSlash(p) == p
    ensures TrimTrailingSlashes(p) == p
    decreases |p|
  {
    if p != [] {
      AfterLastSlashNoSlash(p[..|p| - 1]);
      assert p[..|p| - 1] + [p[|p| - 1]] == p;
    }
  }

  lemma {:induction false} LastDotOf(stem: string, ext: string)
    requires '.' !in ext
    ensures LastDot(stem + "." + ext) == |stem|
    decreases |ext|
  {
    var p := stem + "." + ext;
    if ext != [] {
      assert p[..|p| - 1] == stem + "." + ext[..|ext| - 1];
      LastDotOf(stem, ext[..|ext| - 1]);
    }
  }

  /** The text before the first separator is all of a text that holds none. */
  lemma {:induction false} BeforeFirstNone(a: string, sep: char)
    requires sep !in a
    ensures BeforeFirst(a, sep) == a
    decreases |a|
  {
    if a != [] {
      BeforeFirstNone(a[1..], sep);
      assert [a[0]] + a[1..] == a;
    }
  }

  /** Splitting `a + sep + rest` stops at the separator after `a`. */
  lemma {:induction false} BeforeFirstOf(a: string, sep: char, rest: string)
    requires sep !in a
    ensures BeforeFirst(a + [sep] + rest, sep) == a
    decreases |a|
  {
    if a == [] {
      assert (a + [sep] + rest)[0] == sep;
    } else {
      assert (a + [sep] + rest)[1..] == a[1..] + [sep] + rest;
      BeforeFirstOf(a[1..], sep, rest);
      assert [a[0]] + a[1..] == a;
    }
  }

  /**
   * The key a file is indexed under: `path.basename(p.split('.')[0])`, the
   * last portion of everything before the first dot of the whole path.
   */
  function FileIndexKey(p: string): string
  {
    Basename(BeforeFirst(p, '.'))
  }

  /**
   * When no directory of the path holds a dot, the key is the file name up to
   * its first dot, the same key the documents are processed under
   * (`path.basename(p).split('.')[0]`).
   */
  lemma FileIndexKeyOf(dir: string, stem: string, ext: string)
    requires stem != [] && '.' !in dir && '.' !in stem && '/' !in stem && '/' !in ext
    ensures FileIndexKey(dir + "/" + stem + "." + ext) == stem
    ensures BeforeFirst(Basename(dir + "/" + stem + "." + ext), '.') == stem
  {
    var head := dir + "/" + stem;
    var name := stem + "." + ext;
    assert dir + "/" + stem + "." + ext == head + ['.'] + ext;
    assert dir + "/" + stem + "." + ext == dir + "/" + name;
    IndexKeyPart(dir, stem, ext);
    BasenameAfter(dir, name);
    assert name == stem + ['.'] + ext;
    BeforeFirstOf(stem, '.', ext);
  }

  lemma IndexKeyPart(dir: string, stem: string, ext: string)
    requires stem != [] && '.' !in dir && '.' !in stem && '/' !in stem
    ensures FileIndexKey((dir + "/" + stem) + ['.'] + ext) == stem
  {
    var head := dir + "/" + stem;
    assert '.' !in head;
    BeforeFirstOf(head, '.', ext);
    BasenameAfter(dir, stem);
  }

  /** The last portion of `dir/name` is `name` when `name` is a non-empty slash-free text. */
  lemma BasenameAfter(dir: string, name: string)
    requires '/' !in name
    ensures name != [] ==> Basename(dir + "/" + name) == name
  {
    if name != [] {
      var p := dir + "/" + name;
      assert p[..|p| - 1] == dir + "/" + name[..|name| - 1];
      assert TrimTrailingSlashes(p) == p;
      AfterLastSlashSuffix(dir + "/", name);
    }
  }

  lemma {:induction false} AfterLastSlashSuffix(d: string, name: string)
    requires d != [] && d[|d| - 1] == '/' && '/' !in name
    ensures AfterLastSlash(d + name) == name
    decreases |name|
  {
    if name == [] {
      assert d + name == d;
    } else {
      assert (d + name)[..|d + name| - 1] == d + name[..|name| - 1];
      AfterLastSlashSuffix(d, name[..|name| - 1]);
      assert name[..|name| - 1] + [name[|name| - 1]] == name;
    }
  }

  /**
   * With a dot in a directory, the key is cut inside that directory, whatever
   * the file is called: `/a.b/c/d.json` is indexed under `a`.
   */
  lemma FileIndexKeyCutsDirectory(a: string, rest: string)
    requires a != [] && '.' !in a && '/' !in a
    ensures FileIndexKey("/" + a + "." + rest) == a
  {
    assert "/" + a + "." + rest == ("/" + a) + ['.'] + rest;
    assert '.' !in "/" + a;
    BeforeFirstOf("/" + a, '.', rest);
    BasenameAfter("", a);
    assert "" + "/" + a == "/" + a;
  }

  /** `a + '/' + b`: the model joins output paths by plain concatenation. */
  function Join(a: string, b: string): string
  {
    a + "/" + b
  }
}
