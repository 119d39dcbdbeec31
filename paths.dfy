/** Path strings as the core uses them through `URL`: the last path component, the path extension,
    the name without its extension, and appending a component to a directory. */
module Paths {
  import Strings

  /** `lastPathComponent`: the longest suffix of the path that holds no '/'. */
  function LastComponent(path: string): (name: string)
    ensures forall k :: 0 <= k < |name| ==> name[k] != '/'
    ensures |name| <= |path| && path[|path| - |name|..] == name
    ensures |name| < |path| ==> path[|path| - |name| - 1] == '/'
  {
    path[Strings.LastIndexOf(path, '/') + 1..]
  }

  /** The extension of a file name: what follows its last '.', or nothing when it has no '.'. */
  function Extension(name: string): string {
    var d := Strings.LastIndexOf(name, '.');
    if d < 0 then "" else name[d + 1..]
  }

  /** A file name with its extension and the '.' before it removed. */
  function Stem(name: string): string {
    var d := Strings.LastIndexOf(name, '.');
    if d < 0 then name else name[..d]
  }

  /** `pathExtension` of a path. */
  function PathExtension(path: string): string {
    Extension(LastComponent(path))
  }

  /** `deletingPathExtension().lastPathComponent` of a path. */
  function BaseName(path: string): string {
    Stem(LastComponent(path))
  }

  /** `appendingPathComponent(name)` on a directory: exactly one '/' between the two. */
  function AppendingComponent(directory: string, name: string): string {
    if |directory| > 0 && directory[|directory| - 1] == '/' then directory + name
    else directory + "/" + name
  }

  /** The last component splits into the base name and the extension: removing the extension
      and putting it back gives the component again, and neither part holds a '/'; the
      extension holds no '.'. */
  lemma SplitLastComponent(path: string)
    ensures var name, base, ext := LastComponent(path), BaseName(path), PathExtension(path);
            && '/' !in base && '/' !in ext && '.' !in ext
            && name == if '.' in name then base + "." + ext else base
  {
    var name := LastComponent(path);
    Strings.NotInSlice(name, '/', 0, |name|);
    assert name[0..|name|] == name;
    StemAndExtension(name);
    PartsHaveNo(name, '/');
  }

  /** A name is its stem, then '.' and the extension when it has a '.'; the extension holds no '.'. */
  lemma StemAndExtension(name: string)
    ensures '.' !in Extension(name)
    ensures name == if '.' in name then Stem(name) + "." + Extension(name) else Stem(name)
  {
    var d := Strings.LastIndexOf(name, '.');
    if d >= 0 {
      Strings.NotInSlice(name, '.', d + 1, |name|);
      assert name == name[..d] + "." + name[d + 1..] by {
        assert name == name[..d] + name[d..];
        assert name[d..] == [name[d]] + name[d + 1..];
      }
      assert name[d] == '.';
    } else {
      Strings.NotInSlice(name, '.', 0, |name|);
      assert name[0..|name|] == name;
    }
  }

  /** A character absent from a name is absent from its stem and its extension. */
  lemma PartsHaveNo(name: string, c: char)
    requires c !in name
    ensures c !in Stem(name) && c !in Extension(name)
  {
    var d := Strings.LastIndexOf(name, '.');
    if d >= 0 {
      Strings.NotInSlice(name, c, 0, d);
      Strings.NotInSlice(name, c, d + 1, |name|);
    }
  }

  /** Appending a component without '/' to a directory gives a path whose last component is that name. */
  lemma LastComponentOfAppended(directory: string, name: string)
    requires '/' !in name
    ensures LastComponent(AppendingComponent(directory, name)) == name
  {
    var path := AppendingComponent(directory, name);
    var r := Strings.LastIndexOf(path, '/');
    var slash := |path| - |name| - 1;
    assert path[slash] == '/';
    assert path[slash + 1..] == name;
    assert forall k :: slash < k < |path| ==> path[k] == name[k - slash - 1];
    assert r == slash;
  }

  /** Appending a non-empty name keeps the directory as a proper prefix of the path. */
  lemma AppendingKeepsDirectory(directory: string, name: string)
    requires |name| > 0
    ensures var path := AppendingComponent(directory, name);
            |directory| < |path| && path[..|directory|] == directory
  {
  }

  /** A path made of a directory and `base` followed by a suffix `.ext` has base name `base` and extension `ext`. */
  lemma NameWithExtension(directory: string, base: string, suffix: string)
    requires '/' !in base && '/' !in suffix
    requires |suffix| > 0 && suffix[0] == '.' && '.' !in suffix[1..]
    ensures var path := AppendingComponent(directory, base + suffix);
            && LastComponent(path) == base + suffix
            && PathExtension(path) == suffix[1..] && BaseName(path) == base
  {
    var name := base + suffix;
    NoSlashInConcat(base, suffix);
    LastComponentOfAppended(directory, name);
    LastDotBeforeSuffix(base, suffix);
    assert name[|base| + 1..] == suffix[1..];
    assert name[..|base|] == base;
  }

  lemma NoSlashInConcat(a: string, b: string)
    requires '/' !in a && '/' !in b
    ensures '/' !in a + b
  {
    forall k | 0 <= k < |a + b| ensures (a + b)[k] != '/' {
      if k < |a| { assert (a + b)[k] == a[k]; } else { assert (a + b)[k] == b[k - |a|]; }
    }
  }

  lemma LastDotBeforeSuffix(base: string, suffix: string)
    requires |suffix| > 0 && suffix[0] == '.' && '.' !in suffix[1..]
    ensures Strings.LastIndexOf(base + suffix, '.') == |base|
  {
    var name := base + suffix;
    assert name[|base|] == '.';
    forall k | |base| < k < |name| ensures name[k] != '.' {
      assert name[k] == suffix[1..][k - |base| - 1];
    }
  }
}
