/** File names: the last component of a path, and the name the annotated
    copy of an image is written under. */
module Paths {

  /** Characters that separate directory components. */
  predicate IsSeparator(c: char)
  {
    c == '/' || c == '\\'
  }

  predicate NoSeparator(s: string)
  {
    forall i :: 0 <= i < |s| ==> !IsSeparator(s[i])
  }

  /** The last component of `path`: everything after its last separator, or
      the whole path when it has none. */
  function Basename(path: string): (name: string)
    ensures |name| <= |path| && name == path[|path| - |name|..]
    ensures NoSeparator(name)
    ensures |name| == |path| || IsSeparator(path[|path| - |name| - 1])
    decreases |path|
  {
    if |path| == 0 || IsSeparator(path[|path| - 1]) then ""
    else Basename(path[..|path| - 1]) + [path[|path| - 1]]
  }

  /** The base name is the only way to split a path into a directory part
      that is empty or ends in a separator and a separator-free name. */
  lemma {:induction false} BasenameUnique(dir: string, name: string)
    requires |dir| == 0 || IsSeparator(dir[|dir| - 1])
    requires NoSeparator(name)
    ensures Basename(dir + name) == name
    decreases |name|
  {
    if |name| == 0 {
      assert dir + name == dir;
    } else {
      var init := name[..|name| - 1];
      assert NoSeparator(init) by {
        forall i | 0 <= i < |init| ensures !IsSeparator(init[i]) {
          assert init[i] == name[i];
        }
      }
      BasenameUnique(dir, init);
      var path := dir + name;
      var last := name[|name| - 1];
      assert path[|path| - 1] == last && !IsSeparator(last);
      assert path[..|path| - 1] == dir + init;
      assert Basename(path) == Basename(dir + init) + [last];
      assert name == init + [last];
    }
  }

  /** A path that already has no separator is its own base name. */
  lemma BasenameOfPlainName(name: string)
    requires NoSeparator(name)
    ensures Basename(name) == name
  {
  }

  /** Prefix of every output file name. */
  const OutPrefix: string := "out-"

  /** The name the annotated image is written under, in the working directory. */
  function OutputName(imagePath: string): (out: string)
    ensures |out| >= |OutPrefix| && out[..|OutPrefix|] == OutPrefix
    ensures out[|OutPrefix|..] == Basename(imagePath)
    ensures NoSeparator(out)
  {
    var name := Basename(imagePath);
    OutPrefixIsPlain();
    NoSeparatorConcat(OutPrefix, name);
    assert (OutPrefix + name)[..|OutPrefix|] == OutPrefix;
    assert (OutPrefix + name)[|OutPrefix|..] == name;
    OutPrefix + name
  }

  lemma OutPrefixIsPlain()
    ensures NoSeparator(OutPrefix)
  {
  }

  lemma NoSeparatorConcat(a: string, b: string)
    requires NoSeparator(a) && NoSeparator(b)
    ensures NoSeparator(a + b)
  {
    forall i | 0 <= i < |a + b| ensures !IsSeparator((a + b)[i]) {
      if i < |a| { assert (a + b)[i] == a[i]; } else { assert (a + b)[i] == b[i - |a|]; }
    }
  }

  /** Taking the base name is idempotent, so the output name of a path and
      of its base name agree. */
  lemma OutputNameIgnoresDirectory(imagePath: string)
    ensures OutputName(Basename(imagePath)) == OutputName(imagePath)
  {
  }
}
