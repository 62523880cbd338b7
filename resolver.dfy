/**
 * The filename resolver: from one example identifier (one line of the file
 * list) and the dataset root, the paths of its image, its instance-label
 * mask and its box/weight text file.
 */
module Resolver {
  import opened Outcomes
  import opened Text

  const ImagesDir: string := "images/"
  const LabelsDir: string := "panoptic_proc/"
  const BoxesDir: string := "panoptic_txt_weights/"
  const ImageExt: string := ".png"
  const LabelExt: string := "_gtFine_instanceIds.png"
  const BoxExt: string := "_gtFine_instanceIds.txt"

  const Underscore: set<char> := {'_'}

  /** The dataset root as a directory prefix: empty, or ending in `/`. */
  function Root(dir: string): (r: string)
    ensures r == [] || r[|r| - 1] == '/'
    ensures dir <= r && |r| <= |dir| + 1
  {
    if dir == [] || dir[|dir| - 1] == '/' then dir else dir + "/"
  }

  /** `os.path.join(a, b)` for two POSIX components. */
  function PathJoin(a: string, b: string): (p: string)
    ensures b == [] || b[0] != '/' ==> p == Root(a) + b
    ensures b != [] && b[0] == '/' ==> p == b
  {
    if b != [] && b[0] == '/' then b
    else if a == [] || a[|a| - 1] == '/' then a + b
    else a + "/" + b
  }

  /**
   * The stripped identifier of lines 35-36 and 84-85: the identifier split at
   * `_` (empty tokens skipped), its last token dropped, and `unstack(num=3)`
   * insisting that exactly three remain, which are joined again with `_`.
   */
  function StripIdentifier(id: string): (r: Result<string>)
    ensures r.Ok? <==> |Split(id, Underscore)| == 4
    ensures r.Ok? ==> Split(r.value, Underscore) == Split(id, Underscore)[..3]
    ensures r.Err? ==> r.error == MalformedIdentifier(id)
  {
    var tokens := Split(id, Underscore);
    var kept := if tokens == [] then [] else tokens[..|tokens| - 1];
    if |kept| != 3 then Err(MalformedIdentifier(id))
    else
      SplitJoin(kept, '_', Underscore);
      Ok(Join(kept, "_"))
  }

  /** `os.path.join(dir, sub) + name + ext` for a relative sub-directory: the root, then the rest verbatim. */
  function Under(dir: string, sub: string, name: string, ext: string): (p: string)
    requires sub != [] && sub[0] != '/'
    ensures Root(dir) <= p && p[|Root(dir)|..] == sub + name + ext
  {
    PathJoin(dir, sub) + name + ext
  }

  /** `images/<id>.png` under the root (line 43 and line 68); the identifier is not stripped. */
  function ImagePath(dir: string, id: string): (p: string)
    ensures Root(dir) <= p && p[|Root(dir)|..] == ImagesDir + id + ImageExt
  {
    Under(dir, ImagesDir, id, ImageExt)
  }

  /** `panoptic_proc/<stripped>_gtFine_instanceIds.png` under the root (line 44). */
  function LabelPath(dir: string, stripped: string): (p: string)
    ensures Root(dir) <= p && p[|Root(dir)|..] == LabelsDir + stripped + LabelExt
  {
    Under(dir, LabelsDir, stripped, LabelExt)
  }

  /** `panoptic_txt_weights/<stripped>_gtFine_instanceIds.txt` under the root (line 88). */
  function BoxFilePath(dir: string, stripped: string): (p: string)
    ensures Root(dir) <= p && p[|Root(dir)|..] == BoxesDir + stripped + BoxExt
  {
    Under(dir, BoxesDir, stripped, BoxExt)
  }

  // ---------------------------------------------------------------------------
  // Properties

  /** An identifier of four non-empty `_`-free tokens strips to its first three, joined by `_`. */
  lemma StripFourTokens(a: string, b: string, c: string, e: string)
    requires a != [] && b != [] && c != [] && e != []
    requires Free(a, Underscore) && Free(b, Underscore) && Free(c, Underscore) && Free(e, Underscore)
    ensures StripIdentifier(a + "_" + b + "_" + c + "_" + e) == Ok(a + "_" + b + "_" + c)
  {
    var parts := [a, b, c, e];
    JoinFour(a, b, c, e);
    SplitJoin(parts, '_', Underscore);
    assert parts[..3] == [a, b, c];
    JoinThree(a, b, c);
  }

  lemma JoinThree(a: string, b: string, c: string)
    ensures Join([a, b, c], "_") == a + "_" + b + "_" + c
  {
    assert [a, b, c][1..] == [b, c] && [b, c][1..] == [c];
    assert Join([b, c], "_") == b + "_" + c;
  }

  lemma JoinFour(a: string, b: string, c: string, e: string)
    ensures Join([a, b, c, e], "_") == a + "_" + b + "_" + c + "_" + e
  {
    assert [a, b, c, e][1..] == [b, c, e];
    JoinThree(b, c, e);
  }

  /**
   * The stripped identifier, `_` and the dropped token rebuild the identifier
   * whenever the identifier has no leading, trailing or doubled `_`.
   */
  lemma StripDropsLastToken(id: string)
    requires StripIdentifier(id).Ok?
    requires Join(Split(id, Underscore), "_") == id
    ensures StripIdentifier(id).value + "_" + Split(id, Underscore)[3] == id
  {
    var t := Split(id, Underscore);
    assert t == [t[0], t[1], t[2], t[3]];
    assert t[..|t| - 1] == [t[0], t[1], t[2]];
    JoinThree(t[0], t[1], t[2]);
    JoinFour(t[0], t[1], t[2], t[3]);
  }

  /** Identifiers that differ only in their last token share the label and the box file. */
  lemma SiblingsShareAnnotations(dir: string, id1: string, id2: string)
    requires StripIdentifier(id1).Ok? && StripIdentifier(id2).Ok?
    requires Split(id1, Underscore)[..3] == Split(id2, Underscore)[..3]
    ensures LabelPath(dir, StripIdentifier(id1).value) == LabelPath(dir, StripIdentifier(id2).value)
    ensures BoxFilePath(dir, StripIdentifier(id1).value) == BoxFilePath(dir, StripIdentifier(id2).value)
  {
    var t1, t2 := Split(id1, Underscore), Split(id2, Underscore);
    assert t1[..|t1| - 1] == t1[..3] == t2[..3] == t2[..|t2| - 1];
  }

  lemma SuffixInjective(prefix: string, x: string, y: string, ext: string)
    requires prefix + x + ext == prefix + y + ext
    ensures x == y
  {
    var n := |prefix + x + ext|;
    assert x == (prefix + x + ext)[|prefix|..n - |ext|];
    assert y == (prefix + y + ext)[|prefix|..n - |ext|];
  }

  /** Distinct identifiers name distinct image files. */
  lemma ImagePathInjective(dir: string, id1: string, id2: string)
    requires ImagePath(dir, id1) == ImagePath(dir, id2)
    ensures id1 == id2
  {
    SuffixInjective(PathJoin(dir, ImagesDir), id1, id2, ImageExt);
  }

  /** Distinct stripped identifiers name distinct label files and distinct box files. */
  lemma AnnotationPathsInjective(dir: string, s1: string, s2: string)
    requires LabelPath(dir, s1) == LabelPath(dir, s2) || BoxFilePath(dir, s1) == BoxFilePath(dir, s2)
    ensures s1 == s2
  {
    if LabelPath(dir, s1) == LabelPath(dir, s2) {
      SuffixInjective(PathJoin(dir, LabelsDir), s1, s2, LabelExt);
    } else {
      SuffixInjective(PathJoin(dir, BoxesDir), s1, s2, BoxExt);
    }
  }

  /** The image, the label and the box file of an example are three different files. */
  lemma PathsDistinct(dir: string, id: string, stripped: string)
    ensures ImagePath(dir, id) != LabelPath(dir, stripped)
    ensures ImagePath(dir, id) != BoxFilePath(dir, stripped)
    ensures LabelPath(dir, stripped) != BoxFilePath(dir, stripped)
  {
    var n := |Root(dir)|;
    assert ImagePath(dir, id)[n] == 'i';
    assert LabelPath(dir, stripped)[n] == 'p' && BoxFilePath(dir, stripped)[n] == 'p';
    assert LabelPath(dir, stripped)[n + 9] == 'p';
    assert BoxFilePath(dir, stripped)[n + 9] == 't';
  }
}
