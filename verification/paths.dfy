/** The slice of `pathlib` and `str` behaviour the asset code relies on:
    a path's final component, its suffix and stem, joining a directory and a
    file name, suffix tests and ASCII lower-casing. Paths are plain strings
    with '/' as the separator. */
module Paths {

  /** `s.rfind(c)`: the index of the last occurrence of `c`, or -1. */
  function LastIndexOf(s: string, c: char): (r: int)
    ensures -1 <= r < |s|
    ensures r >= 0 ==> s[r] == c
    ensures forall k :: r < k < |s| ==> s[k] != c
  {
    if |s| == 0 then -1
    else if s[|s| - 1] == c then |s| - 1
    else LastIndexOf(s[..|s| - 1], c)
  }

  /** The last occurrence is found wherever the text after it is free of `c`. */
  lemma LastIndexOfSplit(s: string, c: char, t: string)
    requires c !in t
    ensures LastIndexOf(s + [c] + t, c) == |s|
  {
    var u := s + [c] + t;
    assert u[|s|] == c;
  }

  /** `Path(p).name`: everything after the last separator. */
  function BaseName(p: string): string
  {
    p[LastIndexOf(p, '/') + 1..]
  }

  /** The final component is a separator-free tail of the path, and the
      whole path when it has no separator. */
  lemma BaseNameIsLastComponent(p: string)
    ensures '/' !in BaseName(p)
    ensures |BaseName(p)| <= |p| && p[|p| - |BaseName(p)|..] == BaseName(p)
    ensures '/' !in p ==> BaseName(p) == p
  {
  }

  /** Index of the dot that starts the suffix of a final component, or -1
      when it has none: the last dot, provided it is neither the first nor
      the last character. */
  function SuffixDot(name: string): (i: int)
    ensures i == -1 || (0 < i < |name| - 1 && name[i] == '.')
  {
    var i := LastIndexOf(name, '.');
    if 0 < i < |name| - 1 then i else -1
  }

  /** `Path(p).suffix`. */
  function Suffix(p: string): string
  {
    var name := BaseName(p);
    var i := SuffixDot(name);
    if i < 0 then "" else name[i..]
  }

  /** `Path(p).stem`. */
  function Stem(p: string): (r: string)
  {
    var name := BaseName(p);
    var i := SuffixDot(name);
    if i < 0 then name else name[..i]
  }

  /** The stem and the suffix together make up the final component, and a
      final component that has a suffix has a non-empty stem. */
  lemma StemAndSuffix(p: string)
    ensures Stem(p) + Suffix(p) == BaseName(p)
    ensures Suffix(p) != "" ==> |Stem(p)| > 0
  {
  }

  /** A suffix is a dot followed by at least one character, none a dot. */
  lemma SuffixShape(p: string)
    ensures Suffix(p) == "" || (|Suffix(p)| >= 2 && Suffix(p)[0] == '.' && '.' !in Suffix(p)[1..])
  {
  }

  /** A final component `stem.ext` has suffix `.ext` and stem `stem`. */
  lemma SuffixOfName(p: string, stem: string, ext: string)
    requires '.' !in ext && |stem| > 0 && |ext| > 0
    requires BaseName(p) == stem + "." + ext
    ensures Suffix(p) == "." + ext
    ensures Stem(p) == stem
  {
    var name := stem + "." + ext;
    DotBeforeExtension(stem, ext);
    assert name[|stem|..] == "." + ext;
    assert name[..|stem|] == stem;
  }

  lemma DotBeforeExtension(stem: string, ext: string)
    requires '.' !in ext && |stem| > 0 && |ext| > 0
    ensures SuffixDot(stem + "." + ext) == |stem|
  {
    LastIndexOfSplit(stem, '.', ext);
    assert stem + "." + ext == stem + ['.'] + ext;
  }

  /** A separator-free name after a directory ending in a separator (or
      after nothing) is the final component. */
  lemma NameAfterDirectory(dir: string, name: string)
    requires '/' !in name
    requires dir == "" || dir[|dir| - 1] == '/'
    ensures BaseName(dir + name) == name
  {
    if dir == "" {
      assert dir + name == name;
    } else {
      BaseNameAfterSeparator(dir, name);
    }
  }

  predicate EndsWith(s: string, tail: string)
  {
    |tail| <= |s| && s[|s| - |tail|..] == tail
  }

  /** `EndsWith` against an appended tail holds by construction. */
  lemma EndsWithAppended(s: string, tail: string)
    ensures EndsWith(s + tail, tail)
  {
  }

  /** `str(Path(dir) / name)`: an absolute `name` replaces the directory. */
  function Join(dir: string, name: string): string
  {
    if |name| > 0 && name[0] == '/' then name
    else if |dir| == 0 then name
    else if dir[|dir| - 1] == '/' then dir + name
    else dir + "/" + name
  }

  /** Joining a separator-free name onto any directory yields a path whose
      final component is that name, and the joined path ends with it. */
  lemma JoinEndsInName(dir: string, name: string)
    requires '/' !in name && |name| > 0
    ensures BaseName(Join(dir, name)) == name
    ensures EndsWith(Join(dir, name), name)
  {
    if |dir| == 0 || dir[|dir| - 1] == '/' {
      NameAfterDirectory(dir, name);
      assert (dir + name)[|dir + name| - |name|..] == name;
    } else {
      BaseNameAfterSeparator(dir + "/", name);
      assert (dir + "/" + name)[|dir + "/" + name| - |name|..] == name;
    }
  }

  /** A name with no separator, placed after a separator, is the final component. */
  lemma BaseNameAfterSeparator(dir: string, name: string)
    requires |dir| > 0 && dir[|dir| - 1] == '/'
    ensures '/' !in name ==> BaseName(dir + name) == name
  {
    if '/' !in name {
      var s := dir + name;
      var i := LastIndexOf(s, '/');
      assert s[|dir| - 1] == '/';
      assert i == |dir| - 1;
      assert s[i + 1..] == name;
    }
  }

  predicate IsUpper(c: char)
  {
    'A' <= c <= 'Z'
  }

  function LowerChar(c: char): char
  {
    if IsUpper(c) then (c as int + 32) as char else c
  }

  function UpperChar(c: char): char
  {
    if 'a' <= c <= 'z' then (c as int - 32) as char else c
  }

  /** `s.lower()`, restricted to ASCII letters. */
  function Lower(s: string): (r: string)
    ensures |r| == |s|
    ensures forall k :: 0 <= k < |s| ==> r[k] == LowerChar(s[k])
  {
    seq(|s|, k requires 0 <= k < |s| => LowerChar(s[k]))
  }

  /** `s` spells the lower-case word `w`, each letter in either case. */
  predicate SpelledIgnoringCase(s: string, w: string)
  {
    |s| == |w| && forall k :: 0 <= k < |s| ==> s[k] == w[k] || s[k] == UpperChar(w[k])
  }

  /** Lower-casing yields a word with no capitals exactly when the input
      spells that word in some mix of cases. */
  lemma LowerIsCaseInsensitive(s: string, w: string)
    requires forall k :: 0 <= k < |w| ==> !IsUpper(w[k])
    ensures Lower(s) == w <==> SpelledIgnoringCase(s, w)
  {
  }
}
