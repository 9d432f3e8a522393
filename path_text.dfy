/** The two .NET string operations the upload check relies on: `Path.GetExtension`
    (the extension of the last path segment, dot included) and `ToLowerInvariant`. */
module PathText {
  import opened Wrappers

  /** The directory separators differ between the platforms .NET runs on. */
  datatype Platform = Unix | Windows

  predicate IsDirectorySeparator(c: char, platform: Platform)
  {
    c == '/' || (platform == Windows && c == '\\')
  }

  /** Neither a '.' nor a directory separator occurs in s[from..]. */
  predicate PlainFrom(s: string, from: nat, platform: Platform)
  {
    forall k :: from <= k < |s| ==> s[k] != '.' && !IsDirectorySeparator(s[k], platform)
  }

  /** The index of the last '.' of the last path segment, if that segment has one:
      the scan runs backwards from the end and stops at the first separator. */
  function LastDotInFileName(path: string, platform: Platform): (r: Option<nat>)
    ensures r.Some? ==> r.value < |path| && path[r.value] == '.' && PlainFrom(path, r.value + 1, platform)
    ensures r.None? ==>
      forall j :: 0 <= j < |path| && path[j] == '.' ==>
        exists k :: j < k < |path| && IsDirectorySeparator(path[k], platform)
    decreases |path|
  {
    if |path| == 0 then None
    else if path[|path| - 1] == '.' then Some(|path| - 1)
    else if IsDirectorySeparator(path[|path| - 1], platform) then None
    else
      var front := path[..|path| - 1];
      var r := LastDotInFileName(front, platform);
      assert forall k :: 0 <= k < |front| ==> front[k] == path[k];
      r
  }

  /** `Path.GetExtension`: the suffix starting at the last '.' of the last segment, or ""
      when that segment has no '.' or ends with one. A non-empty extension is a suffix of
      the path, starts with '.', has at least one more character and none of those is a
      '.' or a separator. */
  function GetExtension(path: string, platform: Platform): (r: string)
    ensures r == "" ||
      (2 <= |r| <= |path| && r == path[|path| - |r|..] && r[0] == '.' && PlainFrom(r, 1, platform))
  {
    match LastDotInFileName(path, platform)
    case None => ""
    case Some(i) => if i == |path| - 1 then "" else path[i..]
  }

  /** Conversely, any suffix of that shape is the extension: together with the ensures of
      GetExtension this pins the result down completely. */
  lemma GetExtensionOfSuffix(path: string, platform: Platform, n: nat)
    requires 2 <= n <= |path|
    requires path[|path| - n] == '.' && PlainFrom(path, |path| - n + 1, platform)
    ensures GetExtension(path, platform) == path[|path| - n..]
  {
  }

  /** Invariant-culture lower-casing of one character (ASCII letters only). */
  function LowerChar(c: char): char
  {
    if 'A' <= c <= 'Z' then (c as int + 32) as char else c
  }

  /** `ToLowerInvariant`: lower-cases character by character, keeping the length. */
  function ToLowerInvariant(s: string): (r: string)
    ensures |r| == |s|
    ensures forall i :: 0 <= i < |s| ==> r[i] == LowerChar(s[i])
  {
    if s == [] then [] else [LowerChar(s[0])] + ToLowerInvariant(s[1..])
  }

  /** Lower-casing never produces a '.' from anything else and produces a lower-case
      letter only from a letter, so it cannot create a dot or hide a separator. */
  lemma LowerCharPreimage(c: char, platform: Platform)
    ensures LowerChar(c) == '.' ==> c == '.'
    ensures 'a' <= LowerChar(c) <= 'z' ==> c != '.' && !IsDirectorySeparator(c, platform)
  {
  }
}
