/**
  The wallpaper candidate filter: of a folder's file names, keep those whose
  lower-cased form ends in ".jpg", ".jpeg" or ".png", and pick one of them,
  or report that there is none.
 */
module Wallpaper {
  import opened Wrappers

  /** Lower-casing of one character (ASCII letters only). */
  function LowerChar(c: char): char {
    if 'A' <= c <= 'Z' then (c as int + 32) as char else c
  }

  /** Lower-casing of a name, character by character. */
  function Lower(s: string): (r: string)
    ensures |r| == |s|
    ensures forall i :: 0 <= i < |s| ==> r[i] == LowerChar(s[i])
    ensures forall i :: 0 <= i < |r| ==> !('A' <= r[i] <= 'Z')
  {
    if s == [] then [] else [LowerChar(s[0])] + Lower(s[1..])
  }

  /** Lower-casing distributes over concatenation. */
  lemma LowerConcat(a: string, b: string)
    ensures Lower(a + b) == Lower(a) + Lower(b)
  {
  }

  /** Lower-casing twice is lower-casing once. */
  lemma LowerIdempotent(s: string)
    ensures Lower(Lower(s)) == Lower(s)
  {
  }

  /** `s` ends with `suffix`. */
  predicate EndsWith(s: string, suffix: string) {
    |suffix| <= |s| && s[|s| - |suffix|..] == suffix
  }

  /** The accepted image extensions. */
  const Extensions: seq<string> := [".jpg", ".jpeg", ".png"]

  /** The file name's lower-cased form ends in one of the accepted extensions. */
  predicate HasImageExtension(name: string) {
    exists e :: e in Extensions && EndsWith(Lower(name), e)
  }

  /** The match is case-insensitive: any stem followed by an extension written
      in any mix of cases is accepted. */
  lemma ExtensionAnyCase(stem: string, ext: string)
    requires Lower(ext) in Extensions
    ensures HasImageExtension(stem + ext)
  {
    LowerConcat(stem, ext);
    var lower, e := Lower(stem + ext), Lower(ext);
    assert lower == Lower(stem) + e;
    assert lower[|lower| - |e|..] == e;
    assert EndsWith(lower, e);
  }

  /** An upper-case extension is accepted. */
  lemma UpperCaseExample()
    ensures HasImageExtension("IMG.JPG")
  {
    assert Lower(".JPG") == ".jpg";
    ExtensionAnyCase("IMG", ".JPG");
    assert "IMG" + ".JPG" == "IMG.JPG";
  }

  /** A name without an image extension is dropped, even when it mentions
      one earlier in the name. */
  lemma OtherFileExample()
    ensures !HasImageExtension("a.png.txt")
  {
    var lower := Lower("a.png.txt");
    assert lower[4] == LowerChar('g') == 'g';
    assert lower[6] == LowerChar('t') == 't';
  }

  /** Names that agree up to case are accepted or rejected together. */
  lemma SameCaseInsensitively(a: string, b: string)
    requires Lower(a) == Lower(b)
    ensures HasImageExtension(a) <==> HasImageExtension(b)
  {
  }

  /** The file names kept as wallpaper candidates, in listing order. */
  function Candidates(names: seq<string>): (r: seq<string>)
    ensures |r| <= |names|
    ensures forall f :: f in r <==> f in names && HasImageExtension(f)
  {
    if names == [] then []
    else (if HasImageExtension(names[0]) then [names[0]] else []) + Candidates(names[1..])
  }

  /** Filtering a concatenated listing filters each part: the filter keeps
      the listing's order and drops nothing else. */
  lemma {:induction false} CandidatesAppend(a: seq<string>, b: seq<string>)
    ensures Candidates(a + b) == Candidates(a) + Candidates(b)
  {
    if a != [] {
      assert (a + b)[0] == a[0];
      assert (a + b)[1..] == a[1..] + b;
      CandidatesAppend(a[1..], b);
    } else {
      assert a + b == b;
    }
  }

  /** Chooses a wallpaper from a folder listing: none when no name has an
      image extension, otherwise some kept name (the choice among them is
      left open). */
  method PickWallpaper(names: seq<string>) returns (pick: Option<string>)
    ensures pick.None? <==> forall f :: f in names ==> !HasImageExtension(f)
    ensures pick.None? <==> Candidates(names) == []
    ensures pick.Some? ==> pick.value in Candidates(names)
  {
    var files := Candidates(names);
    if files == [] {
      pick := None;
    } else {
      assert files[0] in files;
      var f :| f in files;
      pick := Some(f);
    }
  }
}
