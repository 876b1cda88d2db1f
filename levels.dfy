/** levels: the catalogue of the game's levels, each a display name and the
    stem of its SVG file, addressed by Python tuple indexing. */
module Levels {
  import opened Outcomes

  datatype Level = Level(name: string, stem: string)

  /** The eighteen levels in play order. */
  const Catalogue: seq<Level> := [
    Level("Learning to Move", "level1"),
    Level("Learning to Fart", "level0"),
    Level("Bad Guy", "level1_1"),
    Level("Bad Guys", "level1_2"),
    Level("Learning to Aim", "level2_1"),
    Level("Long Jump", "level4_2"),
    Level("High Jump", "level4_1"),
    Level("Learning to Aim II", "level6"),
    Level("Fart Fart", "level5_1"),
    Level("Fart Fart Again", "level2"),
    Level("Fart Aim Fart", "level3"),
    Level("Triple Skill Farting", "level5"),
    Level("Double Farting", "level4"),
    Level("Hurry Up", "level7"),
    Level("Hurry Up II", "level8"),
    Level("Slipery When Wet", "level9"),
    Level("Farty Farty", "level10"),
    Level("Final Battle", "level11")
  ]

  /** Python's `s[i]`: negative indices count from the end, anything
      outside raises IndexError. */
  function PyIndex<T>(s: seq<T>, i: int): (r: Result<T>)
    ensures r.Ok? <==> -|s| <= i < |s|
    ensures r.Err? ==> r.error == IndexError
    ensures 0 <= i < |s| ==> r == Ok(s[i])
    ensures -|s| <= i < 0 ==> r == Ok(s[|s| + i])
  {
    if 0 <= i < |s| then Ok(s[i])
    else if -|s| <= i < 0 then Ok(s[|s| + i])
    else Err(IndexError)
  }

  /** `levels[idx]`. */
  function Entry(idx: int): Result<Level>
  {
    PyIndex(Catalogue, idx)
  }

  const Directory: string := "levels/"
  const Suffix: string := ".svg"

  /** The path of a level file. */
  function FileOf(stem: string): (f: string)
    ensures |f| == |Directory| + |stem| + |Suffix|
    ensures f[..|Directory|] == Directory && f[|f| - |Suffix|..] == Suffix
  {
    Directory + stem + Suffix
  }

  /** The stem a level path names: the inverse of `FileOf`. */
  function StemOf(f: string): string
    requires |f| >= |Directory| + |Suffix|
  {
    f[|Directory|..|f| - |Suffix|]
  }

  lemma StemOfFile(stem: string)
    ensures StemOf(FileOf(stem)) == stem
  {
    assert FileOf(stem) == Directory + (stem + Suffix);
    assert (stem + Suffix)[..|stem|] == stem;
  }

  /** `get_level_filename(idx)`. */
  function LevelFilename(idx: int): (r: Result<string>)
  {
    var e :- Entry(idx);
    Ok(FileOf(e.stem))
  }

  /** `get_level_name(idx)`. */
  function LevelName(idx: int): (r: Result<string>)
  {
    var e :- Entry(idx);
    Ok(e.name)
  }

  /** The catalogue holds eighteen levels; exactly the indices -18..17
      are accepted, and the name and the file of an index come from the
      same entry. */
  lemma LevelLookup(idx: int)
    ensures |Catalogue| == 18
    ensures LevelFilename(idx).Ok? <==> -18 <= idx < 18
    ensures LevelName(idx).Ok? <==> -18 <= idx < 18
    ensures LevelFilename(idx).Err? ==> LevelFilename(idx).error == IndexError && LevelName(idx).error == IndexError
    ensures -18 <= idx < 18 ==>
              var e := Catalogue[if idx < 0 then idx + 18 else idx];
              LevelName(idx) == Ok(e.name) && LevelFilename(idx) == Ok(FileOf(e.stem))
  {
  }

  /** A negative index names the same level as the index 18 places
      further on. */
  lemma NegativeIndex(idx: int)
    requires -18 <= idx < 0
    ensures LevelFilename(idx) == LevelFilename(idx + 18) && LevelName(idx) == LevelName(idx + 18)
  {
  }

  /** The file of an index gives back the stem of its entry. */
  lemma FilenameNamesStem(idx: int)
    requires 0 <= idx < 18
    ensures LevelFilename(idx).Ok? && |LevelFilename(idx).value| >= |Directory| + |Suffix|
    ensures StemOf(LevelFilename(idx).value) == Catalogue[idx].stem
  {
    StemOfFile(Catalogue[idx].stem);
  }

  /** No two levels share a stem. */
  lemma StemsDistinct(i: int, j: int)
    requires 0 <= i < j < |Catalogue|
    ensures Catalogue[i].stem != Catalogue[j].stem
  {
  }

  /** Distinct indices in 0..17 name distinct files. */
  lemma FilenamesDistinct(i: int, j: int)
    requires 0 <= i < 18 && 0 <= j < 18 && i != j
    ensures LevelFilename(i).value != LevelFilename(j).value
  {
    FilenameNamesStem(i);
    FilenameNamesStem(j);
    if i < j {
      StemsDistinct(i, j);
    } else {
      StemsDistinct(j, i);
    }
  }
}
