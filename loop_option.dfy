/** `LoopOption`: the three repeat modes and the symbol shown for each. */
module Loops {
  import opened Wrappers

  /** `loopPlaylist`, `loopOneSong`, `shuffle` */
  datatype LoopOption = LoopPlaylist | LoopOneSong | Shuffle

  /** `LoopOption.allCases`, in declaration order. */
  const AllCases: seq<LoopOption> := [LoopPlaylist, LoopOneSong, Shuffle]

  /** `imgName`: the SF Symbol name of each mode. */
  function ImgName(o: LoopOption): (r: string)
    ensures r == "repeat" || r == "repeat.1" || r == "shuffle"
  {
    match o
    case LoopPlaylist => "repeat"
    case LoopOneSong => "repeat.1"
    case Shuffle => "shuffle"
  }

  /** The mode a symbol name stands for, if any. */
  function OptionNamed(name: string): (r: Option<LoopOption>)
    ensures r.Some? ==> ImgName(r.value) == name
  {
    if name == "repeat" then Some(LoopPlaylist)
    else if name == "repeat.1" then Some(LoopOneSong)
    else if name == "shuffle" then Some(Shuffle)
    else None
  }

  /** Every mode's symbol names that mode and no other. */
  lemma ImgNameRoundTrip(o: LoopOption)
    ensures OptionNamed(ImgName(o)) == Some(o)
  {
  }

  /** Distinct modes show distinct symbols. */
  lemma ImgNameInjective(a: LoopOption, b: LoopOption)
    requires ImgName(a) == ImgName(b)
    ensures a == b
  {
    ImgNameRoundTrip(a);
    ImgNameRoundTrip(b);
  }

  /** `allCases` lists every mode exactly once, in declaration order. */
  lemma AllCasesComplete(o: LoopOption)
    ensures |AllCases| == 3 && o in AllCases
    ensures AllCases[0] == LoopPlaylist && AllCases[1] == LoopOneSong && AllCases[2] == Shuffle
    ensures forall i, j :: 0 <= i < j < |AllCases| ==> AllCases[i] != AllCases[j]
  {
  }
}
