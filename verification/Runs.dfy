/** What the runs of every machine have in common: counting labels, and weighing passes against faults. */
module Runs {

  function Times<T>(labels: seq<T>, counted: T -> bool): nat {
    if labels == [] then 0
    else Times(labels[..|labels| - 1], counted) + if counted(labels[|labels| - 1]) then 1 else 0
  }

  lemma TimesSnoc<T>(labels: seq<T>, l: T, counted: T -> bool)
    ensures Times(labels + [l], counted) == Times(labels, counted) + if counted(l) then 1 else 0
  {
    assert (labels + [l])[..|labels|] == labels;
  }

  /** Passes that ended, the faults they met, whether the running one has met one, and whether a Ready
      save landed. */
  datatype Tally = Tally(passes: nat, faults: nat, tainted: bool, ready: bool) {
    function Bound(): nat { passes + if tainted then 1 else 0 }

    /** After a label that ended a pass, was a fault, or landed a Ready save. */
    function Next(ended: bool, fault: bool, lands: bool): Tally {
      Tally(passes + (if ended then 1 else 0), faults + (if fault then 1 else 0),
            !ended && (tainted || fault), ready || lands)
    }
  }

  const NOTHING := Tally(0, 0, false, false)
}
