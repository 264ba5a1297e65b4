/** The flagged-mothers panel: the records with the flag set, their count in
    the heading, and the empty message. */
module FlaggedList {
  import opened Common
  import opened Records

  function FlaggedMothers(mothers: seq<MotherRow>): (r: seq<MotherRow>)
    ensures |r| <= |mothers|
    ensures forall i :: 0 <= i < |r| ==> r[i] in mothers && r[i].flagged
    ensures forall i :: 0 <= i < |mothers| && mothers[i].flagged ==> mothers[i] in r
  {
    Filter(mothers, (m: MotherRow) => m.flagged)
  }

  /** The relative order of the input is kept: the flagged mothers of a
      list split in two are those of the first part followed by those of the
      second. */
  lemma FlaggedKeepsOrder(a: seq<MotherRow>, b: seq<MotherRow>)
    ensures FlaggedMothers(a + b) == FlaggedMothers(a) + FlaggedMothers(b)
  {
    FilterAppend(a, b, (m: MotherRow) => m.flagged);
  }

  /** The number in the heading. */
  function FlaggedCount(mothers: seq<MotherRow>): (r: nat)
    ensures r <= |mothers|
    ensures r == |FlaggedMothers(mothers)|
  {
    |FlaggedMothers(mothers)|
  }

  /** "No flagged mothers" is shown exactly when no mother is flagged. */
  lemma EmptyMessageIffNoneFlagged(mothers: seq<MotherRow>)
    ensures FlaggedCount(mothers) == 0 <==> forall i :: 0 <= i < |mothers| ==> !mothers[i].flagged
  {
    FilterEmpty(mothers, (m: MotherRow) => m.flagged);
  }
}
