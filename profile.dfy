/** The mother profile page: the record looked up by the id in the address,
    and the local actions (flag toggle, mark visited, call outcome) that
    merge a few fields into it. Every action does nothing while no record is
    loaded. */
module Profile {
  import opened Common
  import opened Risk
  import SingleCall

  /** `mothers.find(m => m.id === id)`: the index of the first record with
      that id. */
  function FindMother(mothers: seq<Mother>, id: string): (r: Option<nat>)
    ensures r.Some? ==> r.value < |mothers| && mothers[r.value].id == id
    ensures r.Some? ==> forall j :: 0 <= j < r.value ==> mothers[j].id != id
    ensures r.None? <==> forall j :: 0 <= j < |mothers| ==> mothers[j].id != id
  {
    if mothers == [] then None
    else if mothers[0].id == id then Some(0)
    else match FindMother(mothers[1..], id)
      case None => None
      case Some(k) => Some(k + 1)
  }

  /** The fields a local update may carry (the page only ever sends these
      two); an absent field is left alone. */
  datatype Patch = Patch(flagged: Option<bool>, visited: Option<bool>)

  /** `{ ...prev, ...updatedFields }`. */
  function Merge(m: Mother, p: Patch): (r: Mother)
    ensures r == m.(flagged := r.flagged, visited := r.visited)
    ensures p.flagged.None? ==> r.flagged == m.flagged
    ensures p.flagged.Some? ==> r.flagged == p.flagged.value
    ensures p.visited.None? ==> r.visited == m.visited
    ensures p.visited.Some? ==> r.visited == p.visited.value
  {
    var f := if p.flagged.Some? then p.flagged.value else m.flagged;
    var v := if p.visited.Some? then p.visited.value else m.visited;
    m.(flagged := f, visited := v)
  }

  /** The patch `toggleFlag` sends. */
  function TogglePatch(m: Mother): Patch {
    Patch(Some(!m.flagged), None)
  }

  /** Toggling the flag twice gives back the record it started from. */
  lemma ToggleTwice(m: Mother)
    ensures Merge(Merge(m, TogglePatch(m)), TogglePatch(Merge(m, TogglePatch(m)))) == m
  {
  }

  /** Merging the patch of `markVisited` twice is the same as once. */
  lemma MarkVisitedIdempotent(m: Mother)
    ensures Merge(Merge(m, Patch(Some(false), Some(true))), Patch(Some(false), Some(true)))
         == Merge(m, Patch(Some(false), Some(true)))
  {
  }

  class ProfilePage {
    var mother: Option<Mother>
    var loading: bool
    var showCallModal: bool

    constructor ()
      ensures mother == None && loading && !showCallModal
    {
      mother := None;
      loading := true;
      showCallModal := false;
    }

    /** The lookup effect: the first record with that id replaces the shown
        one when there is one; loading ends either way. */
    method Load(mothers: seq<Mother>, id: string)
      modifies this
      ensures !loading && showCallModal == old(showCallModal)
      ensures FindMother(mothers, id).Some? ==> mother == Some(mothers[FindMother(mothers, id).value])
      ensures FindMother(mothers, id).None? ==> mother == old(mother)
    {
      var found := FindMother(mothers, id);
      if found.Some? {
        mother := Some(mothers[found.value]);
      }
      loading := false;
    }

    /** `updateLocalMotherState`: merges the patch into the shown record. */
    method UpdateLocalMotherState(p: Patch)
      modifies this
      ensures old(mother).None? ==> mother == None
      ensures old(mother).Some? ==> mother == Some(Merge(old(mother).value, p))
      ensures loading == old(loading) && showCallModal == old(showCallModal)
    {
      if mother.Some? {
        mother := Some(Merge(mother.value, p));
      }
    }

    method ToggleFlag()
      modifies this
      ensures old(mother).None? ==> mother == None
      ensures old(mother).Some? ==>
        mother == Some(old(mother).value.(flagged := !old(mother).value.flagged))
      ensures loading == old(loading) && showCallModal == old(showCallModal)
    {
      if mother.Some? {
        UpdateLocalMotherState(TogglePatch(mother.value));
      }
    }

    method MarkVisited()
      modifies this
      ensures old(mother).None? ==> mother == None
      ensures old(mother).Some? ==>
        mother == Some(old(mother).value.(visited := true, flagged := false))
      ensures loading == old(loading) && showCallModal == old(showCallModal)
    {
      if mother.Some? {
        UpdateLocalMotherState(Patch(Some(false), Some(true)));
      }
    }

    /** The result of the call dialog: pressing 2 flags the mother, and the
        dialog closes; with no record shown nothing happens at all. */
    method HandleCallComplete(result: SingleCall.Result)
      modifies this
      ensures old(mother).None? ==> mother == None && showCallModal == old(showCallModal)
      ensures old(mother).Some? && result == SingleCall.Pressed2 ==>
        mother == Some(old(mother).value.(flagged := true))
      ensures old(mother).Some? && result == SingleCall.Answered ==> mother == old(mother)
      ensures old(mother).Some? ==> !showCallModal
      ensures loading == old(loading)
    {
      if mother.None? {
        return;
      }
      if result == SingleCall.Pressed2 {
        UpdateLocalMotherState(Patch(Some(true), None));
      }
      showCallModal := false;
    }
  }
}
