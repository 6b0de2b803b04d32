/**
 * The owner's own spot list: fetching it, and keeping it in step with a
 * remote delete or update. Each backend call's reply is a parameter.
 */
module MySpots {
  import opened Maybe
  import opened Lists

  /** A row of the spots table, with the columns the list keeps. */
  datatype SpotRow = SpotRow(
    id: string, name: string, address: string, city: string, price: real,
    availableSpots: int, totalSpots: int, status: string)

  function OtherThan(id: string): SpotRow -> bool {
    (s: SpotRow) => s.id != id
  }

  /** `prev.filter(spot => spot.id !== spotId)`. */
  function RemoveById(spots: seq<SpotRow>, id: string): seq<SpotRow> {
    Filter(spots, OtherThan(id))
  }

  /** `prev.map(spot => spot.id === spotId ? row : spot)`. */
  function ReplaceById(spots: seq<SpotRow>, id: string, row: SpotRow): seq<SpotRow> {
    seq(|spots|, i requires 0 <= i < |spots| => if spots[i].id == id then row else spots[i])
  }

  /**
   * Removing by id leaves no spot with that id, keeps every other spot, and
   * keeps their order; removing twice is removing once.
   */
  lemma RemoveByIdSpec(spots: seq<SpotRow>, id: string, s: SpotRow)
    ensures forall i :: 0 <= i < |RemoveById(spots, id)| ==> RemoveById(spots, id)[i].id != id
    ensures s in RemoveById(spots, id) <==> s in spots && s.id != id
    ensures IsSubsequence(RemoveById(spots, id), spots)
    ensures RemoveById(RemoveById(spots, id), id) == RemoveById(spots, id)
  {
    FilterSound(spots, OtherThan(id));
    FilterMembers(spots, OtherThan(id), s);
    FilterSubsequence(spots, OtherThan(id));
    FilterAll(RemoveById(spots, id), OtherThan(id));
  }

  /** Without a spot of that id, removing changes nothing. */
  lemma RemoveAbsent(spots: seq<SpotRow>, id: string)
    requires forall i :: 0 <= i < |spots| ==> spots[i].id != id
    ensures RemoveById(spots, id) == spots
  {
    FilterAll(spots, OtherThan(id));
  }

  /**
   * Replacing by id keeps the length and every spot with another id in its
   * place, and puts the row at each place that had the id.
   */
  lemma ReplaceByIdSpec(spots: seq<SpotRow>, id: string, row: SpotRow)
    ensures |ReplaceById(spots, id, row)| == |spots|
    ensures forall i :: 0 <= i < |spots| && spots[i].id != id ==> ReplaceById(spots, id, row)[i] == spots[i]
    ensures forall i :: 0 <= i < |spots| && spots[i].id == id ==> ReplaceById(spots, id, row)[i] == row
    ensures row.id == id ==> ReplaceById(ReplaceById(spots, id, row), id, row) == ReplaceById(spots, id, row)
    ensures (forall i :: 0 <= i < |spots| ==> spots[i].id != id) ==> ReplaceById(spots, id, row) == spots
  {
  }

  /** `useMySpots`: the owner's spots and a loading flag. */
  class MySpotsHook {
    var spots: seq<SpotRow>
    var isLoading: bool

    constructor ()
      ensures spots == [] && isLoading
    {
      spots := [];
      isLoading := true;
    }

    /** `fetchMySpots`: signed out empties the list; a failed query keeps it. */
    method Fetch(user: Option<string>, reply: Result<seq<SpotRow>, string>)
      modifies this
      ensures !isLoading
      ensures user.None? ==> spots == []
      ensures user.Some? && reply.Success? ==> spots == reply.value
      ensures user.Some? && reply.Failure? ==> spots == old(spots)
    {
      if user.None? {
        spots := [];
        isLoading := false;
        return;
      }
      isLoading := true;
      if reply.Success? {
        spots := reply.value;
      }
      isLoading := false;
    }

    /** `deleteSpot`: true and the spot gone from the list only when signed in and the delete succeeded. */
    method Delete(user: Option<string>, spotId: string, reply: Result<(), string>) returns (deleted: bool)
      modifies this`spots
      ensures deleted <==> user.Some? && reply.Success?
      ensures deleted ==> spots == RemoveById(old(spots), spotId)
      ensures !deleted ==> spots == old(spots)
    {
      if user.None? {
        return false;
      }
      if reply.Failure? {
        return false;
      }
      spots := RemoveById(spots, spotId);
      return true;
    }

    /** `updateSpot`: the returned row replaces the spot only when signed in and the update succeeded. */
    method Update(user: Option<string>, spotId: string, reply: Result<SpotRow, string>) returns (updated: Option<SpotRow>)
      modifies this`spots
      ensures updated.Some? <==> user.Some? && reply.Success?
      ensures updated.Some? ==> updated.value == reply.value && spots == ReplaceById(old(spots), spotId, reply.value)
      ensures updated.None? ==> spots == old(spots)
    {
      if user.None? {
        return None;
      }
      if reply.Failure? {
        return None;
      }
      spots := ReplaceById(spots, spotId, reply.value);
      return Some(reply.value);
    }
  }
}
