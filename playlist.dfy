/**
 * The pure part of the playback controller: the tracks of the shared music
 * list, the rules that turn a requested index into a cursor, the sequential
 * ("loop") successor and predecessor, and the search that finds a persisted
 * track id again after the list was rescanned.
 */
module Playlist {

  /** A local track. Only the two fields the controller reads are kept. */
  datatype Track = Track(id: int, path: string)

  datatype Option<T> = None | Some(value: T)

  /** No two tracks of the list share an id. */
  predicate DistinctIds(list: seq<Track>)
  {
    forall i, j :: 0 <= i < j < |list| ==> list[i].id != list[j].id
  }

  /**
   * The index normalisation done by play(int) on a non-empty list: a negative
   * index selects the last track, an index past the end selects the first.
   */
  function Normalize(position: int, size: nat): (r: int)
    requires size > 0
    ensures 0 <= r < size
    ensures 0 <= position < size ==> r == position
    ensures position < 0 ==> r == size - 1
    ensures position >= size ==> r == 0
  {
    if position < 0 then size - 1
    else if position >= size then 0
    else position
  }

  /** The cursor next() assigns under the Loop mode, before play(int) normalises it. */
  function LoopNext(position: int, size: nat): (r: int)
    ensures 0 <= position < size ==> 0 <= r < size
    ensures position == -1 && size > 0 ==> r == 0
  {
    if position != size - 1 then position + 1 else 0
  }

  /**
   * The cursor prev() assigns under the Loop mode, as written: from the first
   * track it assigns `size`, which play(int) then wraps to the FIRST track.
   */
  function LoopPrev(position: int, size: nat): (r: int)
    ensures 0 < position <= size ==> 0 <= r < size
    ensures position == 0 ==> r == size
  {
    if position != 0 then position - 1 else size
  }

  /** The predecessor the code's own comment describes: from the first track, the last one. */
  function LoopPrevIntended(position: int, size: nat): (r: int)
    ensures 0 <= position < size ==> 0 <= r < size
  {
    if position != 0 then position - 1 else size - 1
  }

  /** Index of the first track whose id is `id`, if any. */
  function IndexOfId(list: seq<Track>, id: int): (r: Option<nat>)
    ensures r.Some? ==> r.value < |list| && list[r.value].id == id
    ensures r.Some? ==> forall j :: 0 <= j < r.value ==> list[j].id != id
    ensures r.None? ==> forall j :: 0 <= j < |list| ==> list[j].id != id
    decreases |list|
  {
    if |list| == 0 then None
    else if list[0].id == id then Some(0)
    else match IndexOfId(list[1..], id)
      case None => None
      case Some(k) => Some(k + 1)
  }

  /**
   * The cursor updatePlayingPosition() settles on: the first track carrying the
   * persisted id, or the first track of the list when no track carries it.
   */
  function ReconciledPosition(list: seq<Track>, id: int): (r: nat)
    requires |list| > 0
    ensures r < |list|
    ensures (exists j :: 0 <= j < |list| && list[j].id == id) ==>
              list[r].id == id && forall j :: 0 <= j < r ==> list[j].id != id
    ensures (forall j :: 0 <= j < |list| ==> list[j].id != id) ==> r == 0
  {
    match IndexOfId(list, id)
    case Some(k) => k
    case None => 0
  }

  /** Loop next() from any cursor the controller can hold moves one track on, wrapping after the last. */
  lemma LoopNextStep(position: int, size: nat)
    requires size > 0 && -1 <= position < size
    ensures Normalize(LoopNext(position, size), size) == if position == size - 1 then 0 else position + 1
  {
  }

  /**
   * Loop prev() as written: one track back from any track but the first; from
   * the first it stays on the first; from the "nothing selected" cursor -1 it
   * selects the last.
   */
  lemma LoopPrevStep(position: int, size: nat)
    requires size > 0 && -1 <= position < size
    ensures Normalize(LoopPrev(position, size), size) ==
              if position == 0 then 0
              else if position == -1 then size - 1
              else position - 1
  {
  }

  /** The discrepancy: on a list of two or more tracks, prev() from the first does not reach the last. */
  lemma LoopPrevFromFirstMissesLast(size: nat)
    requires size >= 2
    ensures Normalize(LoopPrev(0, size), size) == 0
    ensures Normalize(LoopPrev(0, size), size) != size - 1
    ensures Normalize(LoopPrev(Normalize(LoopNext(size - 1, size), size), size), size) != size - 1
  {
  }

  /** The intended predecessor undoes Loop next() and is undone by it, on every track. */
  lemma LoopPrevIntendedInvertsNext(position: int, size: nat)
    requires 0 <= position < size
    ensures Normalize(LoopPrevIntended(Normalize(LoopNext(position, size), size), size), size) == position
    ensures Normalize(LoopNext(Normalize(LoopPrevIntended(position, size), size), size), size) == position
    ensures position == 0 ==> Normalize(LoopPrevIntended(position, size), size) == size - 1
  {
  }

  /** Selecting track i persists its id; with distinct ids that id leads back to i. */
  lemma ReconcileSelected(list: seq<Track>, i: int)
    requires DistinctIds(list) && 0 <= i < |list|
    ensures ReconciledPosition(list, list[i].id) == i
  {
  }

  /** Reconciling again with the id the first reconciliation re-persisted changes nothing. */
  lemma ReconcileIdempotent(list: seq<Track>, id: int)
    requires |list| > 0
    ensures ReconciledPosition(list, list[ReconciledPosition(list, id)].id) == ReconciledPosition(list, id)
  {
  }

  /** The two edge cases of play(int) on a five-track list: -1 selects track 4, 5 selects track 0. */
  lemma NormalizeFiveTracks()
    ensures Normalize(-1, 5) == 4 && Normalize(5, 5) == 0
  {
  }
}
