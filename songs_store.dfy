/**
 * The open-tabs selection store (`src/renderer/src/stores/songs.ts`): the
 * ids of the open songs, the selected one (`''` for none) and the key the
 * viewer transposes to.
 */
module SongsStore {

  /** `selectedSongs.filter((songId) => songId !== id)`. */
  function Without(ids: seq<string>, id: string): (r: seq<string>)
    ensures |r| <= |ids|
  {
    if ids == [] then []
    else Without(ids[..|ids| - 1], id) + (if ids[|ids| - 1] == id then [] else [ids[|ids| - 1]])
  }

  lemma WithoutSnoc(ids: seq<string>, x: string, id: string)
    ensures Without(ids + [x], id) == Without(ids, id) + (if x == id then [] else [x])
  {
    assert (ids + [x])[..|ids|] == ids;
  }

  /** The filter drops every occurrence of `id` and keeps every other element as often as before. */
  lemma {:induction false} WithoutCounts(ids: seq<string>, id: string)
    ensures id !in Without(ids, id)
    ensures forall x | x != id :: multiset(Without(ids, id))[x] == multiset(ids)[x]
  {
    if ids != [] {
      var init := ids[..|ids| - 1];
      WithoutCounts(init, id);
      assert ids == init + [ids[|ids| - 1]];
    }
  }

  /** The filter keeps the order of what it keeps: it distributes over concatenation. */
  lemma {:induction false} WithoutAppend(a: seq<string>, b: seq<string>, id: string)
    ensures Without(a + b, id) == Without(a, id) + Without(b, id)
    decreases |b|
  {
    if b != [] {
      var init := b[..|b| - 1];
      var x := b[|b| - 1];
      assert a + b == (a + init) + [x];
      assert b == init + [x];
      WithoutAppend(a, init, id);
      WithoutSnoc(a + init, x, id);
      WithoutSnoc(init, x, id);
    } else {
      assert a + b == a;
    }
  }

  /** No id occurs twice. */
  predicate Distinct(ids: seq<string>)
  {
    forall i, j | 0 <= i < j < |ids| :: ids[i] != ids[j]
  }

  lemma DistinctSnoc(ids: seq<string>, x: string)
    requires Distinct(ids) && x !in ids
    ensures Distinct(ids + [x])
  {
  }

  /** The filter keeps distinct lists distinct. */
  lemma {:induction false} WithoutDistinct(ids: seq<string>, id: string)
    requires Distinct(ids)
    ensures Distinct(Without(ids, id))
  {
    if ids != [] {
      var init := ids[..|ids| - 1];
      var x := ids[|ids| - 1];
      assert Distinct(init);
      WithoutDistinct(init, id);
      if x != id {
        assert x !in init by {
          forall k | 0 <= k < |init|
            ensures init[k] != x
          {
            assert init[k] == ids[k];
          }
        }
        WithoutCounts(init, id);
        assert multiset(Without(init, id))[x] == 0;
        DistinctSnoc(Without(init, id), x);
      }
    }
  }

  /** `selectedSongs.length > 0 ? selectedSongs[selectedSongs.length - 1] : ''`. */
  function LastOrNone(ids: seq<string>): (r: string)
    ensures r == "" || r in ids
    ensures ids != [] ==> r == ids[|ids| - 1]
  {
    if |ids| > 0 then ids[|ids| - 1] else ""
  }

  class SelectedSongs {
    var selectedSongs: seq<string>
    var selectedSong: string
    var selectedKey: string

    /** The selection is empty or one of the open songs. */
    predicate Valid()
      reads this
    {
      selectedSong == "" || selectedSong in selectedSongs
    }

    /** The initial state: no open songs, no selection, key A. */
    constructor ()
      ensures selectedSongs == [] && selectedSong == "" && selectedKey == "A"
      ensures Valid()
    {
      selectedSongs := [];
      selectedSong := "";
      selectedKey := "A";
    }

    /**
     * `selectSong`: nothing when `id` is already selected; otherwise `id` is
     * opened if it was not, then selected. It never opens a song twice.
     */
    method SelectSong(id: string)
      modifies this
      requires Valid()
      ensures Valid()
      ensures old(selectedSong) == id ==>
        selectedSongs == old(selectedSongs) && selectedSong == old(selectedSong)
      ensures old(selectedSong) != id ==>
        selectedSongs == (if id in old(selectedSongs) then old(selectedSongs) else old(selectedSongs) + [id])
        && selectedSong == id
      ensures selectedKey == old(selectedKey)
      ensures Distinct(old(selectedSongs)) ==> Distinct(selectedSongs)
    {
      if selectedSong == id {
        return;
      }
      if id !in selectedSongs {
        if Distinct(selectedSongs) {
          DistinctSnoc(selectedSongs, id);
        }
        selectedSongs := selectedSongs + [id];
      }
      selectedSong := id;
    }

    /** `addSong`: appends unconditionally, so a song can be open twice; the selection stays. */
    method AddSong(id: string)
      modifies this
      requires Valid()
      ensures Valid()
      ensures selectedSongs == old(selectedSongs) + [id]
      ensures selectedSong == old(selectedSong) && selectedKey == old(selectedKey)
    {
      selectedSongs := selectedSongs + [id];
    }

    /** `removeSong`: closes every copy of `id` and selects the last song still open, or none. */
    method RemoveSong(id: string)
      modifies this
      requires Valid()
      ensures Valid()
      ensures selectedSongs == Without(old(selectedSongs), id)
      ensures selectedSong == LastOrNone(selectedSongs)
      ensures selectedKey == old(selectedKey)
      ensures Distinct(old(selectedSongs)) ==> Distinct(selectedSongs)
    {
      var remaining := Without(selectedSongs, id);
      if Distinct(selectedSongs) {
        WithoutDistinct(selectedSongs, id);
      }
      selectedSong := LastOrNone(remaining);
      selectedSongs := remaining;
    }

    /** `clearSelection`: no open songs and no selection; the key stays. */
    method ClearSelection()
      modifies this
      requires Valid()
      ensures Valid()
      ensures selectedSongs == [] && selectedSong == "" && selectedKey == old(selectedKey)
    {
      selectedSongs := [];
      selectedSong := "";
    }

    /** `setSelectedKey`: changes the key and nothing else. */
    method SetSelectedKey(key: string)
      modifies this
      requires Valid()
      ensures Valid()
      ensures selectedKey == key
      ensures selectedSongs == old(selectedSongs) && selectedSong == old(selectedSong)
    {
      selectedKey := key;
    }
  }
}
