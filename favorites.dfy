/** `frontend/src/hooks/useFavorites.js`: the favourites list kept in React state and mirrored
    to browser storage. The list operations are functions on sequences; the hook is a class
    whose `favorites` field each operation replaces and whose `saved` field is what storage
    holds. JSON serialisation is taken to round-trip. */
module Favorites {

  /** A favourited channel as the channel cards pass it in. */
  datatype Favorite = Favorite(channelId: string, title: string, thumbnailUrl: string, subscriberCount: int)

  /** The storage entry under `toptube_favorites`: missing or empty, unparsable, or a list. */
  datatype Saved = Absent | Unparsable | Stored(list: seq<Favorite>)

  /** `getFavorites`: the stored list, or [] when storage is empty or unparsable. */
  function Load(s: Saved): (r: seq<Favorite>)
    ensures !s.Stored? ==> r == []
  {
    if s.Stored? then s.list else []
  }

  /** `favorites.some(f => f.channel_id === id)`. */
  predicate IsFavorite(favs: seq<Favorite>, id: string)
  {
    exists i :: 0 <= i < |favs| && favs[i].channelId == id
  }

  /** No two entries share a `channel_id`. */
  predicate UniqueIds(favs: seq<Favorite>)
  {
    forall i, j :: 0 <= i < j < |favs| ==> favs[i].channelId != favs[j].channelId
  }

  /** `addFavorite`'s update: unchanged when the id is present, otherwise appended. */
  function Added(favs: seq<Favorite>, ch: Favorite): (r: seq<Favorite>)
  {
    if IsFavorite(favs, ch.channelId) then favs else favs + [ch]
  }

  /** After adding, the channel is a favourite, every other id keeps its membership, the old
      list is a prefix of the new one with at most one entry more, and ids stay unique. */
  lemma AddedFacts(favs: seq<Favorite>, ch: Favorite)
    ensures IsFavorite(Added(favs, ch), ch.channelId)
    ensures forall id :: id != ch.channelId ==> (IsFavorite(Added(favs, ch), id) <==> IsFavorite(favs, id))
    ensures favs <= Added(favs, ch) && |Added(favs, ch)| <= |favs| + 1
    ensures UniqueIds(favs) ==> UniqueIds(Added(favs, ch))
  {
    var r := Added(favs, ch);
    if !IsFavorite(favs, ch.channelId) {
      assert r[|favs|] == ch;
      forall id | id != ch.channelId && IsFavorite(r, id)
        ensures IsFavorite(favs, id)
      {
        var i :| 0 <= i < |r| && r[i].channelId == id;
        assert i < |favs| && favs[i] == r[i];
      }
      forall id | IsFavorite(favs, id)
        ensures IsFavorite(r, id)
      {
        var i :| 0 <= i < |favs| && favs[i].channelId == id;
        assert r[i] == favs[i];
      }
    }
  }

  /** `removeFavorite`'s update: `prev.filter(f => f.channel_id !== id)`. */
  function Removed(favs: seq<Favorite>, id: string): (r: seq<Favorite>)
    ensures |r| <= |favs|
    ensures forall f :: f in r <==> f in favs && f.channelId != id
  {
    if favs == [] then []
    else
      var rest := Removed(favs[..|favs| - 1], id);
      var last := favs[|favs| - 1];
      assert favs == favs[..|favs| - 1] + [last];
      if last.channelId == id then rest else rest + [last]
  }

  /** Removing distributes over concatenation, so the remaining entries keep their order. */
  lemma {:induction false} RemovedAppend(a: seq<Favorite>, b: seq<Favorite>, id: string)
    ensures Removed(a + b, id) == Removed(a, id) + Removed(b, id)
  {
    if b == [] {
      assert a + b == a;
    } else {
      var b' := b[..|b| - 1];
      assert (a + b)[..|a + b| - 1] == a + b';
      assert (a + b)[|a + b| - 1] == b[|b| - 1];
      RemovedAppend(a, b', id);
    }
  }

  /** No entry of the id is left, other ids keep their membership, and ids stay unique. */
  lemma RemovedFacts(favs: seq<Favorite>, id: string)
    ensures !IsFavorite(Removed(favs, id), id)
    ensures forall other :: other != id ==> (IsFavorite(Removed(favs, id), other) <==> IsFavorite(favs, other))
    ensures UniqueIds(favs) ==> UniqueIds(Removed(favs, id))
  {
    var r := Removed(favs, id);
    forall other | IsFavorite(r, other)
      ensures other != id && IsFavorite(favs, other)
    {
      var i :| 0 <= i < |r| && r[i].channelId == other;
      assert r[i] in r;
      var j :| 0 <= j < |favs| && favs[j] == r[i];
    }
    forall other | other != id && IsFavorite(favs, other)
      ensures IsFavorite(r, other)
    {
      var i :| 0 <= i < |favs| && favs[i].channelId == other;
      assert favs[i] in favs;
      var j :| 0 <= j < |r| && r[j] == favs[i];
    }
    if UniqueIds(favs) {
      RemovedUnique(favs, id);
    }
  }

  lemma {:induction false} RemovedUnique(favs: seq<Favorite>, id: string)
    requires UniqueIds(favs)
    ensures UniqueIds(Removed(favs, id))
  {
    if favs != [] {
      var init := favs[..|favs| - 1];
      var last := favs[|favs| - 1];
      RemovedUnique(init, id);
      var rest := Removed(init, id);
      if last.channelId != id {
        forall i | 0 <= i < |rest|
          ensures rest[i].channelId != last.channelId
        {
          assert rest[i] in rest;
          var j :| 0 <= j < |init| && init[j] == rest[i];
          assert favs[j] == init[j];
        }
      }
    }
  }

  /** Without an entry of the id, removing it changes nothing. */
  lemma {:induction false} RemovedAbsent(favs: seq<Favorite>, id: string)
    requires !IsFavorite(favs, id)
    ensures Removed(favs, id) == favs
  {
    if favs != [] {
      var init := favs[..|favs| - 1];
      assert favs == init + [favs[|favs| - 1]];
      assert !IsFavorite(init, id) by {
        forall i | 0 <= i < |init| ensures init[i].channelId != id {
          assert init[i] == favs[i];
        }
      }
      RemovedAbsent(init, id);
    }
  }

  /** `toggleFavorite`: remove when present, add otherwise. */
  function Toggled(favs: seq<Favorite>, ch: Favorite): (r: seq<Favorite>)
  {
    if IsFavorite(favs, ch.channelId) then Removed(favs, ch.channelId) else Added(favs, ch)
  }

  /** Toggling flips the channel's membership, keeps every other id's, keeps ids unique, and
      toggling a channel that was not a favourite twice gives back the same list. */
  lemma ToggledFacts(favs: seq<Favorite>, ch: Favorite)
    ensures IsFavorite(Toggled(favs, ch), ch.channelId) <==> !IsFavorite(favs, ch.channelId)
    ensures forall id :: id != ch.channelId ==> (IsFavorite(Toggled(favs, ch), id) <==> IsFavorite(favs, id))
    ensures UniqueIds(favs) ==> UniqueIds(Toggled(favs, ch))
    ensures !IsFavorite(favs, ch.channelId) ==> Toggled(Toggled(favs, ch), ch) == favs
  {
    AddedFacts(favs, ch);
    RemovedFacts(favs, ch.channelId);
    if !IsFavorite(favs, ch.channelId) {
      assert Toggled(favs, ch) == favs + [ch];
      RemovedAppend(favs, [ch], ch.channelId);
      assert Removed([ch], ch.channelId) == [] by {
        assert [ch][..0] == [];
      }
      RemovedAbsent(favs, ch.channelId);
    }
  }

  /** The hook's state: the list shown, and what storage holds. */
  class FavoritesHook {
    var favorites: seq<Favorite>
    var saved: Saved

    /** `useState(getFavorites)`. */
    constructor (stored: Saved)
      ensures favorites == Load(stored) && saved == stored
    {
      favorites := Load(stored);
      saved := stored;
    }

    predicate Contains(id: string)
      reads this
    {
      IsFavorite(favorites, id)
    }

    /** `addFavorite`: a channel already present leaves list and storage alone; otherwise it is
        appended and the new list is saved. */
    method AddFavorite(ch: Favorite)
      modifies this
      ensures favorites == Added(old(favorites), ch)
      ensures saved == if IsFavorite(old(favorites), ch.channelId) then old(saved) else Stored(favorites)
    {
      if IsFavorite(favorites, ch.channelId) {
        return;
      }
      favorites := favorites + [ch];
      saved := Stored(favorites);
    }

    /** `removeFavorite`: filters the id out and always saves. */
    method RemoveFavorite(id: string)
      modifies this
      ensures favorites == Removed(old(favorites), id)
      ensures saved == Stored(favorites)
    {
      favorites := Removed(favorites, id);
      saved := Stored(favorites);
    }

    /** `toggleFavorite`: removes a present channel, adds an absent one; either way the new
        list is saved. */
    method ToggleFavorite(ch: Favorite)
      modifies this
      ensures favorites == Toggled(old(favorites), ch)
      ensures saved == Stored(favorites)
      ensures Contains(ch.channelId) <==> !old(Contains(ch.channelId))
      ensures old(UniqueIds(favorites)) ==> UniqueIds(favorites)
    {
      ToggledFacts(favorites, ch);
      if Contains(ch.channelId) {
        RemoveFavorite(ch.channelId);
      } else {
        AddFavorite(ch);
      }
    }
  }
}
