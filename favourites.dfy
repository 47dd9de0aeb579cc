/**
 * The favourites slice: the user's favourite bus stops, keyed by ATCO code,
 * kept in memory and written in full to the key-value store under
 * "favourites" after every accepted change. The list's serialisation and
 * parsing (JSON in the app) are functions the slice is given.
 */
module Favourites {
  import opened Wrappers
  import opened Types
  import opened Thunk
  import opened AsyncStorage

  /** The storage key of the persisted list. */
  const FavouritesKey := "favourites"

  /** Some entry of `list` has ATCO code `code`. */
  predicate HasCode(list: seq<BusStop>, code: string)
  {
    exists s | s in list :: s.atcocode == code
  }

  /** No two entries of `list` share an ATCO code. */
  predicate UniqueCodes(list: seq<BusStop>)
  {
    forall i, j | 0 <= i < j < |list| :: list[i].atcocode != list[j].atcocode
  }

  /**
   * `list.filter(item => item.atcocode !== code)`: the entries whose code is
   * not `code`, in their original order.
   */
  function Without(list: seq<BusStop>, code: string): (r: seq<BusStop>)
    ensures forall x :: x in r <==> x in list && x.atcocode != code
    ensures !HasCode(r, code)
    ensures |r| <= |list|
    ensures !HasCode(list, code) ==> r == list
    decreases |list|
  {
    if list == [] then []
    else
      var init, last := list[..|list| - 1], list[|list| - 1];
      assert list == init + [last];
      Without(init, code) + (if last.atcocode == code then [] else [last])
  }

  /** Appending a stop whose code is new keeps codes unique. */
  lemma AppendKeepsUnique(list: seq<BusStop>, stop: BusStop)
    requires UniqueCodes(list) && !HasCode(list, stop.atcocode)
    ensures UniqueCodes(list + [stop])
  {
    forall i | 0 <= i < |list| ensures list[i].atcocode != stop.atcocode {
      assert list[i] in list;
    }
  }

  /** Filtering a list with unique codes leaves codes unique. */
  lemma {:induction false} WithoutKeepsUnique(list: seq<BusStop>, code: string)
    requires UniqueCodes(list)
    ensures UniqueCodes(Without(list, code))
    decreases |list|
  {
    if list != [] {
      var init, last := list[..|list| - 1], list[|list| - 1];
      assert list == init + [last];
      assert UniqueCodes(init);
      WithoutKeepsUnique(init, code);
      if last.atcocode != code {
        forall s | s in init ensures s.atcocode != last.atcocode {
          var k :| 0 <= k < |init| && init[k] == s;
          assert list[k] == s;
        }
        AppendKeepsUnique(Without(init, code), last);
      }
    }
  }

  /** Filtering distributes over concatenation: the relative order of the kept entries is the original one. */
  lemma {:induction false} WithoutAppend(a: seq<BusStop>, b: seq<BusStop>, code: string)
    ensures Without(a + b, code) == Without(a, code) + Without(b, code)
    decreases |b|
  {
    if b == [] {
      assert a + b == a;
    } else {
      var init, last := b[..|b| - 1], b[|b| - 1];
      assert (a + b)[..|a + b| - 1] == a + init;
      assert (a + b)[|a + b| - 1] == last;
      WithoutAppend(a, init, code);
    }
  }

  /** The list after `addToFavourites(stop)`: unchanged when the code is present, else `stop` appended. */
  function Added(list: seq<BusStop>, stop: BusStop): (r: seq<BusStop>)
    ensures HasCode(r, stop.atcocode)
    ensures |list| <= |r| <= |list| + 1 && r[..|list|] == list
    ensures HasCode(list, stop.atcocode) <==> r == list
    ensures !HasCode(list, stop.atcocode) ==> r[|list|] == stop
  {
    if HasCode(list, stop.atcocode) then list
    else
      assert stop in list + [stop];
      list + [stop]
  }

  /** The list after `toggleFavourite(stop)`: every entry with its code removed, or `stop` appended. */
  function Toggled(list: seq<BusStop>, stop: BusStop): (r: seq<BusStop>)
    ensures HasCode(r, stop.atcocode) <==> !HasCode(list, stop.atcocode)
    ensures forall c :: c != stop.atcocode ==> (HasCode(r, c) <==> HasCode(list, c))
    ensures !HasCode(list, stop.atcocode) ==> r == list + [stop]
  {
    if HasCode(list, stop.atcocode) then Without(list, stop.atcocode)
    else
      assert stop in list + [stop];
      list + [stop]
  }

  /** Adding keeps codes unique. */
  lemma AddKeepsUnique(list: seq<BusStop>, stop: BusStop)
    requires UniqueCodes(list)
    ensures UniqueCodes(Added(list, stop))
  {
    if !HasCode(list, stop.atcocode) {
      AppendKeepsUnique(list, stop);
    }
  }

  /** Toggling keeps codes unique. */
  lemma ToggleKeepsUnique(list: seq<BusStop>, stop: BusStop)
    requires UniqueCodes(list)
    ensures UniqueCodes(Toggled(list, stop))
  {
    if HasCode(list, stop.atcocode) {
      WithoutKeepsUnique(list, stop.atcocode);
    } else {
      AppendKeepsUnique(list, stop);
    }
  }

  /** Toggling a stop that is not a favourite, twice, gives back exactly the original list. */
  lemma ToggleTwiceRestores(list: seq<BusStop>, stop: BusStop)
    requires !HasCode(list, stop.atcocode)
    ensures Toggled(Toggled(list, stop), stop) == list
  {
    WithoutAppend(list, [stop], stop.atcocode);
    assert Without([stop], stop.atcocode) == [];
  }

  /** Toggling any stop twice gives back the same set of codes. */
  lemma ToggleTwiceSameCodes(list: seq<BusStop>, stop: BusStop, c: string)
    ensures HasCode(Toggled(Toggled(list, stop), stop), c) <==> HasCode(list, c)
  {
  }

  /** A change to the favourites list requested by the user interface. */
  datatype Edit = Add(stop: BusStop) | Remove(code: string) | Toggle(stop: BusStop)

  function ApplyEdit(list: seq<BusStop>, e: Edit): seq<BusStop>
  {
    match e
    case Add(s) => Added(list, s)
    case Remove(c) => Without(list, c)
    case Toggle(s) => Toggled(list, s)
  }

  /** The list after the edits, applied in order. */
  function ApplyEdits(list: seq<BusStop>, edits: seq<Edit>): seq<BusStop>
  {
    if edits == [] then list else ApplyEdit(ApplyEdits(list, edits[..|edits| - 1]), edits[|edits| - 1])
  }

  /** Any sequence of adds, removes and toggles keeps codes unique. */
  lemma {:induction false} EditsKeepCodesUnique(list: seq<BusStop>, edits: seq<Edit>)
    requires UniqueCodes(list)
    ensures UniqueCodes(ApplyEdits(list, edits))
    decreases |edits|
  {
    if edits != [] {
      var before := ApplyEdits(list, edits[..|edits| - 1]);
      EditsKeepCodesUnique(list, edits[..|edits| - 1]);
      match edits[|edits| - 1]
      case Add(s) => AddKeepsUnique(before, s);
      case Remove(c) => WithoutKeepsUnique(before, c);
      case Toggle(s) => ToggleKeepsUnique(before, s);
    }
  }

  /** `list.find(item => item.atcocode === code)`: the first entry with that code, if any. */
  method Find(list: seq<BusStop>, code: string) returns (r: Option<BusStop>)
    ensures r.Some? <==> HasCode(list, code)
    ensures r.Some? ==> r.value.atcocode == code
    ensures r.Some? ==>
      exists i :: 0 <= i < |list| && list[i] == r.value && (forall j :: 0 <= j < i ==> list[j].atcocode != code)
  {
    var i := 0;
    while i < |list|
      invariant 0 <= i <= |list|
      invariant forall j :: 0 <= j < i ==> list[j].atcocode != code
    {
      if list[i].atcocode == code {
        return Some(list[i]);
      }
      i := i + 1;
    }
    r := None;
  }

  /** `list.filter(item => item.atcocode !== code)`, one entry at a time. */
  method Filter(list: seq<BusStop>, code: string) returns (r: seq<BusStop>)
    ensures r == Without(list, code)
  {
    r := [];
    var i := 0;
    while i < |list|
      invariant 0 <= i <= |list|
      invariant r == Without(list[..i], code)
    {
      assert list[..i + 1][..i] == list[..i];
      if list[i].atcocode != code {
        r := r + [list[i]];
      }
      i := i + 1;
    }
    assert list[..i] == list;
  }

  /** The favourites slice with the store it persists to. */
  class FavouritesSlice {
    var favourites: seq<BusStop>
    var loading: bool
    const store: KeyValueStore
    const stringify: seq<BusStop> -> string
    const parse: string -> Result<seq<BusStop>, ThrownError>

    /** The store holds the serialisation of the in-memory list. */
    ghost predicate Persisted()
      reads this, store
    {
      Lookup(store.entries, FavouritesKey) == Some(stringify(favourites))
    }

    /** The initial state: no favourites, not loading. */
    constructor (store: KeyValueStore, stringify: seq<BusStop> -> string,
                 parse: string -> Result<seq<BusStop>, ThrownError>)
      ensures favourites == [] && !loading
      ensures this.store == store && this.stringify == stringify && this.parse == parse
    {
      favourites := [];
      loading := false;
      this.store := store;
      this.stringify := stringify;
      this.parse := parse;
    }

    /** `setFavourites(payload)`: adopts the payload as-is and persists it. */
    method SetFavourites(payload: seq<BusStop>)
      modifies this, store
      ensures favourites == payload && loading == old(loading)
      ensures store.entries == Put(old(store.entries), FavouritesKey, Some(stringify(payload)))
      ensures Persisted()
      ensures UniqueCodes(favourites) <==> UniqueCodes(payload)
    {
      favourites := payload;
      store.SetItem(FavouritesKey, Some(stringify(favourites)));
    }

    /** `addToFavourites(stop)`: appends a stop with a new code and persists; a known code changes nothing. */
    method AddToFavourites(stop: BusStop)
      modifies this, store
      ensures favourites == Added(old(favourites), stop) && loading == old(loading)
      ensures old(HasCode(favourites, stop.atcocode)) ==> store.entries == old(store.entries)
      ensures !old(HasCode(favourites, stop.atcocode)) ==>
        store.entries == Put(old(store.entries), FavouritesKey, Some(stringify(favourites))) && Persisted()
      ensures old(UniqueCodes(favourites)) ==> UniqueCodes(favourites)
    {
      if UniqueCodes(favourites) {
        AddKeepsUnique(favourites, stop);
      }
      var found := Find(favourites, stop.atcocode);
      if found.None? {
        favourites := favourites + [stop];
        store.SetItem(FavouritesKey, Some(stringify(favourites)));
      }
    }

    /** `removeFromFavourites(code)`: drops every entry with that code and persists the rest. */
    method RemoveFromFavourites(code: string)
      modifies this, store
      ensures favourites == Without(old(favourites), code) && loading == old(loading)
      ensures store.entries == Put(old(store.entries), FavouritesKey, Some(stringify(favourites)))
      ensures Persisted()
      ensures old(UniqueCodes(favourites)) ==> UniqueCodes(favourites)
    {
      if UniqueCodes(favourites) {
        WithoutKeepsUnique(favourites, code);
      }
      favourites := Filter(favourites, code);
      store.SetItem(FavouritesKey, Some(stringify(favourites)));
    }

    /** `toggleFavourite(stop)`: removes the stop's code if present, else appends the stop; persists either way. */
    method ToggleFavourite(stop: BusStop)
      modifies this, store
      ensures favourites == Toggled(old(favourites), stop) && loading == old(loading)
      ensures store.entries == Put(old(store.entries), FavouritesKey, Some(stringify(favourites)))
      ensures Persisted()
      ensures old(UniqueCodes(favourites)) ==> UniqueCodes(favourites)
    {
      if UniqueCodes(favourites) {
        ToggleKeepsUnique(favourites, stop);
      }
      var found := Find(favourites, stop.atcocode);
      if found.Some? {
        favourites := Filter(favourites, stop.atcocode);
      } else {
        favourites := favourites + [stop];
      }
      store.SetItem(FavouritesKey, Some(stringify(favourites)));
    }

    /**
     * The body of `loadFavourites`: a stored value that tests true is parsed
     * (a parse error is thrown); nothing stored, or the empty string, gives [].
     */
    method LoadFavouritesBody() returns (r: Result<seq<BusStop>, ThrownError>)
      ensures !Truthy(Lookup(store.entries, FavouritesKey)) ==> r == Success([])
      ensures Truthy(Lookup(store.entries, FavouritesKey)) ==> r == parse(store.entries[FavouritesKey])
    {
      var stored := store.GetItem(FavouritesKey);
      if stored.Some? && stored.value != "" {
        r := parse(stored.value);
      } else {
        r := Success([]);
      }
    }

    /** `loadFavourites.pending`. */
    method LoadPending()
      modifies this
      ensures loading && favourites == old(favourites)
    {
      loading := true;
    }

    /** `loadFavourites.fulfilled`: the loaded list replaces the in-memory one; nothing is written. */
    method LoadFulfilled(payload: seq<BusStop>)
      modifies this
      ensures !loading && favourites == payload
    {
      loading := false;
      favourites := payload;
    }

    /** `loadFavourites.rejected`: loading ends and the list is kept. */
    method LoadRejected()
      modifies this
      ensures !loading && favourites == old(favourites)
    {
      loading := false;
    }

    /** Dispatches `loadFavourites`: pending, then the body's settlement. The store is only read. */
    method LoadFavourites()
      modifies this
      ensures !loading
      ensures !Truthy(Lookup(store.entries, FavouritesKey)) ==> favourites == []
      ensures Truthy(Lookup(store.entries, FavouritesKey)) ==>
        var parsed := parse(store.entries[FavouritesKey]);
        favourites == if parsed.Success? then parsed.value else old(favourites)
    {
      LoadPending();
      var r := LoadFavouritesBody();
      if r.Success? {
        LoadFulfilled(r.value);
      } else {
        LoadRejected();
      }
    }
  }
}
